/** The hidden secrets: typed code words, the bottom-left corner, repeated
    double-clicks and a message after a minute of idleness. */
module Secrets {
  import opened Wrappers
  import Counters

  /** The code words, in the order they are checked. */
  const Codes: seq<string> := ["wilford", "music", "zone", "ghost", "party"]

  /** The buffer is forgotten this long after the last letter, in milliseconds. */
  const BufferLifetime: nat := 2000

  const DoubleClickPeriod: nat := 5

  /** Seconds of inactivity before the idle message. */
  const IdleLimit: nat := 60

  const IdleMessages: seq<string> := [
    "Still there?",
    "The music awaits...",
    "Try typing 'wilford'",
    "Explore the corners...",
    "What secrets lie within?"
  ]

  const CornerSize: real := 50.0

  // ---------------------------------------------------------------------
  // Letters and substrings

  /** What `/[a-z]/i` accepts in a one-character key. */
  predicate IsLetter(c: char) { 'a' <= c <= 'z' || 'A' <= c <= 'Z' }

  predicate IsLetterKey(key: string) { |key| == 1 && IsLetter(key[0]) }

  predicate IsLower(c: char) { 'a' <= c <= 'z' }

  /** `toLowerCase` on a letter. */
  function Lower(c: char): (l: char)
    requires IsLetter(c)
    ensures IsLower(l)
    ensures IsLower(c) ==> l == c
    ensures !IsLower(c) ==> l as int - c as int == 'a' as int - 'A' as int
  {
    if IsLower(c) then c else (c as int + ('a' as int - 'A' as int)) as char
  }

  /** `code` sits in `s` starting at position `i`. */
  predicate OccursAt(code: string, s: string, i: nat)
  {
    i + |code| <= |s| && s[i..i + |code|] == code
  }

  /** `s.includes(code)`, searching from the front. */
  predicate Includes(s: string, code: string)
    decreases |s|
  {
    |code| <= |s| && (s[..|code|] == code || Includes(s[1..], code))
  }

  /** The search finds `code` exactly when it occurs somewhere in `s`. */
  lemma {:induction false} IncludesOccurs(s: string, code: string)
    ensures Includes(s, code) <==> exists i: nat :: OccursAt(code, s, i)
    decreases |s|
  {
    if |code| <= |s| {
      if s[..|code|] == code {
        assert OccursAt(code, s, 0);
      } else {
        IncludesOccurs(s[1..], code);
        if Includes(s[1..], code) {
          var i: nat :| OccursAt(code, s[1..], i);
          assert s[1..][i..i + |code|] == s[i + 1..i + 1 + |code|];
          assert OccursAt(code, s, i + 1);
        }
        if i: nat :| OccursAt(code, s, i) {
          assert i != 0;
          assert s[1..][i - 1..i - 1 + |code|] == s[i..i + |code|];
          assert OccursAt(code, s[1..], i - 1);
        }
      }
    }
  }

  /** No code word occurs in `s`. */
  predicate NoCode(s: string)
  {
    forall j :: 0 <= j < |Codes| ==> !Includes(s, Codes[j])
  }

  /** The first code word, from position `from` on, that `s` contains. */
  function FirstMatch(s: string, from: nat): (r: Option<nat>)
    requires from <= |Codes|
    ensures r.Some? ==>
      && from <= r.value < |Codes| && Includes(s, Codes[r.value])
      && forall j :: from <= j < r.value ==> !Includes(s, Codes[j])
    ensures r.None? <==> forall j :: from <= j < |Codes| ==> !Includes(s, Codes[j])
    decreases |Codes| - from
  {
    if from == |Codes| then None
    else if Includes(s, Codes[from]) then Some(from)
    else FirstMatch(s, from + 1)
  }

  /** Every code word is at least four letters long, so the empty buffer
      holds none of them. */
  lemma EmptyHasNoCode()
    ensures NoCode("")
  {
    forall j | 0 <= j < |Codes|
      ensures !Includes("", Codes[j])
    {
      assert |Codes[j]| >= 4;
    }
  }

  /** `showIdleMessage`: one of the messages, picked by the `Math.random()`
      draw `pick`. */
  function IdleMessage(pick: real): (m: string)
    requires 0.0 <= pick < 1.0
    ensures m in IdleMessages
  {
    IdleMessages[(pick * |IdleMessages| as real).Floor]
  }

  /** A click in the bottom-left corner: under 50 pixels from the left edge
      and from the bottom of the window. */
  predicate InHiddenCorner(clientX: real, clientY: real, innerHeight: real)
  {
    clientX < CornerSize && clientY > innerHeight - CornerSize
  }

  /** How many idle messages `ticks` one-second ticks show, starting from
      `idle` seconds and with no mouse or key activity in between. */
  function IdleMessagesOver(idle: nat, ticks: nat): nat
    decreases ticks
  {
    if ticks == 0 then 0
    else (if idle + 1 == IdleLimit then 1 else 0) + IdleMessagesOver(idle + 1, ticks - 1)
  }

  /** Without activity the idle message appears once, on the tick that
      reaches 60 seconds, and never again. */
  lemma {:induction false} IdleMessageOnce(idle: nat, ticks: nat)
    ensures IdleMessagesOver(idle, ticks) == if idle < IdleLimit <= idle + ticks then 1 else 0
    decreases ticks
  {
    if ticks > 0 {
      IdleMessageOnce(idle + 1, ticks - 1);
    }
  }

  // ---------------------------------------------------------------------
  // The page state

  /** What a handler does besides changing the state: the effect of a code
      word, or a temporary message with its duration in milliseconds. */
  datatype Effect = Secret(code: string) | Message(text: string, duration: nat)

  class Secrets {
    var inputBuffer: string
    /** When the pending buffer timeout fires, if one is pending. */
    var clearDue: Option<nat>
    var dblClickCount: nat
    var idleTime: nat
    /** Whether the hidden corner has been stored as found. */
    var foundCorner: bool
    var effects: seq<Effect>

    ghost predicate Valid()
      reads this`inputBuffer, this`dblClickCount
    {
      && (forall i :: 0 <= i < |inputBuffer| ==> IsLower(inputBuffer[i]))
      && NoCode(inputBuffer)
      && dblClickCount < DoubleClickPeriod
    }

    constructor ()
      ensures Valid()
      ensures inputBuffer == "" && clearDue == None && dblClickCount == 0 && idleTime == 0
      ensures !foundCorner && effects == []
    {
      inputBuffer := "";
      clearDue := None;
      dblClickCount := 0;
      idleTime := 0;
      foundCorner := false;
      effects := [];
      EmptyHasNoCode();
    }

    /** Both keydown listeners: a letter is added to the buffer in lower
        case and restarts the buffer timeout, then the first code word the
        buffer contains fires and empties it; any key resets the idle time. */
    method KeyDown(key: string, now: nat)
      requires Valid()
      modifies this`inputBuffer, this`clearDue, this`effects, this`idleTime
      ensures Valid()
      ensures idleTime == 0
      ensures !IsLetterKey(key) ==>
        inputBuffer == old(inputBuffer) && clearDue == old(clearDue) && effects == old(effects)
      ensures IsLetterKey(key) ==>
        var s := old(inputBuffer) + [Lower(key[0])];
        && clearDue == Some(now + BufferLifetime)
        && (FirstMatch(s, 0).None? ==> inputBuffer == s && effects == old(effects))
        && (FirstMatch(s, 0).Some? ==>
              inputBuffer == "" && effects == old(effects) + [Secret(Codes[FirstMatch(s, 0).value])])
    {
      if IsLetterKey(key) {
        inputBuffer := inputBuffer + [Lower(key[0])];
        clearDue := Some(now + BufferLifetime);
        var k := 0;
        while k < |Codes|
          invariant k <= |Codes|
          invariant forall j :: 0 <= j < k ==> !Includes(inputBuffer, Codes[j])
          invariant inputBuffer == old(inputBuffer) + [Lower(key[0])]
          invariant effects == old(effects)
        {
          if Includes(inputBuffer, Codes[k]) {
            effects := effects + [Secret(Codes[k])];
            inputBuffer := "";
            EmptyHasNoCode();
            break;
          }
          k := k + 1;
        }
      }
      idleTime := 0;
    }

    /** The buffer timeout fires at time `now` and empties the buffer. It
        fires no earlier than it is due, so two seconds after the last
        letter at the soonest: every letter restarts the wait. */
    method BufferTimeout(now: nat)
      requires Valid()
      requires clearDue.Some? ==> now >= clearDue.value
      modifies this`inputBuffer, this`clearDue
      ensures Valid()
      ensures old(clearDue).Some? ==> inputBuffer == "" && clearDue == None
      ensures old(clearDue).None? ==> inputBuffer == old(inputBuffer) && clearDue == None
    {
      if clearDue.Some? {
        inputBuffer := "";
        clearDue := None;
        EmptyHasNoCode();
      }
    }

    /** A click anywhere: in the hidden corner it shows a message and
        stores the corner as found. */
    method Click(clientX: real, clientY: real, innerHeight: real)
      modifies this`foundCorner, this`effects
      ensures InHiddenCorner(clientX, clientY, innerHeight) ==>
        foundCorner && effects == old(effects) + [Message("You found a hidden corner!", 2000)]
      ensures !InHiddenCorner(clientX, clientY, innerHeight) ==>
        foundCorner == old(foundCorner) && effects == old(effects)
    {
      if clientX < CornerSize && clientY > innerHeight - CornerSize {
        effects := effects + [Message("You found a hidden corner!", 2000)];
        foundCorner := true;
      }
    }

    /** A double-click: every fifth one shows a message and starts the
        count over. */
    method DoubleClick()
      requires Valid()
      modifies this`dblClickCount, this`effects
      ensures Valid()
      ensures (dblClickCount, effects != old(effects)) == Counters.Step(old(dblClickCount), DoubleClickPeriod)
      ensures effects != old(effects) ==> effects == old(effects) + [Message("Double-click master!", 2000)]
    {
      dblClickCount := dblClickCount + 1;
      if dblClickCount >= DoubleClickPeriod {
        effects := effects + [Message("Double-click master!", 2000)];
        dblClickCount := 0;
      }
    }

    /** The one-second idle tick: the message appears on reaching exactly
        60 seconds. */
    method IdleTick(pick: real)
      requires 0.0 <= pick < 1.0
      modifies this`idleTime, this`effects
      ensures idleTime == old(idleTime) + 1
      ensures idleTime == IdleLimit ==> effects == old(effects) + [Message(IdleMessage(pick), 3000)]
      ensures idleTime != IdleLimit ==> effects == old(effects)
    {
      idleTime := idleTime + 1;
      if idleTime == IdleLimit {
        effects := effects + [Message(IdleMessage(pick), 3000)];
      }
    }

    /** Mouse movement resets the idle time. */
    method MouseMove()
      modifies this`idleTime
      ensures idleTime == 0
    {
      idleTime := 0;
    }
  }
}
