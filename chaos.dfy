/** The GeoCities-style page dressing: the visitor counter, the chaos on/off
    toggle, the mouse trail and the seven-click title secret. */
module Chaos {
  import opened Wrappers
  import opened Text
  import Counters

  const HitsKey := "wilford_hits"
  const ChaosKey := "chaos_enabled"

  /** The counter shows at least this many digits. */
  const CounterWidth: nat := 6

  /** Milliseconds between two trail particles, at least. */
  const Throttle: int := 50

  const TrailSymbols: seq<string> := ["✦", "♪", "★", "♫", "✧"]

  const SecretClickPeriod: nat := 7

  // ---------------------------------------------------------------------
  // The visitor counter

  /** The stored entry for `key`, if any. */
  function Lookup(store: map<string, string>, key: string): Option<string>
  {
    if key in store then Some(store[key]) else None
  }

  /** The stored count as the counter reads it: a missing or empty entry
      counts as 0, anything else goes through `parseInt`, with `None` for
      `NaN`. */
  function StoredHits(stored: Option<string>): Option<int>
  {
    if stored.None? || stored.value == "" then Some(0) else ParseInt(stored.value)
  }

  /** `String(count)`, where `NaN` prints as "NaN". */
  function CountString(count: Option<int>): (s: string)
    ensures 1 <= |s|
  {
    if count.None? then "NaN" else IntString(count.value)
  }

  /** The result of `initHitCounter`: the value written back and the
      counter text, padded with zeros in front. */
  datatype HitCounter = HitCounter(written: string, shown: string)

  function InitHitCounter(stored: Option<string>): (r: HitCounter)
    ensures |r.shown| == if |r.written| < CounterWidth then CounterWidth else |r.written|
    ensures r.shown[|r.shown| - |r.written|..] == r.written
    ensures AllChar(r.shown[..|r.shown| - |r.written|], '0')
  {
    var count := match StoredHits(stored) case None => None case Some(k) => Some(k + 1);
    var written := CountString(count);
    HitCounter(written, PadStart(written, CounterWidth, '0'))
  }

  /** What the counter writes reads back as one more than what it read; a
      stored value `parseInt` cannot read stays unreadable. */
  lemma HitsWrittenBack(stored: Option<string>)
    ensures StoredHits(stored).Some? ==>
      StoredHits(Some(InitHitCounter(stored).written)) == Some(StoredHits(stored).value + 1)
    ensures StoredHits(stored).None? ==> StoredHits(Some(InitHitCounter(stored).written)) == None
  {
    var written := InitHitCounter(stored).written;
    if StoredHits(stored).Some? {
      var k := StoredHits(stored).value + 1;
      assert written == IntString(k);
      ParseIntString(k);
    } else {
      assert written == "NaN";
      assert ParseInt("NaN") == None;
    }
  }

  /** For a count that is not negative the counter text is all digits and
      reads as the new count. */
  lemma CounterShowsCount(stored: Option<string>, k: nat)
    requires StoredHits(stored) == Some(k)
    ensures AllDigits(InitHitCounter(stored).shown)
    ensures ValueOf(InitHitCounter(stored).shown) == k + 1
  {
    PaddedValue(k + 1, CounterWidth);
  }

  const DigitOpen := "<span class=\"hit-digit\">"
  const DigitClose := "</span>"

  /** The width of the markup for one digit. */
  const DigitSpanWidth: nat := 32

  function DigitSpan(c: char): (r: string)
    ensures |r| == DigitSpanWidth
    ensures r[|DigitOpen|] == c
  {
    DigitOpen + [c] + DigitClose
  }

  /** `split('').map(...).join('')`: one span per character. */
  function DigitSpans(s: string): (r: string)
    ensures |r| == |s| * DigitSpanWidth
  {
    if s == [] then "" else DigitSpan(s[0]) + DigitSpans(s[1..])
  }

  /** The `i`-th span holds the `i`-th character, so the spans show the
      characters of the counter text in order. */
  lemma {:induction false} DigitSpanAt(s: string, i: nat)
    requires i < |s|
    ensures DigitSpans(s)[i * DigitSpanWidth..(i + 1) * DigitSpanWidth] == DigitSpan(s[i])
    ensures DigitSpans(s)[i * DigitSpanWidth + |DigitOpen|] == s[i]
  {
    var w := DigitSpanWidth;
    var r := DigitSpans(s);
    if i == 0 {
      assert r[..w] == DigitSpan(s[0]);
    } else {
      DigitSpanAt(s[1..], i - 1);
      var t := DigitSpans(s[1..]);
      assert r == DigitSpan(s[0]) + t;
      assert (i - 1) * w + w == i * w;
      assert r[i * w..(i + 1) * w] == t[(i - 1) * w..i * w];
    }
  }

  // ---------------------------------------------------------------------
  // The chaos toggle

  /** Chaos is on at load unless the stored flag is exactly "false". */
  predicate ChaosEnabledOnLoad(stored: Option<string>)
  {
    stored != Some("false")
  }

  /** The toggle's label offers the opposite of the current state. */
  function ToggleLabel(disabled: bool): string
  {
    if disabled then "Enable Chaos" else "Disable Chaos"
  }

  // ---------------------------------------------------------------------
  // The page

  /** A trail particle: where, when, which symbol and which hue. */
  datatype Particle = Particle(x: real, y: real, time: int, symbol: string, hue: real)

  /** The trail symbol picked by the `Math.random()` draw `pick`. */
  function TrailSymbol(pick: real): (s: string)
    requires 0.0 <= pick < 1.0
    ensures s in TrailSymbols
  {
    TrailSymbols[(pick * |TrailSymbols| as real).Floor]
  }

  class Page {
    /** `localStorage`. */
    var store: map<string, string>
    /** The body's `chaos-disabled` and `chaos-enabled` classes. */
    var disabledClass: bool
    var enabledClass: bool
    var toggleLabel: string
    /** The counter's digit markup. */
    var counterMarkup: string
    /** `lastTime` of the mouse trail, and every particle spawned so far. */
    var lastTime: int
    var trail: seq<Particle>
    var secretClicks: nat
    var unlocks: nat

    /** The body classes and the label agree with what is stored, so a
        reload comes back in the same state; the trail's particles are at
        least 50 ms apart and `lastTime` is the last one's time. */
    ghost predicate Valid()
      reads this`store, this`disabledClass, this`enabledClass, this`toggleLabel,
            this`lastTime, this`trail, this`secretClicks
    {
      && (ChaosEnabledOnLoad(Lookup(store, ChaosKey)) <==> !disabledClass)
      && enabledClass == !disabledClass
      && toggleLabel == ToggleLabel(disabledClass)
      && lastTime == (if trail == [] then 0 else trail[|trail| - 1].time)
      && (trail != [] ==> trail[0].time >= Throttle)
      && (forall i :: 0 < i < |trail| ==> trail[i].time - trail[i - 1].time >= Throttle)
      && secretClicks < SecretClickPeriod
    }

    /** `initAll` on a page whose storage holds `storage`: the toggle
        takes the stored state and the visit is counted. */
    constructor (storage: map<string, string>)
      ensures Valid()
      ensures var hits := InitHitCounter(Lookup(storage, HitsKey));
        && store == storage[HitsKey := hits.written]
        && counterMarkup == DigitSpans(hits.shown)
      ensures disabledClass == !ChaosEnabledOnLoad(Lookup(storage, ChaosKey))
      ensures lastTime == 0 && trail == [] && secretClicks == 0 && unlocks == 0
    {
      var enabled := ChaosEnabledOnLoad(Lookup(storage, ChaosKey));
      disabledClass := !enabled;
      enabledClass := enabled;
      toggleLabel := ToggleLabel(!enabled);
      var hits := InitHitCounter(Lookup(storage, HitsKey));
      store := storage[HitsKey := hits.written];
      counterMarkup := DigitSpans(hits.shown);
      lastTime := 0;
      trail := [];
      secretClicks := 0;
      unlocks := 0;
      assert Lookup(storage[HitsKey := hits.written], ChaosKey) == Lookup(storage, ChaosKey);
    }

    /** A click on the toggle flips chaos and stores the new state. */
    method ToggleClick()
      requires Valid()
      modifies this`disabledClass, this`enabledClass, this`store, this`toggleLabel
      ensures Valid()
      ensures disabledClass == !old(disabledClass)
      ensures store == old(store)[ChaosKey := if disabledClass then "false" else "true"]
    {
      var isEnabled := !disabledClass;
      if isEnabled {
        disabledClass := true;
        enabledClass := false;
        store := store[ChaosKey := "false"];
        toggleLabel := "Enable Chaos";
      } else {
        disabledClass := false;
        enabledClass := true;
        store := store[ChaosKey := "true"];
        toggleLabel := "Disable Chaos";
      }
    }

    /** Mouse movement at time `now`: a particle is spawned, and `lastTime`
        moved, only when 50 ms have passed since the last particle. */
    method MouseMove(now: int, clientX: real, clientY: real, pick: real, hue: real)
      requires Valid() && 0.0 <= pick < 1.0
      modifies this`lastTime, this`trail
      ensures Valid()
      ensures old(now - lastTime) < Throttle ==> lastTime == old(lastTime) && trail == old(trail)
      ensures old(now - lastTime) >= Throttle ==>
        && lastTime == now
        && trail == old(trail) + [Particle(clientX, clientY, now, TrailSymbol(pick), hue)]
    {
      if now - lastTime < Throttle {
        return;
      }
      lastTime := now;
      trail := trail + [Particle(clientX, clientY, now, TrailSymbol(pick), hue)];
    }

    /** A click; one on the title or the intro text counts towards the
        secret, which unlocks on the seventh and starts the count over. */
    method Click(onTitle: bool)
      requires Valid()
      modifies this`secretClicks, this`unlocks
      ensures Valid()
      ensures !onTitle ==> secretClicks == old(secretClicks) && unlocks == old(unlocks)
      ensures onTitle ==>
        (secretClicks, unlocks == old(unlocks) + 1) == Counters.Step(old(secretClicks), SecretClickPeriod)
      ensures unlocks <= old(unlocks) + 1
    {
      if onTitle {
        secretClicks := secretClicks + 1;
        if secretClicks == SecretClickPeriod {
          unlocks := unlocks + 1;
          secretClicks := 0;
        }
      }
    }
  }
}
