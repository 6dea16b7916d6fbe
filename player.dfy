/** The transport of the terminal music player: track loading, play and
    pause, next and previous, shuffle and repeat, seeking and volume, and
    the events the media element raises. The media element is a record,
    its `play()` promise and its `canplay` callbacks are explicit events. */
module MusicPlayer {
  import opened Wrappers
  import opened Text
  import opened TimeFormat

  /** Number of tracks in the fixed catalog. */
  const TrackCount: nat := 9

  datatype RepeatMode = RepeatNone | RepeatAll | RepeatOne

  /** The order in which the repeat button cycles through the modes. */
  const Modes: seq<RepeatMode> := [RepeatNone, RepeatAll, RepeatOne]

  function ModeIndex(m: RepeatMode): (i: nat)
    ensures i < |Modes| && Modes[i] == m
  {
    match m
    case RepeatNone => 0
    case RepeatAll => 1
    case RepeatOne => 2
  }

  /** `modes[(modes.indexOf(mode) + 1) % modes.length]` */
  function NextRepeat(m: RepeatMode): (r: RepeatMode)
    ensures r != m
  {
    Modes[(ModeIndex(m) + 1) % |Modes|]
  }

  /** Three presses of the repeat button visit every mode and come back. */
  lemma RepeatCycle(m: RepeatMode)
    ensures NextRepeat(NextRepeat(NextRepeat(m))) == m
    ensures {m, NextRepeat(m), NextRepeat(NextRepeat(m))} == {RepeatNone, RepeatAll, RepeatOne}
  {
  }

  // ---------------------------------------------------------------------
  // Track order without shuffle

  /** Index after `index` with shuffle off; `None` is the end of the playlist. */
  function SequentialNext(index: nat, mode: RepeatMode): (r: Option<nat>)
    requires index < TrackCount
    ensures r.Some? ==> r.value < TrackCount
    ensures r.None? <==> index == TrackCount - 1 && mode != RepeatAll
  {
    var next := index + 1;
    if next >= TrackCount then
      if mode == RepeatAll then Some(0) else None
    else Some(next)
  }

  /** Index the previous button loads when it does change track. */
  function PreviousIndex(index: nat, mode: RepeatMode): (r: nat)
    requires index < TrackCount
    ensures r < TrackCount
  {
    var prev := index - 1;
    if prev < 0 then
      if mode == RepeatAll then TrackCount - 1 else 0
    else prev
  }

  /** Previous undoes next, and next undoes previous except at the first
      track without repeat-all, where previous stays on track 0. */
  lemma PreviousUndoesNext(index: nat, mode: RepeatMode)
    requires index < TrackCount
    ensures SequentialNext(index, mode).Some? ==>
              PreviousIndex(SequentialNext(index, mode).value, mode) == index
    ensures index > 0 || mode == RepeatAll ==>
              SequentialNext(PreviousIndex(index, mode), mode) == Some(index)
    ensures index == 0 && mode != RepeatAll ==> PreviousIndex(index, mode) == 0
  {
  }

  /** `k` presses of next, starting from `index`, with shuffle off. */
  function Walk(index: nat, mode: RepeatMode, k: nat): (r: Option<nat>)
    requires index < TrackCount
    ensures r.Some? ==> r.value < TrackCount
  {
    if k == 0 then Some(index)
    else match Walk(index, mode, k - 1)
      case None => None
      case Some(i) => SequentialNext(i, mode)
  }

  /** Without repeat-all the tracks are played in catalog order, once each,
      and the next press after the last track ends the playlist. */
  lemma {:induction false} WalkInOrder(mode: RepeatMode, k: nat)
    requires mode != RepeatAll
    ensures k < TrackCount ==> Walk(0, mode, k) == Some(k)
    ensures k >= TrackCount ==> Walk(0, mode, k) == None
  {
    if k > 0 {
      WalkInOrder(mode, k - 1);
    }
  }

  /** With repeat-all, next walks round the catalog with period `TrackCount`. */
  lemma {:induction false} WalkRepeatAll(index: nat, k: nat)
    requires index < TrackCount
    ensures Walk(index, RepeatAll, k) == Some((index + k) % TrackCount)
  {
    if k > 0 {
      WalkRepeatAll(index, k - 1);
      ModSucc(index + k - 1);
    }
  }

  /** Counting on by one modulo the catalog size. */
  lemma ModSucc(a: nat)
    ensures (a + 1) % TrackCount == if a % TrackCount == TrackCount - 1 then 0 else a % TrackCount + 1
  {
    var q := a / 9;
    assert a == 9 * q + a % 9;
  }

  // ---------------------------------------------------------------------
  // Shuffle queue

  /** The indices below `n` other than `current`, in increasing order. */
  function Filtered(n: nat, current: nat): seq<nat>
  {
    if n == 0 then []
    else Filtered(n - 1, current) + (if n - 1 == current then [] else [n - 1])
  }

  /** `[...Array(TrackCount).keys()].filter(i => i !== current)` */
  function Candidates(current: nat): seq<nat>
  {
    Filtered(TrackCount, current)
  }

  lemma {:induction false} FilteredCount(n: nat, current: nat, x: nat)
    ensures multiset(Filtered(n, current))[x] == if x < n && x != current then 1 else 0
  {
    if n > 0 {
      FilteredCount(n - 1, current, x);
      var prev := Filtered(n - 1, current);
      if n - 1 == current {
        assert Filtered(n, current) == prev;
      } else {
        assert Filtered(n, current) == prev + [n - 1];
        assert multiset(prev + [n - 1]) == multiset(prev) + multiset{n - 1};
      }
    }
  }

  lemma {:induction false} FilteredLength(n: nat, current: nat)
    ensures |Filtered(n, current)| == if current < n then n - 1 else n
  {
    if n > 0 {
      FilteredLength(n - 1, current);
    }
  }

  /** Only catalog indices, none of them twice. */
  ghost predicate QueueOk(q: seq<nat>)
  {
    && (forall k :: 0 <= k < |q| ==> q[k] < TrackCount)
    && (forall i, j :: 0 <= i < j < |q| ==> q[i] != q[j])
  }

  /** A value listed at two positions is counted at least twice. */
  lemma RepeatCounted(q: seq<nat>, i: nat, j: nat)
    requires i < j < |q| && q[i] == q[j]
    ensures multiset(q)[q[i]] >= 2
  {
    assert q == q[..j] + q[j..];
    assert multiset(q) == multiset(q[..j]) + multiset(q[j..]);
    assert q[i] == q[..j][i];
    assert q[j] == q[j..][0];
  }

  /** A queue built from the candidates, in whatever order, holds every
      track but the current one exactly once. */
  lemma ShuffleQueueShape(q: seq<nat>, current: nat)
    requires current < TrackCount
    requires multiset(q) == multiset(Candidates(current))
    ensures |q| == TrackCount - 1
    ensures forall x: nat :: multiset(q)[x] == if x < TrackCount && x != current then 1 else 0
    ensures QueueOk(q)
  {
    forall x: nat {
      FilteredCount(TrackCount, current, x);
    }
    FilteredLength(TrackCount, current);
    assert |q| == |multiset(q)|;
    forall k | 0 <= k < |q| ensures q[k] < TrackCount {
      assert q[k] in multiset(q);
    }
    forall i, j | 0 <= i < j < |q| ensures q[i] != q[j] {
      if q[i] == q[j] {
        RepeatCounted(q, i, j);
      }
    }
  }

  /** Dropping the last element keeps a queue well formed, and the element
      dropped is no longer in it. */
  lemma PopKeepsQueueOk(q: seq<nat>)
    requires QueueOk(q) && |q| > 0
    ensures QueueOk(q[..|q| - 1])
    ensures q[|q| - 1] !in q[..|q| - 1]
  {
    var init := q[..|q| - 1];
    forall k | 0 <= k < |init| ensures init[k] != q[|q| - 1] {
      assert init[k] == q[k];
    }
  }

  // ---------------------------------------------------------------------
  // Position and volume arithmetic

  function Clamp01(x: real): (r: real)
    ensures 0.0 <= r <= 1.0
    ensures 0.0 <= x <= 1.0 ==> r == x
    ensures x < 0.0 ==> r == 0.0
    ensures x > 1.0 ==> r == 1.0
  {
    if x < 0.0 then 0.0 else if x > 1.0 then 1.0 else x
  }

  /** Two volume steps in the same direction equal one step by their sum. */
  lemma AdjustSameDirection(v: real, d1: real, d2: real)
    requires 0.0 <= v <= 1.0
    requires (d1 >= 0.0 && d2 >= 0.0) || (d1 <= 0.0 && d2 <= 0.0)
    ensures Clamp01(Clamp01(v + d1) + d2) == Clamp01(v + d1 + d2)
  {
  }

  /** Steps in opposite directions do not compose: the first step is clamped
      on its own. */
  lemma AdjustOppositeDirections()
    ensures Clamp01(Clamp01(0.9 + 0.2) + -0.2) != Clamp01(0.9 + 0.2 + -0.2)
  {
  }

  /** Position the progress bar sends the element to: `ratio` is where the
      click fell along the bar, clamped to the bar. */
  function SeekTarget(ratio: real, duration: real): (t: real)
    requires duration > 0.0
    ensures 0.0 <= t <= duration
    ensures 0.0 <= ratio <= 1.0 ==> t == ratio * duration
  {
    Clamp01(ratio) * duration
  }

  /** How far along the bar is filled, in percent. */
  function ProgressPercent(t: real, duration: real): real
    requires duration > 0.0
  {
    t / duration * 100.0
  }

  /** After a seek the bar is filled exactly up to where it was clicked. */
  lemma SeekThenProgress(ratio: real, duration: real)
    requires duration > 0.0
    ensures ProgressPercent(SeekTarget(ratio, duration), duration) == Clamp01(ratio) * 100.0
  {
    var c := Clamp01(ratio);
    assert c * duration / duration == c;
  }

  /** Ten seconds on, but never past the end. */
  function SkipForwardTime(t: real, duration: real): (r: real)
    ensures r <= duration && r <= t + 10.0
    ensures r == t + 10.0 || r == duration
  {
    if t + 10.0 < duration then t + 10.0 else duration
  }

  /** Ten seconds back, but never before the start. */
  function SkipBackwardTime(t: real): (r: real)
    ensures 0.0 <= r && t - 10.0 <= r
    ensures r == t - 10.0 || r == 0.0
  {
    if t - 10.0 > 0.0 then t - 10.0 else 0.0
  }

  /** Away from both ends of the track, a skip back undoes a skip forward
      and the other way round. */
  lemma SkipsUndoEachOther(t: real, duration: real)
    ensures t >= 0.0 && t + 10.0 < duration ==> SkipBackwardTime(SkipForwardTime(t, duration)) == t
    ensures t > 10.0 && t <= duration ==> SkipForwardTime(SkipBackwardTime(t), duration) == t
  {
  }

  // ---------------------------------------------------------------------
  // The player

  /** What the status line says; the comment gives the text shown. */
  datatype Status =
    | SelectTrack       // READY. SELECT A TRACK.
    | AudioReady        // AUDIO ENGINE READY.
    | AudioInitFailed   // ERROR: AUDIO INIT FAILED
    | Loading(track: nat) // LOADING: <title of the track, upper-cased>
    | Playing           // PLAYING.
    | PlaybackFailed    // ERROR: PLAYBACK FAILED
    | Paused            // PAUSED.
    | EndOfPlaylist     // END OF PLAYLIST.
    | ShuffleOn         // SHUFFLE: ON
    | ShuffleOff        // SHUFFLE: OFF
    | RepeatOff         // REPEAT: OFF
    | RepeatAllOn       // REPEAT: ALL
    | RepeatOneOn       // REPEAT: ONE
    | Ready             // READY.
    | Buffering         // BUFFERING...
    | LoadFailed        // ERROR: FAILED TO LOAD

  function RepeatStatus(m: RepeatMode): Status
  {
    match m
    case RepeatNone => RepeatOff
    case RepeatAll => RepeatAllOn
    case RepeatOne => RepeatOneOn
  }

  /** Sound cues sent to the menu-sound collaborator. */
  datatype Cue = Move | Select | Back

  /** What the player sends outside itself, in order. */
  datatype Effect =
    | Show(status: Status)
    | Sound(cue: Cue)
    | VisualizerInit
    | VisualizerStart
    | VisualizerStop

  /** The media element: its source (a track index, `None` before the first
      load), position, duration (`None` while unknown), paused flag and volume. */
  datatype Media = Media(src: Option<nat>, currentTime: real, duration: Option<real>,
                         paused: bool, volume: real)

  /** What `audio.load()` leaves behind for track `index`. */
  function Loaded(index: nat, volume: real): Media
  {
    Media(Some(index), 0.0, None, true, volume)
  }

  /** Effects of the lazy audio-context set-up inside `togglePlay`. */
  function ContextEffects(hadContext: bool, ok: bool): seq<Effect>
  {
    if hadContext then [] else if ok then [VisualizerInit, Show(AudioReady)] else [Show(AudioInitFailed)]
  }

  const PauseEffects: seq<Effect> := [Show(Paused), VisualizerStop, Sound(Back)]

  /** What a key press on the listen screen asks the player to do. */
  datatype Action =
    | PlayPause | Previous | SkipBack | Next | SkipAhead
    | VolumeUp | VolumeDown | ShuffleToggle | RepeatToggle

  /** The keyboard map of the listen screen; Shift turns the left and right
      arrows from ten-second skips into track changes. */
  function KeyAction(key: string, shift: bool): (a: Option<Action>)
    ensures a.Some? <==> key in {" ", "ArrowLeft", "ArrowRight", "ArrowUp", "ArrowDown", "s", "r"}
    ensures a == Some(Previous) <==> key == "ArrowLeft" && shift
    ensures a == Some(Next) <==> key == "ArrowRight" && shift
  {
    if key == " " then Some(PlayPause)
    else if key == "ArrowLeft" then Some(if shift then Previous else SkipBack)
    else if key == "ArrowRight" then Some(if shift then Next else SkipAhead)
    else if key == "ArrowUp" then Some(VolumeUp)
    else if key == "ArrowDown" then Some(VolumeDown)
    else if key == "s" then Some(ShuffleToggle)
    else if key == "r" then Some(RepeatToggle)
    else None
  }

  class Player {
    var currentTrackIndex: nat
    var isPlaying: bool
    var isShuffle: bool
    var repeatMode: RepeatMode
    var volume: real
    var shuffleQueue: seq<nat>
    /** Gain of the audio context's gain node; `None` while no audio context exists. */
    var gain: Option<real>
    /** The one-shot media-element source connection. */
    var isAudioConnected: bool
    var media: Media
    /** `audio.play()` promises started by `startPlayback` and not yet settled. */
    var pendingPlays: nat
    /** `playOnce` listeners waiting for the next `canplay`. */
    var playOnce: nat
    /** Track-list clicks whose 100 ms start timer has not fired yet. */
    var clickTimers: nat
    var status: Status
    var effects: seq<Effect>
    /** The seconds the elapsed-time and duration labels were last
        formatted from (see `ElapsedText` and `DurationText`), and the
        bar's fill in percent. */
    var elapsedShown: real
    var durationShown: real
    var progress: real
    /** How many times the media element has been wired into the audio graph. */
    ghost var connections: nat

    ghost predicate Valid()
      reads this`currentTrackIndex, this`shuffleQueue, this`media, this`isPlaying,
            this`pendingPlays, this`playOnce, this`clickTimers, this`volume, this`gain,
            this`elapsedShown, this`durationShown, this`isAudioConnected, this`connections
    {
      && currentTrackIndex < TrackCount
      && QueueOk(shuffleQueue)
      && (media.src.Some? ==> media.src.value == currentTrackIndex)
      && (media.src.None? ==> !isPlaying && pendingPlays == 0 && playOnce == 0 && clickTimers == 0)
      && 0.0 <= volume <= 1.0
      && (gain.Some? ==> gain.value == volume)
      && 0.0 <= media.volume <= 1.0
      && 0.0 <= media.currentTime
      && 0.0 <= elapsedShown && 0.0 <= durationShown
      && (media.duration.Some? ==> media.duration.value > 0.0)
      && (isAudioConnected ==> gain.Some?)
      && connections == if isAudioConnected then 1 else 0
    }

    /** The text of the elapsed-time label: the whole seconds it was last
        given, read back from the label, are those seconds. */
    function ElapsedText(): (r: string)
      requires Valid()
      reads this
      ensures ParseClock(r) == Some(elapsedShown.Floor)
    {
      FormatTimeRoundTrip(elapsedShown);
      FormatTime(Some(elapsedShown))
    }

    /** The text of the duration label, read back the same way. */
    function DurationText(): (r: string)
      requires Valid()
      reads this
      ensures ParseClock(r) == Some(durationShown.Floor)
    {
      FormatTimeRoundTrip(durationShown);
      FormatTime(Some(durationShown))
    }

    /** The state at page load, after `init` has set the first status. The
        labels start at "00:00". */
    constructor ()
      ensures Valid()
      ensures currentTrackIndex == 0 && !isPlaying && !isShuffle && repeatMode == RepeatNone
      ensures volume == 0.8 && shuffleQueue == [] && gain == None && !isAudioConnected
      ensures media == Media(None, 0.0, None, true, 1.0)
      ensures pendingPlays == 0 && playOnce == 0 && clickTimers == 0
      ensures status == SelectTrack && effects == [Show(SelectTrack)]
      ensures elapsedShown == 0.0 && durationShown == 0.0 && progress == 0.0
      ensures ElapsedText() == "00:00" && DurationText() == "00:00"
    {
      currentTrackIndex := 0;
      isPlaying := false;
      isShuffle := false;
      repeatMode := RepeatNone;
      volume := 0.8;
      shuffleQueue := [];
      gain := None;
      isAudioConnected := false;
      media := Media(None, 0.0, None, true, 1.0);
      pendingPlays := 0;
      playOnce := 0;
      clickTimers := 0;
      status := SelectTrack;
      effects := [Show(SelectTrack)];
      elapsedShown := 0.0;
      durationShown := 0.0;
      progress := 0.0;
      connections := 0;
    }

    /** `setStatus` */
    method SetStatus(s: Status)
      requires Valid()
      modifies this`status, this`effects
      ensures Valid()
      ensures status == s && effects == old(effects) + [Show(s)]
    {
      status := s;
      effects := effects + [Show(s)];
    }

    method Emit(e: Effect)
      requires Valid()
      modifies this`effects
      ensures Valid()
      ensures effects == old(effects) + [e]
    {
      effects := effects + [e];
    }

    /** `initAudioContext`: creates the context, its analyser and its gain
        node once; `ok` is whether the platform lets the context be created. */
    method InitAudioContext(ok: bool)
      requires Valid()
      modifies this`gain, this`status, this`effects
      ensures Valid()
      ensures old(gain).Some? ==> gain == old(gain) && status == old(status)
      ensures old(gain).None? ==>
        && gain == (if ok then Some(volume) else None)
        && status == (if ok then AudioReady else AudioInitFailed)
      ensures effects == old(effects) + ContextEffects(old(gain).Some?, ok)
    {
      if gain.Some? {
        return;
      }
      if ok {
        gain := Some(volume);
        Emit(VisualizerInit);
        SetStatus(AudioReady);
      } else {
        SetStatus(AudioInitFailed);
      }
    }

    /** `connectAudioNodes`: wires the element into the graph at most once. */
    method ConnectAudioNodes()
      requires Valid()
      modifies this`isAudioConnected, this`connections
      ensures Valid()
      ensures isAudioConnected == (old(isAudioConnected) || gain.Some?)
      ensures old(isAudioConnected) ==> connections == old(connections)
      ensures connections <= 1
    {
      if isAudioConnected || gain.None? {
        return;
      }
      isAudioConnected := true;
      connections := connections + 1;
    }

    /** `loadTrack(index)`: ignored outside the catalog. */
    method LoadTrack(index: int)
      requires Valid()
      modifies this`currentTrackIndex, this`media, this`status, this`effects
      ensures Valid()
      ensures !(0 <= index < TrackCount) ==> unchanged(this)
      ensures 0 <= index < TrackCount ==>
        && currentTrackIndex == index
        && media == Loaded(index, old(media.volume))
        && status == Loading(index)
        && effects == old(effects) + [Show(Loading(index))] + [Sound(Move)]
    {
      if index < 0 || index >= TrackCount {
        return;
      }
      currentTrackIndex := index;
      media := Loaded(index, media.volume);
      SetStatus(Loading(index));
      Emit(Sound(Move));
    }

    /** `startPlayback`: asks the element to play; `isPlaying` waits for the promise. */
    method StartPlayback()
      requires Valid() && media.src.Some?
      modifies this`media, this`pendingPlays, this`effects
      ensures Valid()
      ensures media == old(media).(paused := false)
      ensures pendingPlays == old(pendingPlays) + 1
      ensures effects == old(effects) + [Sound(Select)]
    {
      media := media.(paused := false);
      pendingPlays := pendingPlays + 1;
      Emit(Sound(Select));
    }

    /** A `play()` promise resolves: now the player is playing. */
    method PlayResolved()
      requires Valid()
      modifies this`isPlaying, this`pendingPlays, this`status, this`effects
      ensures Valid()
      ensures old(pendingPlays) == 0 ==> unchanged(this)
      ensures old(pendingPlays) > 0 ==>
        && isPlaying && status == Playing
        && pendingPlays == old(pendingPlays) - 1
        && effects == old(effects) + [Show(Playing)] + [VisualizerStart]
    {
      if pendingPlays == 0 {
        return;
      }
      pendingPlays := pendingPlays - 1;
      isPlaying := true;
      SetStatus(Playing);
      Emit(VisualizerStart);
    }

    /** A `play()` promise is rejected: only the status line changes. */
    method PlayRejected()
      requires Valid()
      modifies this`pendingPlays, this`status, this`effects
      ensures Valid()
      ensures old(pendingPlays) == 0 ==> unchanged(this)
      ensures old(pendingPlays) > 0 ==>
        && status == PlaybackFailed
        && pendingPlays == old(pendingPlays) - 1
        && effects == old(effects) + [Show(PlaybackFailed)]
    {
      if pendingPlays == 0 {
        return;
      }
      pendingPlays := pendingPlays - 1;
      SetStatus(PlaybackFailed);
    }

    /** `pausePlayback` */
    method PausePlayback()
      requires Valid()
      modifies this`media, this`isPlaying, this`status, this`effects
      ensures Valid()
      ensures media == old(media).(paused := true)
      ensures !isPlaying && status == Paused
      ensures effects == old(effects) + PauseEffects
    {
      media := media.(paused := true);
      isPlaying := false;
      SetStatus(Paused);
      Emit(VisualizerStop);
      Emit(Sound(Back));
    }

    /** The first steps of `togglePlay`: the audio context on first use,
        then the one-shot connection of the element into the graph. */
    method PrepareAudio(contextOk: bool)
      requires Valid()
      modifies this`gain, this`isAudioConnected, this`connections, this`status, this`effects
      ensures Valid()
      ensures gain.Some? == (old(gain).Some? || contextOk)
      ensures isAudioConnected == gain.Some? && connections <= 1
      ensures old(gain).None? ==> status == (if contextOk then AudioReady else AudioInitFailed)
      ensures old(gain).Some? ==> status == old(status)
      ensures effects == old(effects) + ContextEffects(old(gain).Some?, contextOk)
    {
      // `initAudioContext` returns at once when the context exists, so the
      // guard in front of the call is folded into it.
      InitAudioContext(contextOk);
      if !isAudioConnected {
        ConnectAudioNodes();
      }
    }

    /** `togglePlay`: sets up the audio graph once, loads track 0 and waits
        for `canplay` when nothing is loaded, otherwise flips play/pause. */
    method TogglePlay(contextOk: bool)
      requires Valid()
      modifies this`gain, this`isAudioConnected, this`connections, this`currentTrackIndex,
               this`media, this`playOnce, this`isPlaying, this`pendingPlays, this`status, this`effects
      ensures Valid()
      ensures gain.Some? == (old(gain).Some? || contextOk)
      ensures isAudioConnected == gain.Some? && connections <= 1
      ensures old(media.src).None? ==>
        && currentTrackIndex == 0 && media == Loaded(0, old(media.volume))
        && playOnce == old(playOnce) + 1 && !isPlaying && pendingPlays == old(pendingPlays)
      ensures old(media.src).Some? ==>
        && currentTrackIndex == old(currentTrackIndex) && playOnce == old(playOnce)
        && media == old(media).(paused := old(isPlaying))
        && !isPlaying
        && pendingPlays == old(pendingPlays) + (if old(isPlaying) then 0 else 1)
      ensures old(media.src).None? ==>
        && status == Loading(0)
        && effects == old(effects) + ContextEffects(old(gain).Some?, contextOk) +
                      [Show(Loading(0))] + [Sound(Move)]
      ensures old(media.src).Some? && old(isPlaying) ==>
        && status == Paused
        && effects == old(effects) + ContextEffects(old(gain).Some?, contextOk) + PauseEffects
      ensures old(media.src).Some? && !old(isPlaying) ==>
        && status == (if old(gain).Some? then old(status)
                      else if contextOk then AudioReady else AudioInitFailed)
        && effects == old(effects) + ContextEffects(old(gain).Some?, contextOk) + [Sound(Select)]
    {
      PrepareAudio(contextOk);
      if media.src.None? {
        LoadTrack(0);
        playOnce := playOnce + 1;
        return;
      }
      if isPlaying {
        PausePlayback();
      } else {
        StartPlayback();
      }
    }

    /** `generateShuffleQueue`: every index but the current one, in a random
        order (the random comparator is a free choice of permutation). */
    method GenerateShuffleQueue()
      requires Valid()
      modifies this`shuffleQueue
      ensures Valid()
      ensures multiset(shuffleQueue) == multiset(Candidates(currentTrackIndex))
      ensures |shuffleQueue| == TrackCount - 1
      ensures currentTrackIndex !in shuffleQueue
    {
      var keep: seq<nat> := [];
      var i := 0;
      while i < TrackCount
        invariant 0 <= i <= TrackCount
        invariant keep == Filtered(i, currentTrackIndex)
      {
        if i != currentTrackIndex {
          keep := keep + [i];
        }
        i := i + 1;
      }
      var q: seq<nat> :| multiset(q) == multiset(keep);
      ShuffleQueueShape(q, currentTrackIndex);
      assert multiset(q)[currentTrackIndex] == 0;
      shuffleQueue := q;
    }

    /** `getNextShuffleIndex`: pops the back of the queue, regenerating an
        empty queue under repeat-all; an empty queue otherwise yields the
        current track again. */
    method GetNextShuffleIndex() returns (i: nat)
      requires Valid()
      modifies this`shuffleQueue
      ensures Valid()
      ensures i < TrackCount
      ensures |old(shuffleQueue)| > 0 ==>
        && i == old(shuffleQueue)[|old(shuffleQueue)| - 1]
        && shuffleQueue == old(shuffleQueue)[..|old(shuffleQueue)| - 1]
      ensures |old(shuffleQueue)| == 0 && repeatMode != RepeatAll ==>
        i == currentTrackIndex && shuffleQueue == []
      ensures |old(shuffleQueue)| == 0 && repeatMode == RepeatAll ==>
        && i != currentTrackIndex
        && multiset(shuffleQueue + [i]) == multiset(Candidates(currentTrackIndex))
      ensures i in old(shuffleQueue) ==> i !in shuffleQueue
    {
      if |shuffleQueue| == 0 {
        if repeatMode == RepeatAll {
          GenerateShuffleQueue();
        } else {
          return currentTrackIndex;
        }
      }
      var q := shuffleQueue;
      i := q[|q| - 1];
      PopKeepsQueueOk(q);
      assert q == q[..|q| - 1] + [i];
      shuffleQueue := q[..|q| - 1];
    }

    /** Adds a `playOnce` listener when the player was playing (autoplay). */
    method ArmAutoplay()
      requires Valid() && media.src.Some?
      modifies this`playOnce
      ensures Valid()
      ensures playOnce == old(playOnce) + (if isPlaying then 1 else 0)
    {
      if isPlaying {
        playOnce := playOnce + 1;
      }
    }

    /** Track `n` was loaded and autoplay armed if the player was playing. */
    twostate predicate Moved(n: nat)
      reads this
    {
      && n < TrackCount
      && currentTrackIndex == n && isPlaying == old(isPlaying)
      && media == Loaded(n, old(media.volume))
      && status == Loading(n)
      && effects == old(effects) + [Show(Loading(n))] + [Sound(Move)]
      && playOnce == old(playOnce) + (if old(isPlaying) then 1 else 0)
    }

    /** What `playNext` does, as a relation between the states before and after. */
    twostate predicate PlayedNext()
      reads this
    {
      && old(currentTrackIndex) < TrackCount
      && if !old(isShuffle) then
           match SequentialNext(old(currentTrackIndex), old(repeatMode))
           case None =>
             // END OF PLAYLIST. is shown and at once replaced by PAUSED.
             && currentTrackIndex == old(currentTrackIndex)
             && !isPlaying && media == old(media).(paused := true) && status == Paused
             && effects == old(effects) + [Show(EndOfPlaylist)] + PauseEffects
             && playOnce == old(playOnce) && shuffleQueue == old(shuffleQueue)
           case Some(n) => Moved(n) && shuffleQueue == old(shuffleQueue)
         else if |old(shuffleQueue)| > 0 then
           && Moved(old(shuffleQueue)[|old(shuffleQueue)| - 1])
           && shuffleQueue == old(shuffleQueue)[..|old(shuffleQueue)| - 1]
         else if old(repeatMode) == RepeatAll then
           && Moved(currentTrackIndex) && currentTrackIndex != old(currentTrackIndex)
           && multiset(shuffleQueue + [currentTrackIndex]) == multiset(Candidates(old(currentTrackIndex)))
         else
           // an exhausted queue without repeat-all reloads the same track
           && Moved(old(currentTrackIndex)) && shuffleQueue == []
    }

    /** `playNext` */
    method PlayNext()
      requires Valid()
      modifies this`currentTrackIndex, this`media, this`status, this`effects,
               this`playOnce, this`shuffleQueue, this`isPlaying
      ensures Valid() && PlayedNext()
    {
      var nextIndex: int;
      if isShuffle {
        nextIndex := GetNextShuffleIndex();
      } else {
        nextIndex := currentTrackIndex + 1;
        if nextIndex >= TrackCount {
          if repeatMode == RepeatAll {
            nextIndex := 0;
          } else {
            SetStatus(EndOfPlaylist);
            PausePlayback();
            return;
          }
        }
      }
      LoadTrack(nextIndex);
      ArmAutoplay();
    }

    /** `playPrevious`: past three seconds it restarts the track instead. */
    method PlayPrevious()
      requires Valid()
      modifies this`media, this`currentTrackIndex, this`status, this`effects, this`playOnce
      ensures Valid()
      ensures old(media.currentTime) > 3.0 ==>
        && media == old(media).(currentTime := 0.0)
        && unchanged(this`currentTrackIndex, this`status, this`effects, this`playOnce)
      ensures old(media.currentTime) <= 3.0 ==>
        Moved(PreviousIndex(old(currentTrackIndex), old(repeatMode)))
    {
      if media.currentTime > 3.0 {
        media := media.(currentTime := 0.0);
        return;
      }
      var prevIndex := PreviousIndex(currentTrackIndex, repeatMode);
      LoadTrack(prevIndex);
      ArmAutoplay();
    }

    /** `toggleShuffle`: turning shuffle on rebuilds the queue. */
    method ToggleShuffle()
      requires Valid()
      modifies this`isShuffle, this`shuffleQueue, this`status, this`effects
      ensures Valid()
      ensures isShuffle == !old(isShuffle)
      ensures isShuffle ==> multiset(shuffleQueue) == multiset(Candidates(currentTrackIndex))
      ensures !isShuffle ==> shuffleQueue == old(shuffleQueue)
      ensures status == (if isShuffle then ShuffleOn else ShuffleOff)
      ensures effects == old(effects) + [Show(status)] + [Sound(Select)]
    {
      isShuffle := !isShuffle;
      if isShuffle {
        GenerateShuffleQueue();
        SetStatus(ShuffleOn);
      } else {
        SetStatus(ShuffleOff);
      }
      Emit(Sound(Select));
    }

    /** `toggleRepeat` */
    method ToggleRepeat()
      requires Valid()
      modifies this`repeatMode, this`status, this`effects
      ensures Valid()
      ensures repeatMode == NextRepeat(old(repeatMode))
      ensures status == RepeatStatus(repeatMode)
      ensures effects == old(effects) + [Show(status)] + [Sound(Select)]
    {
      repeatMode := NextRepeat(repeatMode);
      SetStatus(RepeatStatus(repeatMode));
      Emit(Sound(Select));
    }

    /** A click on row `index` of the track list: the track is loaded and a
        100 ms timer is set to start it. */
    method TrackClicked(index: nat)
      requires Valid() && index < TrackCount
      modifies this`currentTrackIndex, this`media, this`status, this`effects, this`clickTimers
      ensures Valid()
      ensures currentTrackIndex == index && media == Loaded(index, old(media.volume))
      ensures status == Loading(index) && effects == old(effects) + [Show(Loading(index))] + [Sound(Move)]
      ensures clickTimers == old(clickTimers) + 1
    {
      LoadTrack(index);
      clickTimers := clickTimers + 1;
    }

    /** The track-list timer fires: a stopped player is started through
        `togglePlay`, a playing one waits for `canplay`. */
    method ClickTimerFires(contextOk: bool)
      requires Valid()
      modifies this`gain, this`isAudioConnected, this`connections, this`currentTrackIndex,
               this`media, this`playOnce, this`isPlaying, this`pendingPlays, this`status,
               this`effects, this`clickTimers
      ensures Valid()
      ensures old(clickTimers) == 0 ==> unchanged(this)
      ensures old(clickTimers) > 0 ==> clickTimers == old(clickTimers) - 1
      ensures old(clickTimers) > 0 && old(isPlaying) ==>
        && playOnce == old(playOnce) + 1
        && unchanged(this`gain, this`isAudioConnected, this`media, this`pendingPlays,
                     this`status, this`effects)
      ensures old(clickTimers) > 0 && !old(isPlaying) ==>
        && gain.Some? == (old(gain).Some? || contextOk)
        && currentTrackIndex == old(currentTrackIndex) && playOnce == old(playOnce)
        && media == old(media).(paused := false)
        && pendingPlays == old(pendingPlays) + 1
        && effects == old(effects) + ContextEffects(old(gain).Some?, contextOk) + [Sound(Select)]
    {
      if clickTimers == 0 {
        return;
      }
      clickTimers := clickTimers - 1;
      if !isPlaying {
        TogglePlay(contextOk);
      } else {
        playOnce := playOnce + 1;
      }
    }

    /** The element can play: the permanent listener refreshes the status,
        then every waiting `playOnce` listener removes itself and starts
        playback. */
    method OnCanPlay()
      requires Valid()
      modifies this`status, this`effects, this`playOnce, this`pendingPlays, this`media
      ensures Valid()
      ensures playOnce == 0 && pendingPlays == old(pendingPlays) + old(playOnce)
      ensures media == if old(playOnce) > 0 then old(media).(paused := false) else old(media)
      ensures status == if isPlaying then Playing else old(status)
      ensures effects == old(effects) + (if isPlaying then [Show(Playing)] else []) +
                         seq(old(playOnce), _ => Sound(Select))
    {
      if isPlaying {
        SetStatus(Playing);
      }
      var n := playOnce;
      playOnce := 0;
      ghost var before := effects;
      ghost var media0 := media;
      ghost var status0 := status;
      var k := 0;
      while k < n
        invariant 0 <= k <= n && Valid() && playOnce == 0
        invariant n > 0 ==> media.src.Some?
        invariant pendingPlays == old(pendingPlays) + k
        invariant media == if k > 0 then media0.(paused := false) else media0
        invariant effects == before + seq(k, _ => Sound(Select))
        invariant status == status0
      {
        StartPlayback();
        k := k + 1;
      }
    }

    /** `onTrackEnded`: repeat-one rewinds and replays the same track (its
        promise is not watched); every other mode is `playNext`. */
    method OnTrackEnded()
      requires Valid()
      modifies this`currentTrackIndex, this`media, this`status, this`effects,
               this`playOnce, this`shuffleQueue, this`isPlaying
      ensures Valid()
      ensures old(repeatMode) == RepeatOne ==>
        && media == old(media).(currentTime := 0.0, paused := false)
        && unchanged(this`currentTrackIndex, this`status, this`effects,
                     this`playOnce, this`shuffleQueue, this`isPlaying)
      ensures old(repeatMode) != RepeatOne ==> PlayedNext()
    {
      if repeatMode == RepeatOne {
        media := media.(currentTime := 0.0, paused := false);
      } else {
        PlayNext();
      }
    }

    /** `loadedmetadata` (`onTrackLoaded`): the duration becomes known and is
        shown; a zero duration counts as unknown, as `!audio.duration` does. */
    method OnTrackLoaded(duration: real)
      requires Valid() && duration >= 0.0
      modifies this`media, this`durationShown, this`status, this`effects
      ensures Valid()
      ensures media == old(media).(duration := if duration > 0.0 then Some(duration) else None)
      ensures !isPlaying ==> status == Ready && effects == old(effects) + [Show(Ready)]
      ensures isPlaying ==> status == old(status) && effects == old(effects)
      ensures durationShown == duration
    {
      media := media.(duration := if duration > 0.0 then Some(duration) else None);
      if !isPlaying {
        SetStatus(Ready);
      }
      durationShown := duration;
    }

    /** `waiting` */
    method OnWaiting()
      requires Valid()
      modifies this`status, this`effects
      ensures Valid()
      ensures status == Buffering && effects == old(effects) + [Show(Buffering)]
    {
      SetStatus(Buffering);
    }

    /** `error`: only the status line reports it; `isPlaying` is left as it was. */
    method OnAudioError()
      requires Valid()
      modifies this`status, this`effects
      ensures Valid()
      ensures status == LoadFailed && effects == old(effects) + [Show(LoadFailed)]
    {
      SetStatus(LoadFailed);
    }

    /** `timeupdate` at position `t` (`updateProgress`): the bar and the
        elapsed label follow the position once the duration is known. */
    method OnTimeUpdate(t: real)
      requires Valid() && t >= 0.0
      modifies this`media, this`progress, this`elapsedShown
      ensures Valid()
      ensures media == old(media).(currentTime := t)
      ensures media.duration.None? ==> progress == old(progress) && elapsedShown == old(elapsedShown)
      ensures media.duration.Some? ==>
        && progress == ProgressPercent(t, media.duration.value)
        && elapsedShown == t
    {
      media := media.(currentTime := t);
      if media.duration.None? {
        return;
      }
      progress := ProgressPercent(t, media.duration.value);
      elapsedShown := t;
    }

    /** `seek`: ignored while the duration is unknown. */
    method Seek(ratio: real)
      requires Valid()
      modifies this`media
      ensures Valid()
      ensures old(media.duration).None? ==> media == old(media)
      ensures old(media.duration).Some? ==>
        && media == old(media).(currentTime := SeekTarget(ratio, old(media.duration).value))
        && 0.0 <= media.currentTime <= media.duration.value
    {
      if media.duration.None? {
        return;
      }
      media := media.(currentTime := SeekTarget(ratio, media.duration.value));
    }

    /** `skipForward`: ignored while the duration is unknown. */
    method SkipForward()
      requires Valid()
      modifies this`media
      ensures Valid()
      ensures old(media.duration).None? ==> media == old(media)
      ensures old(media.duration).Some? ==>
        media == old(media).(currentTime := SkipForwardTime(old(media.currentTime), old(media.duration).value))
    {
      if media.duration.None? {
        return;
      }
      media := media.(currentTime := SkipForwardTime(media.currentTime, media.duration.value));
    }

    /** `skipBackward` */
    method SkipBackward()
      requires Valid()
      modifies this`media
      ensures Valid()
      ensures media == old(media).(currentTime := SkipBackwardTime(old(media.currentTime)))
    {
      media := media.(currentTime := SkipBackwardTime(media.currentTime));
    }

    /** `setVolume` from the slider, whose value runs from 0 to 100: the
        gain node (when there is one) and the element follow. */
    method SetVolume(sliderValue: int)
      requires Valid() && 0 <= sliderValue <= 100
      modifies this`volume, this`gain, this`media
      ensures Valid()
      ensures volume == sliderValue as real / 100.0
      ensures gain.Some? == old(gain).Some?
      ensures media == old(media).(volume := volume)
    {
      volume := sliderValue as real / 100.0;
      if gain.Some? {
        gain := Some(volume);
      }
      media := media.(volume := volume);
    }

    /** `adjustVolume`: a step clamped to [0, 1], applied to the gain node
        (when there is one) and to the element. */
    method AdjustVolume(delta: real)
      requires Valid()
      modifies this`volume, this`gain, this`media
      ensures Valid()
      ensures volume == Clamp01(old(volume) + delta)
      ensures gain.Some? == old(gain).Some?
      ensures media == old(media).(volume := volume)
    {
      volume := Clamp01(volume + delta);
      if gain.Some? {
        gain := Some(volume);
      }
      media := media.(volume := volume);
    }

    /** `handleKeyboard`: keys act only while the listen screen is active
        and the focus is not in a text field. */
    method HandleKeyboard(screenActive: bool, inTextField: bool, key: string, shift: bool,
                          contextOk: bool) returns (action: Option<Action>)
      requires Valid()
      modifies this
      ensures Valid()
      ensures action == if screenActive && !inTextField then KeyAction(key, shift) else None
      ensures action.None? ==> unchanged(this)
      ensures action == Some(PlayPause) && old(media.src).Some? ==>
        !isPlaying && media.paused == old(isPlaying)
      ensures action == Some(Next) ==> PlayedNext()
      ensures action == Some(Previous) && old(media.currentTime) <= 3.0 ==>
        Moved(PreviousIndex(old(currentTrackIndex), old(repeatMode)))
      ensures action == Some(SkipBack) ==>
        media == old(media).(currentTime := SkipBackwardTime(old(media.currentTime)))
      ensures action == Some(SkipAhead) && old(media.duration).Some? ==>
        media == old(media).(currentTime := SkipForwardTime(old(media.currentTime), old(media.duration).value))
      ensures action == Some(VolumeUp) ==> volume == Clamp01(old(volume) + 0.1)
      ensures action == Some(VolumeDown) ==> volume == Clamp01(old(volume) - 0.1)
      ensures action == Some(ShuffleToggle) ==> isShuffle == !old(isShuffle)
      ensures action == Some(RepeatToggle) ==> repeatMode == NextRepeat(old(repeatMode))
    {
      if !screenActive || inTextField {
        return None;
      }
      action := KeyAction(key, shift);
      match action {
        case None =>
        case Some(PlayPause) => TogglePlay(contextOk);
        case Some(Previous) => PlayPrevious();
        case Some(SkipBack) => SkipBackward();
        case Some(Next) => PlayNext();
        case Some(SkipAhead) => SkipForward();
        case Some(VolumeUp) => AdjustVolume(0.1);
        case Some(VolumeDown) => AdjustVolume(-0.1);
        case Some(ShuffleToggle) => ToggleShuffle();
        case Some(RepeatToggle) => ToggleRepeat();
      }
    }
  }
}
