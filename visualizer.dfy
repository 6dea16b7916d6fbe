/** The frequency-bar visualizer: its run state (`isRunning`, the pending
    animation frame), the averaging of analyser bins into bars, the grid
    overlay and the colour settings. Pixels are not modelled; each drawn
    frame is logged with what it shows. */
module Visualizer {
  import opened Wrappers

  /** `settings.barCount` */
  const BarCount: nat := 32
  /** The grid splits the canvas into this many rows and columns. */
  const Rows: nat := 4
  const Columns: nat := 8

  /** One entry of the analyser's `Uint8Array`. */
  newtype byte = x: int | 0 <= x < 256

  // ---------------------------------------------------------------------
  // Bars

  /** Bins averaged into one bar: `Math.floor(bufferLength / barCount)`. */
  function Step(bins: nat): nat
  {
    bins / BarCount
  }

  /** Sum of the `n` bins starting at `lo`. */
  function BinSum(data: seq<byte>, lo: nat, n: nat): int
    requires lo + n <= |data|
  {
    if n == 0 then 0 else BinSum(data, lo, n - 1) + data[lo + n - 1] as int
  }

  /** A sum of `n` bytes lies between 0 and `255 * n`. */
  lemma {:induction false} BinSumBounds(data: seq<byte>, lo: nat, n: nat)
    requires lo + n <= |data|
    ensures 0 <= BinSum(data, lo, n) <= 255 * n
  {
    if n > 0 {
      BinSumBounds(data, lo, n - 1);
    }
  }

  /** Bar `i` reads bins `i * step` up to `(i + 1) * step`, all inside the
      buffer: no index the averaging loop reads is out of bounds. */
  lemma BarInBounds(bins: nat, i: nat)
    requires i < BarCount
    ensures i * Step(bins) + Step(bins) <= bins
  {
    var step := Step(bins);
    assert BarCount * step <= bins;
    assert (i + 1) * step <= BarCount * step by {
      MulMonotone(i + 1, BarCount, step);
    }
    assert (i + 1) * step == i * step + step;
  }

  lemma MulMonotone(a: nat, b: nat, c: nat)
    requires a <= b
    ensures a * c <= b * c
  {
    assert b * c == a * c + (b - a) * c;
  }

  /** The height a bar stands for: the mean of its `step` contiguous bins,
      or `None` (`NaN`, from `0 / 0`) when there are fewer bins than bars. */
  function BarAverage(data: seq<byte>, i: nat): (r: Option<real>)
    requires i < BarCount
    ensures r.None? <==> |data| < BarCount
    ensures r.Some? ==> 0.0 <= r.value <= 255.0
  {
    var step := Step(|data|);
    if step == 0 then None
    else
      BarInBounds(|data|, i);
      BinSumBounds(data, i * step, step);
      MeanBound(BinSum(data, i * step, step), step);
      Some(BinSum(data, i * step, step) as real / step as real)
  }

  /** The mean of `n` byte values is itself in the byte range. */
  lemma MeanBound(sum: int, n: nat)
    requires n > 0 && 0 <= sum <= 255 * n
    ensures 0.0 <= sum as real / n as real <= 255.0
  {
    var q := sum as real / n as real;
    assert q * n as real == sum as real;
    if q > 255.0 {
      assert q * n as real > 255.0 * n as real;
    }
  }

  /** The averaging loop of `drawBars` over the analyser's buffer. */
  method Averages(data: array<byte>) returns (avgs: seq<Option<real>>)
    ensures |avgs| == BarCount
    ensures forall i :: 0 <= i < BarCount ==> avgs[i] == BarAverage(data[..], i)
  {
    var step := data.Length / BarCount;
    avgs := [];
    var i := 0;
    while i < BarCount
      invariant 0 <= i <= BarCount && |avgs| == i
      invariant forall k :: 0 <= k < i ==> avgs[k] == BarAverage(data[..], k)
    {
      BarInBounds(data.Length, i);
      var sum := 0;
      var j := 0;
      while j < step
        invariant 0 <= j <= step
        invariant sum == BinSum(data[..], i * step, j)
      {
        sum := sum + data[i * step + j] as int;
        j := j + 1;
      }
      avgs := avgs + [if step == 0 then None else Some(sum as real / step as real)];
      i := i + 1;
    }
  }

  // ---------------------------------------------------------------------
  // Grid

  /** The interior grid lines: their `y` positions and their `x` positions. */
  datatype Grid = Grid(rows: seq<real>, columns: seq<real>)

  /** The `k`-th interior line (from 1) of `parts` equal parts of `extent`. */
  function LineAt(extent: nat, parts: nat, k: nat): real
    requires parts > 0
  {
    (extent as real / parts as real) * k as real
  }

  /** The interior lines of `parts` equal parts, in increasing order. */
  method Lines(extent: nat, parts: nat) returns (ls: seq<real>)
    requires parts > 0
    ensures |ls| == parts - 1
    ensures forall i :: 0 <= i < |ls| ==> ls[i] == LineAt(extent, parts, i + 1)
    ensures extent > 0 ==> forall i :: 0 <= i < |ls| ==> 0.0 < ls[i] < extent as real
    ensures forall i, j :: 0 <= i < j < |ls| && extent > 0 ==> ls[i] < ls[j]
  {
    ls := [];
    var k := 1;
    while k < parts
      invariant 1 <= k <= parts && |ls| == k - 1
      invariant forall i :: 0 <= i < |ls| ==> ls[i] == LineAt(extent, parts, i + 1)
    {
      ls := ls + [LineAt(extent, parts, k)];
      k := k + 1;
    }
    forall i | 0 <= i < |ls| && extent > 0
      ensures 0.0 < ls[i] < extent as real
    {
      LineInside(extent, parts, i + 1);
    }
    forall i, j | 0 <= i < j < |ls| && extent > 0
      ensures ls[i] < ls[j]
    {
      LineOrder(extent, parts, i + 1, j + 1);
    }
  }

  lemma LineInside(extent: nat, parts: nat, k: nat)
    requires 0 < k < parts && extent > 0
    ensures 0.0 < LineAt(extent, parts, k) < extent as real
  {
    var cell := extent as real / parts as real;
    assert cell * parts as real == extent as real;
    assert cell > 0.0;
    assert cell * k as real < cell * parts as real;
  }

  lemma LineOrder(extent: nat, parts: nat, k: nat, l: nat)
    requires parts > 0 && k < l && extent > 0
    ensures LineAt(extent, parts, k) < LineAt(extent, parts, l)
  {
    var cell := extent as real / parts as real;
    assert cell > 0.0;
    assert cell * l as real == cell * k as real + cell * (l - k) as real;
  }

  /** `g` is the grid `drawGrid` draws on a `width` by `height` canvas. */
  predicate GridFor(g: Grid, width: nat, height: nat)
  {
    && |g.rows| == 3 && |g.columns| == 7
    && (forall i :: 0 <= i < 3 ==> g.rows[i] == LineAt(height, Rows, i + 1))
    && (forall i :: 0 <= i < 7 ==> g.columns[i] == LineAt(width, Columns, i + 1))
  }

  /** `drawGrid`: three horizontal and seven vertical interior lines. */
  method DrawGrid(width: nat, height: nat) returns (g: Grid)
    ensures GridFor(g, width, height)
  {
    var rows := Lines(height, Rows);
    var columns := Lines(width, Columns);
    g := Grid(rows, columns);
  }

  // ---------------------------------------------------------------------
  // Colours

  predicate IsHex(c: char)
  {
    '0' <= c <= '9' || 'a' <= c <= 'f' || 'A' <= c <= 'F'
  }

  function HexValue(c: char): (d: nat)
    requires IsHex(c)
    ensures d < 16
  {
    if c <= '9' then c as int - '0' as int
    else if c <= 'F' then c as int - 'A' as int + 10
    else c as int - 'a' as int + 10
  }

  /** `s.slice(from, to)` for non-negative bounds: clipped to the string. */
  function Slice(s: string, from: nat, to: nat): (r: string)
    ensures |r| <= if to < from then 0 else to - from
  {
    var hi := if to < |s| then to else |s|;
    var lo := if from < hi then from else hi;
    s[lo..hi]
  }

  /** `parseInt(s, 16)` on a string of at most two characters: the leading
      hex digits, `None` (`NaN`) when there are none. */
  function ParseHex2(s: string): (r: Option<nat>)
    requires |s| <= 2
    ensures r.Some? <==> |s| > 0 && IsHex(s[0])
    ensures r.Some? ==> r.value < 256
  {
    if |s| == 0 || !IsHex(s[0]) then None
    else if |s| == 1 || !IsHex(s[1]) then Some(HexValue(s[0]))
    else Some(16 * HexValue(s[0]) + HexValue(s[1]))
  }

  /** The lower-case hex digit of `d`. */
  function HexDigit(d: nat): (c: char)
    requires d < 16
    ensures IsHex(c) && HexValue(c) == d
  {
    if d < 10 then ('0' as int + d) as char else ('a' as int + d - 10) as char
  }

  /** The two lower-case hex digits of a byte. */
  function HexPair(n: nat): (s: string)
    requires n < 256
    ensures |s| == 2 && IsHex(s[0]) && IsHex(s[1])
  {
    [HexDigit(n / 16), HexDigit(n % 16)]
  }

  /** Two hex digits read back as the byte they were written from. */
  lemma HexPairValue(n: nat)
    requires n < 256
    ensures ParseHex2(HexPair(n)) == Some(n)
  {
    var s := HexPair(n);
    assert HexValue(s[0]) == n / 16;
    assert HexValue(s[1]) == n % 16;
  }

  /** Channel `k` (0 red, 1 green, 2 blue) of a `#rrggbb` colour. */
  function Channel(color: string, k: nat): (c: Option<nat>)
    requires k < 3
    ensures c.Some? ==> c.value < 256
  {
    ParseHex2(Slice(color, 1 + 2 * k, 3 + 2 * k))
  }

  /** `Math.floor(c / 3)`, `NaN` staying `NaN`. */
  function Dim(c: Option<nat>): (d: Option<nat>)
    ensures d.Some? <==> c.Some?
    ensures c.Some? ==> 3 * d.value <= c.value < 3 * d.value + 3
  {
    if c.None? then None else Some(c.value / 3)
  }

  /** Channel `k` of a colour, dimmed: never above 85. */
  function DimChannel(color: string, k: nat): (d: Option<nat>)
    requires k < 3
    ensures d.Some? <==> Channel(color, k).Some?
    ensures d.Some? ==> d.value <= 85 && 3 * d.value <= Channel(color, k).value < 3 * d.value + 3
  {
    Dim(Channel(color, k))
  }

  /** A colour written as `#` and three hex pairs yields its channels back. */
  lemma ChannelsOfHex(r: nat, g: nat, b: nat)
    requires r < 256 && g < 256 && b < 256
    ensures var color := "#" + HexPair(r) + HexPair(g) + HexPair(b);
      Channel(color, 0) == Some(r) && Channel(color, 1) == Some(g) && Channel(color, 2) == Some(b)
  {
    var color := "#" + HexPair(r) + HexPair(g) + HexPair(b);
    assert Slice(color, 1, 3) == HexPair(r);
    assert Slice(color, 3, 5) == HexPair(g);
    assert Slice(color, 5, 7) == HexPair(b);
    HexPairValue(r);
    HexPairValue(g);
    HexPairValue(b);
  }

  /** A CSS colour as the settings hold it: a literal, `rgb(…)` or
      `rgba(…, 0.5)`; `None` channels print as `NaN`. */
  datatype Paint =
    | Css(text: string)
    | Rgb(r: Option<nat>, g: Option<nat>, b: Option<nat>)
    | HalfAlpha(r: Option<nat>, g: Option<nat>, b: Option<nat>)

  // ---------------------------------------------------------------------
  // Run state

  /** What one drawn frame shows: bars with their averages, or the idle
      bars (their random heights are not modelled); the grid on top. */
  datatype Frame = Bars(averages: seq<Option<real>>, grid: Grid) | Idle(grid: Grid)

  /** `after` is `before` with one frame of bars added: the averages of
      `reading` under the grid of a `width` by `height` canvas. */
  predicate AddsBars(before: seq<Frame>, after: seq<Frame>, reading: seq<byte>, width: nat, height: nat)
  {
    && |after| == |before| + 1 && after[..|before|] == before
    && after[|before|].Bars? && GridFor(after[|before|].grid, width, height)
    && |after[|before|].averages| == BarCount
    && forall i :: 0 <= i < BarCount ==> after[|before|].averages[i] == BarAverage(reading, i)
  }

  /** `after` is `before` with one idle frame added, under the grid of a
      `width` by `height` canvas. */
  predicate AddsIdle(before: seq<Frame>, after: seq<Frame>, width: nat, height: nat)
  {
    && |after| == |before| + 1 && after[..|before|] == before
    && after[|before|].Idle? && GridFor(after[|before|].grid, width, height)
  }

  /** The bounding box of the canvas's parent, `None` when it has none. */
  datatype Rect = Rect(width: real, height: real)

  class Visualizer {
    /** `canvas` and its 2D `ctx`, bound by `init`. */
    var hasCanvas: bool
    var hasAnalyser: bool
    var isRunning: bool
    /** The pending `requestAnimationFrame` id, `null` as `None`. */
    var animationId: Option<nat>
    /** The id the next `requestAnimationFrame` returns (ids are positive). */
    var nextFrameId: nat
    /** `canvas.width` and `canvas.height` (integers: the element truncates). */
    var width: nat
    var height: nat
    /** `setTimeout(drawIdle, 100)` calls from `stop` not yet fired. */
    var idleTimers: nat
    var frames: seq<Frame>
    var color: string
    var dimColor: Paint
    var glowColor: Paint

    ghost predicate Valid()
      reads this
    {
      && nextFrameId >= 1
      && (animationId.Some? ==> isRunning && 1 <= animationId.value < nextFrameId)
      && (!hasCanvas ==> frames == [])
    }

    /** The script's state before `init`. */
    constructor ()
      ensures Valid()
      ensures !hasCanvas && !hasAnalyser && !isRunning && animationId == None
      ensures width == 0 && height == 0 && idleTimers == 0 && frames == []
      ensures color == "#33ff33" && dimColor == Css("#115511")
      ensures glowColor == Css("rgba(51, 255, 51, 0.5)")
    {
      hasCanvas := false;
      hasAnalyser := false;
      isRunning := false;
      animationId := None;
      nextFrameId := 1;
      width := 0;
      height := 0;
      idleTimers := 0;
      frames := [];
      color := "#33ff33";
      dimColor := Css("#115511");
      glowColor := Css("rgba(51, 255, 51, 0.5)");
    }

    /** `drawIdle`: nothing without a canvas. */
    method DrawIdle()
      requires Valid()
      modifies this`frames
      ensures Valid()
      ensures !hasCanvas ==> frames == old(frames)
      ensures hasCanvas ==> AddsIdle(old(frames), frames, width, height)
    {
      if !hasCanvas {
        return;
      }
      var g := DrawGrid(width, height);
      frames := frames + [Idle(g)];
    }

    /** `drawBars` with the analyser's current byte readings. */
    method DrawBars(reading: seq<byte>)
      requires Valid()
      modifies this`frames
      ensures Valid()
      ensures !(hasAnalyser && hasCanvas) ==> frames == old(frames)
      ensures hasAnalyser && hasCanvas ==> AddsBars(old(frames), frames, reading, width, height)
    {
      if !hasAnalyser || !hasCanvas {
        return;
      }
      var data := new byte[|reading|](i requires 0 <= i < |reading| => reading[i]);
      assert data[..] == reading;
      var avgs := Averages(data);
      var g := DrawGrid(width, height);
      frames := frames + [Bars(avgs, g)];
    }

    /** `draw`: while running, schedules the next frame and draws bars. */
    method Draw(reading: seq<byte>)
      requires Valid()
      modifies this`animationId, this`nextFrameId, this`frames
      ensures Valid()
      ensures !isRunning ==> unchanged(this)
      ensures isRunning ==> animationId == Some(old(nextFrameId)) && nextFrameId == old(nextFrameId) + 1
      ensures isRunning && hasAnalyser && hasCanvas ==> AddsBars(old(frames), frames, reading, width, height)
      ensures !(hasAnalyser && hasCanvas) ==> frames == old(frames)
    {
      if !isRunning {
        return;
      }
      animationId := Some(nextFrameId);
      nextFrameId := nextFrameId + 1;
      DrawBars(reading);
    }

    /** `start`: a no-op when already running or without an analyser. */
    method Start(reading: seq<byte>)
      requires Valid()
      modifies this`isRunning, this`animationId, this`nextFrameId, this`frames
      ensures Valid()
      ensures old(isRunning) || !hasAnalyser ==> unchanged(this)
      ensures !old(isRunning) && hasAnalyser ==>
        && isRunning && animationId == Some(old(nextFrameId))
        && |frames| == |old(frames)| + (if hasCanvas then 1 else 0)
      ensures !old(isRunning) && hasAnalyser && hasCanvas ==> AddsBars(old(frames), frames, reading, width, height)
    {
      if isRunning || !hasAnalyser {
        return;
      }
      isRunning := true;
      Draw(reading);
    }

    /** `stop`: whatever the state, the visualizer ends up stopped with no
        frame pending (so stopping twice leaves the flags as stopping
        once), and an idle redraw is queued for 100 ms later. */
    method Stop()
      requires Valid()
      modifies this`isRunning, this`animationId, this`idleTimers
      ensures Valid()
      ensures !isRunning && animationId == None
      ensures idleTimers == old(idleTimers) + 1
    {
      isRunning := false;
      if animationId.Some? {
        animationId := None;
      }
      idleTimers := idleTimers + 1;
    }

    /** The pending animation frame fires: it runs `draw`. A cancelled frame
        never fires, so after `stop` nothing is drawn. */
    method FrameFires(reading: seq<byte>)
      requires Valid()
      modifies this`animationId, this`nextFrameId, this`frames
      ensures Valid()
      ensures old(animationId).None? ==> unchanged(this)
      ensures old(animationId).Some? ==> animationId == Some(old(nextFrameId)) && isRunning
      ensures old(animationId).Some? && hasAnalyser && hasCanvas ==> AddsBars(old(frames), frames, reading, width, height)
      ensures !(hasAnalyser && hasCanvas) ==> frames == old(frames)
    {
      if animationId.None? {
        return;
      }
      Draw(reading);
    }

    /** One of `stop`'s idle timers fires: the idle frame is drawn even if
        the visualizer has been started again meanwhile. */
    method IdleTimerFires()
      requires Valid()
      modifies this`idleTimers, this`frames
      ensures Valid()
      ensures old(idleTimers) == 0 ==> unchanged(this)
      ensures old(idleTimers) > 0 ==> idleTimers == old(idleTimers) - 1
      ensures old(idleTimers) > 0 && hasCanvas ==> AddsIdle(old(frames), frames, width, height)
      ensures !hasCanvas ==> frames == old(frames)
    {
      if idleTimers == 0 {
        return;
      }
      idleTimers := idleTimers - 1;
      DrawIdle();
    }

    /** `resizeCanvas` with the parent's current box: nothing without a
        canvas or a parent; otherwise the canvas takes the box's size and the
        idle frame is redrawn exactly when the visualizer is not running. */
    method ResizeCanvas(parent: Option<Rect>)
      requires Valid()
      requires parent.Some? ==> parent.value.width >= 0.0 && parent.value.height >= 0.0
      modifies this`width, this`height, this`frames
      ensures Valid()
      ensures !hasCanvas || parent.None? ==> unchanged(this)
      ensures hasCanvas && parent.Some? ==>
        && width == parent.value.width.Floor && height == parent.value.height.Floor
        && (isRunning ==> frames == old(frames))
        && (!isRunning ==> AddsIdle(old(frames), frames, width, height))
    {
      if !hasCanvas || parent.None? {
        return;
      }
      width := parent.value.width.Floor;
      height := parent.value.height.Floor;
      if !isRunning {
        DrawIdle();
      }
    }

    /** `init(canvas, analyser)`: binds the canvas (assumed present) and the
        analyser, sizes the canvas and draws the idle frame. */
    method Init(analyserPresent: bool, parent: Option<Rect>)
      requires Valid()
      requires parent.Some? ==> parent.value.width >= 0.0 && parent.value.height >= 0.0
      modifies this`hasCanvas, this`hasAnalyser, this`width, this`height, this`frames
      ensures Valid()
      ensures hasCanvas && hasAnalyser == analyserPresent
      ensures |frames| > |old(frames)| && frames[..|old(frames)|] == old(frames)
      ensures AddsIdle(frames[..|frames| - 1], frames, width, height)
    {
      hasCanvas := true;
      hasAnalyser := analyserPresent;
      ResizeCanvas(parent);
      DrawIdle();
    }

    /** `setColor`: the bright colour as given, the dim one at a third of
        each channel, the glow at half opacity. */
    method SetColor(c: string)
      requires Valid()
      modifies this`color, this`dimColor, this`glowColor
      ensures Valid()
      ensures color == c
      ensures dimColor == Rgb(DimChannel(c, 0), DimChannel(c, 1), DimChannel(c, 2))
      ensures glowColor == HalfAlpha(Channel(c, 0), Channel(c, 1), Channel(c, 2))
    {
      color := c;
      var r := Channel(c, 0);
      var g := Channel(c, 1);
      var b := Channel(c, 2);
      dimColor := Rgb(DimChannel(c, 0), DimChannel(c, 1), DimChannel(c, 2));
      glowColor := HalfAlpha(r, g, b);
    }
  }
}
