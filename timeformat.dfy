/** The "MM:SS" clock the player prints for positions and durations, and
    the reading of such a clock back into whole seconds. */
module TimeFormat {
  import opened Wrappers
  import opened Text

  /** "MM:SS" for a position in seconds; `None` is `NaN`. The whole
      minutes and the whole seconds within the minute are taken from the
      whole seconds of the position, which for a position that is not
      negative is what `Math.floor(seconds / 60)` and
      `Math.floor(seconds % 60)` give (`FloorOfParts`). */
  function FormatTime(seconds: Option<real>): (r: string)
    requires seconds.Some? ==> seconds.value >= 0.0
    ensures seconds.None? ==> r == "00:00"
  {
    if seconds.None? || seconds.value == 0.0 then "00:00"
    else
      var whole: nat := seconds.value.Floor;
      Clock(whole / 60, whole % 60)
  }

  /** Minutes and seconds computed on the position itself, as the page
      does, agree with those taken from its whole seconds. */
  lemma FloorOfParts(s: real)
    requires s >= 0.0
    ensures (s / 60.0).Floor == s.Floor / 60
    ensures (s - 60.0 * (s / 60.0).Floor as real).Floor == s.Floor % 60
  {
    var m := (s / 60.0).Floor;
    var f := s.Floor;
    assert 60 * m <= f < 60 * m + 60;
  }

  /** Every position not known to be zero is shown through `Clock`. */
  lemma FormatTimeIsClock(s: real)
    requires s >= 0.0
    ensures FormatTime(Some(s)) == Clock(s.Floor / 60, s.Floor % 60)
  {
    if s == 0.0 {
      ClockZero();
    }
  }

  /** Reading the display of a position back gives its whole seconds. */
  lemma FormatTimeRoundTrip(s: real)
    requires s >= 0.0
    ensures ParseClock(FormatTime(Some(s))) == Some(s.Floor)
  {
    var f := s.Floor;
    var m: nat := f / 60;
    var sec: nat := f % 60;
    FormatTimeIsClock(s);
    assert 60 * m + sec == f;
    assert ParseClock(Clock(m, sec)) == Some(f) by {
      ClockRoundTrip(m, sec);
    }
  }
}
