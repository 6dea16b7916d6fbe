/** A click counter that fires when it reaches its period and then starts
    over, as the double-click and title-click secrets both use. */
module Counters {
  /** One event: the counter goes up by one; on reaching `period` it fires
      and is reset to zero. Nothing is lost: the new value plus one period
      if it fired is the old value plus one. */
  function Step(count: nat, period: nat): (r: (nat, bool))
    requires count < period
    ensures r.0 < period
    ensures r.1 <==> count + 1 == period
    ensures r.0 + (if r.1 then period else 0) == count + 1
  {
    if count + 1 >= period then (0, true) else (count + 1, false)
  }

  /** The counter after `events` events, and how many times it fired. */
  function Run(count: nat, events: nat, period: nat): (nat, nat)
    requires count < period
    decreases events
  {
    if events == 0 then (count, 0)
    else
      var (next, fired) := Step(count, period);
      var (last, times) := Run(next, events - 1, period);
      (last, times + if fired then 1 else 0)
  }

  /** Over any run of events the counter fires once per full period, and
      what is left is the remainder: `times` and `last` are the quotient
      and remainder of `count + events` by `period`. */
  lemma {:induction false} RunClosedForm(count: nat, events: nat, period: nat)
    requires count < period
    ensures var (last, times) := Run(count, events, period);
      && last < period
      && times * period + last == count + events
    decreases events
  {
    if events > 0 {
      var (next, fired) := Step(count, period);
      RunClosedForm(next, events - 1, period);
      var (last, times) := Run(next, events - 1, period);
      if fired {
        assert (times + 1) * period == times * period + period;
      }
    }
  }
}
