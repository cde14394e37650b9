/** The periodic trigger shared by `DoubleDQNPolicy.update` (target sync every
    `target_update_freq` updates) and `DQNWithExperienceReplayAgent.learn`
    (a learning step every `step_per_learn` transitions): increment the
    counter, and when it reaches the period, subtract the period and fire. */
module PeriodicCounter {
  import opened Common

  /** The counter after one call, and whether the periodic action ran. */
  datatype Tick = Tick(count: int, fired: bool)

  /** One call of the pattern `count += 1; if count >= period: count -= period; act()`.
      The period is any integer, as in the source: a period of zero or below
      fires on every call. */
  function Step(count: int, period: int): (t: Tick)
    ensures 1 <= period && 0 <= count < period ==>
              0 <= t.count < period && (t.fired <==> count == period - 1)
    ensures period <= 0 && count >= 0 ==> t.fired && t.count >= 0
  {
    var c := count + 1;
    if c >= period then Tick(c - period, true) else Tick(c, false)
  }

  /** The counter after a number of calls, and how many of them fired. */
  datatype Run = Run(count: int, fires: nat)

  function After(count: int, period: int, calls: nat): Run
  {
    if calls == 0 then Run(count, 0)
    else
      var prev := After(count, period, calls - 1);
      var t := Step(prev.count, period);
      Run(t.count, prev.fires + if t.fired then 1 else 0)
  }

  /** With a positive period, a counter that starts in [0, period) stays there. */
  lemma {:induction false} AfterInRange(count: int, period: int, calls: nat)
    requires 1 <= period && 0 <= count < period
    ensures 0 <= After(count, period, calls).count < period
  {
    if calls > 0 {
      AfterInRange(count, period, calls - 1);
    }
  }

  /** From a zero counter, after n calls the counter is n mod period and the
      periodic action has run exactly n div period times. */
  lemma {:induction false} AfterFromZero(period: int, calls: nat)
    requires period >= 1
    ensures After(0, period, calls) == Run(calls % period, calls / period)
  {
    if calls > 0 {
      AfterFromZero(period, calls - 1);
      StepOnRemainder(calls - 1, period);
    }
  }

  /** One call on the remainder of `m` gives the remainder of `m + 1`, and
      fires exactly when the quotient goes up. */
  lemma StepOnRemainder(m: nat, period: int)
    requires period >= 1
    ensures Step(m % period, period).count == (m + 1) % period
    ensures (m + 1) / period == m / period + if Step(m % period, period).fired then 1 else 0
  {
    var q, r := m / period, m % period;
    assert m == period * q + r;
    if r == period - 1 {
      assert period * (q + 1) == period * q + period;
      DivModUnique(m + 1, period, q + 1, 0);
    } else {
      DivModUnique(m + 1, period, q, r + 1);
    }
  }

  /** Any `period` consecutive calls, counted from a zero counter, contain
      exactly one firing. */
  lemma WindowFiresOnce(period: int, start: nat)
    requires period >= 1
    ensures After(0, period, start + period).fires == After(0, period, start).fires + 1
  {
    AfterFromZero(period, start);
    AfterFromZero(period, start + period);
    ShiftByPeriod(start, period);
  }

  lemma ShiftByPeriod(n: int, period: int)
    requires period >= 1
    ensures (n + period) / period == n / period + 1
  {
    var q, r := n / period, n % period;
    assert n == period * q + r;
    assert period * (q + 1) == period * q + period;
    DivModUnique(n + period, period, q + 1, r);
  }

  /** With a period of zero or below every call fires. */
  lemma {:induction false} NonPositivePeriodAlwaysFires(count: int, period: int, calls: nat)
    requires period <= 0 && count >= 0
    ensures After(count, period, calls).fires == calls
    ensures After(count, period, calls).count >= 0
  {
    if calls > 0 {
      NonPositivePeriodAlwaysFires(count, period, calls - 1);
    }
  }
}
