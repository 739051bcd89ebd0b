/**
 Relative waits measured with the wrapped tick count (tasks.c): the timeout of a blocking call, kept
 as the number of wraps and the tick at which the call began, and the fixed-rate delay.
 */
module TimeOuts {
  import opened ModularTime

  /** TimeOut_t. */
  datatype TimeOut = TimeOut(overflowCount: nat, timeOnEntering: nat)

  /** The instant at which a time out state was taken. */
  ghost function Entered(m: nat, t: TimeOut): nat {
    Cycles(m, t.overflowCount) + t.timeOnEntering
  }

  datatype Check = Check(expired: bool, timeOut: TimeOut, ticksToWait: nat)

  /** xTaskCheckForTimeOut; `m - 1` is portMAX_DELAY. */
  function CheckForTimeOut(m: nat, overflows: nat, tick: nat, t: TimeOut, ticksToWait: nat): Check
    requires 0 < m
  {
    var elapsed := (tick - t.timeOnEntering) % m;
    if ticksToWait == m - 1 then Check(false, t, ticksToWait)
    else if overflows != t.overflowCount && tick >= t.timeOnEntering then Check(true, t, 0)
    else if elapsed < ticksToWait then Check(false, TimeOut(overflows, tick), ticksToWait - elapsed)
    else Check(true, t, 0)
  }

  lemma CyclesApart(m: nat, k: nat, j: nat)
    requires k <= j
    ensures j == k ==> Cycles(m, j) == Cycles(m, k)
    ensures j == k + 1 ==> Cycles(m, j) == Cycles(m, k) + m
    ensures j >= k + 2 ==> Cycles(m, j) >= Cycles(m, k) + m + m
  {
    if j > k + 2 {
      CyclesApart(m, k, j - 1);
    }
  }

  /** A finite timeout is reported exactly when the true elapsed time has reached the ticks to wait,
      provided at most one wrap separates the check from the state it measures from, or the tick
      has passed the entry tick again, or the wrapped elapsed time alone is long enough.  Otherwise
      it is not reported although it is overdue. */
  lemma CheckExact(m: nat, overflows: nat, tick: nat, t: TimeOut, ticksToWait: nat)
    requires 0 < m && tick < m && t.timeOnEntering < m && ticksToWait < m - 1
    requires t.overflowCount <= overflows && (t.overflowCount == overflows ==> t.timeOnEntering <= tick)
    ensures var elapsed := Cycles(m, overflows) + tick - Entered(m, t);
            var r := CheckForTimeOut(m, overflows, tick, t, ticksToWait);
            && 0 <= elapsed
            && ((r.expired <==> elapsed >= ticksToWait) <==>
                overflows <= t.overflowCount + 1 || tick >= t.timeOnEntering
                || (tick - t.timeOnEntering) % m >= ticksToWait)
            && (!r.expired && overflows <= t.overflowCount + 1 ==>
                r.timeOut == TimeOut(overflows, tick) && elapsed + r.ticksToWait == ticksToWait)
  {
    CyclesApart(m, t.overflowCount, overflows);
    var apart := tick - t.timeOnEntering;
    ModUnique(m, apart, if apart < 0 then -1 else 0, if apart < 0 then apart + m else apart);
  }

  /** Two wraps between checks can hide a timeout: with 10 ticks to the wrap, a wait of 8 ticks begun
      at instant 9 is not reported at instant 25. */
  lemma TwoWrapsHideATimeOut()
    ensures var t := TimeOut(0, 9);
            && Entered(10, t) == 9 && Cycles(10, 2) + 5 == 25
            && !CheckForTimeOut(10, 2, 5, t, 8).expired
  {
    assert Cycles(10, 2) == Cycles(10, 1) + 10;
  }

  /** The moments, as (wraps, tick), at which a blocking call looks whether its time is up. */
  type Moment = (nat, nat)

  /** Consecutive moments are at most one wrap apart. */
  predicate Steady(m: nat, overflows: nat, tick: nat, checks: seq<Moment>)
    decreases checks
  {
    checks != [] ==>
      && checks[0].1 < m && overflows <= checks[0].0 <= overflows + 1
      && (overflows == checks[0].0 ==> tick <= checks[0].1)
      && Steady(m, checks[0].0, checks[0].1, checks[1..])
  }

  /** The retry loop of a blocking call: check after check until one expires. */
  function Retry(m: nat, t: TimeOut, ticksToWait: nat, checks: seq<Moment>): Check
    requires 0 < m
    decreases checks
  {
    if checks == [] then Check(false, t, ticksToWait)
    else
      var r := CheckForTimeOut(m, checks[0].0, checks[0].1, t, ticksToWait);
      if r.expired then r else Retry(m, r.timeOut, r.ticksToWait, checks[1..])
  }

  /** A wait of portMAX_DELAY ticks never ends by timeout, however often and at whatever moments it is
      checked: the call goes round with the entry time and the ticks that it began with. */
  lemma {:induction false} MaxDelayNeverExpires(m: nat, t: TimeOut, checks: seq<Moment>)
    requires 0 < m
    ensures Retry(m, t, m - 1, checks) == Check(false, t, m - 1)
    decreases checks
  {
    if checks != [] {
      MaxDelayNeverExpires(m, t, checks[1..]);
    }
  }

  /** However often a blocking call goes round, its deadline stays that of the first wait: as long
      as no check expires, the time of the last check and the ticks still to wait add up to it and
      it has not passed. */
  lemma {:induction false} DeadlineIsConstant(m: nat, t: TimeOut, ticksToWait: nat, checks: seq<Moment>)
    requires 0 < m && t.timeOnEntering < m && ticksToWait < m - 1
    requires Steady(m, t.overflowCount, t.timeOnEntering, checks)
    ensures var r := Retry(m, t, ticksToWait, checks);
            !r.expired ==>
              && Entered(m, r.timeOut) + r.ticksToWait == Entered(m, t) + ticksToWait
              && (checks != [] ==>
                    r.timeOut == TimeOut(checks[|checks| - 1].0, checks[|checks| - 1].1) && 0 < r.ticksToWait)
    decreases checks
  {
    if checks != [] {
      var (overflows, tick) := checks[0];
      CheckExact(m, overflows, tick, t, ticksToWait);
      var r := CheckForTimeOut(m, overflows, tick, t, ticksToWait);
      if !r.expired {
        DeadlineIsConstant(m, r.timeOut, r.ticksToWait, checks[1..]);
      }
    }
  }

  /** The call gives up exactly at the first check that is not before the deadline. */
  lemma {:induction false} ExpiresAtDeadline(m: nat, t: TimeOut, ticksToWait: nat, checks: seq<Moment>)
    requires 0 < m && t.timeOnEntering < m && ticksToWait < m - 1
    requires Steady(m, t.overflowCount, t.timeOnEntering, checks)
    ensures Retry(m, t, ticksToWait, checks).expired <==>
            exists i :: 0 <= i < |checks| && Cycles(m, checks[i].0) + checks[i].1 >= Entered(m, t) + ticksToWait
    decreases checks
  {
    if checks != [] {
      var (overflows, tick) := checks[0];
      CheckExact(m, overflows, tick, t, ticksToWait);
      var r := CheckForTimeOut(m, overflows, tick, t, ticksToWait);
      if !r.expired {
        var rest := checks[1..];
        ExpiresAtDeadline(m, r.timeOut, r.ticksToWait, rest);
        if i :| 0 <= i < |checks| && Cycles(m, checks[i].0) + checks[i].1 >= Entered(m, t) + ticksToWait {
          assert i != 0 && rest[i-1] == checks[i];
        }
        if i :| 0 <= i < |rest| && Cycles(m, rest[i].0) + rest[i].1 >= Entered(m, t) + ticksToWait {
          assert checks[i+1] == rest[i];
        }
      }
    }
  }

  // ---------- xTaskDelayUntil ----------

  /** The wake tick, whether to delay at all, and for how many ticks. */
  function DelayUntilPlan(m: nat, tick: nat, previousWake: nat, increment: nat): (nat, bool, nat)
    requires 0 < m
  {
    var timeToWake := (previousWake + increment) % m;
    var shouldDelay :=
      if tick < previousWake then timeToWake < previousWake && timeToWake > tick
      else timeToWake < previousWake || timeToWake > tick;
    (timeToWake, shouldDelay, (timeToWake - tick) % m)
  }

  /** With the last wake time less than a full cycle ago, the task delays exactly when the next wake
      time is still to come, and then for exactly the time that is left. */
  lemma DelayUntilExact(m: nat, now: nat, previous: nat, increment: nat)
    requires previous <= now < previous + m && 0 < increment < m
    ensures var (wake, delay, ticks) := DelayUntilPlan(m, Tick(m, now), Tick(m, previous), increment);
            && wake == Tick(m, previous + increment)
            && (delay <==> previous + increment > now)
            && (delay ==> now + ticks == previous + increment && 0 < ticks < m)
  {
    hide Tick;
    TickAhead(m, previous, now - previous);
    TickAhead(m, previous, increment);
    WrappedSum(m, previous, increment);
    if previous + increment > now {
      WrappedDifference(m, previous + increment, now);
    }
  }

  /** The wake time kept by a task that calls k times. */
  function WakeAfter(m: nat, first: nat, increment: nat, k: nat): nat
    requires 0 < m
  {
    if k == 0 then first else DelayUntilPlan(m, 0, WakeAfter(m, first, increment, k - 1), increment).0
  }

  /** The wake targets keep a fixed rate from the first wake time, whatever the delays in between:
      the k-th is the tick of first + k * increment. */
  lemma {:induction false} FixedRate(m: nat, first: nat, increment: nat, k: nat)
    requires 0 < m
    ensures WakeAfter(m, Tick(m, first), increment, k) == Tick(m, first + k * increment)
  {
    if k != 0 {
      FixedRate(m, first, increment, k - 1);
      WrappedSum(m, first + (k - 1) * increment, increment);
      MulStep(k - 1, increment);
    }
  }
}
