/**
 * The CPU utilisation calculator: four cumulative counters remembered between calls,
 * and the percentage of non-idle time between the remembered counters and a new sample
 * of the first line of `/proc/stat`.
 */
module Cpu {

  /** The eight counters of the aggregate `cpu` line of `/proc/stat`, in file order. */
  datatype CpuSample = CpuSample(user: int, nice: int, system: int, idle: int,
                                 iowait: int, irq: int, softirq: int, steal: int)

  /** The four aggregates the calculator keeps: user, nice ("user low"), system, and idle + iowait. */
  datatype Counters = Counters(user: int, userLow: int, sys: int, idle: int)

  /** The initial (zero-initialised) remembered state, which also marks "no sample yet". */
  const Zero := Counters(0, 0, 0, 0)

  function Aggregates(s: CpuSample): Counters
  {
    Counters(s.user, s.nice, s.system, s.idle + s.iowait)
  }

  /** Time spent in user, nice and system mode between two states. */
  function ActiveDelta(prev: Counters, cur: Counters): int
  {
    (cur.user - prev.user) + (cur.userLow - prev.userLow) + (cur.sys - prev.sys)
  }

  /** Time spent idle or waiting for I/O between two states. */
  function IdleDelta(prev: Counters, cur: Counters): int
  {
    cur.idle - prev.idle
  }

  /** Every remembered aggregate is at most the new one. */
  predicate NonDecreasing(prev: Counters, cur: Counters)
  {
    prev.user <= cur.user && prev.userLow <= cur.userLow && prev.sys <= cur.sys && prev.idle <= cur.idle
  }

  /**
   * The percentage reported for sample `s` when `prev` is the remembered state:
   * 0 on the bootstrap call (remembered state all zero), 0 when no time elapsed,
   * otherwise the share of active time in active plus idle time, times 100.
   */
  function CpuPercent(prev: Counters, s: CpuSample): (r: real)
    ensures prev == Zero ==> r == 0.0
    ensures prev != Zero && ActiveDelta(prev, Aggregates(s)) + IdleDelta(prev, Aggregates(s)) == 0 ==> r == 0.0
    ensures prev != Zero && ActiveDelta(prev, Aggregates(s)) + IdleDelta(prev, Aggregates(s)) != 0 ==>
              r * (ActiveDelta(prev, Aggregates(s)) + IdleDelta(prev, Aggregates(s))) as real
              == 100.0 * ActiveDelta(prev, Aggregates(s)) as real
  {
    var cur := Aggregates(s);
    if prev == Zero then 0.0
    else
      var active := ActiveDelta(prev, cur);
      var totalTime := active + IdleDelta(prev, cur);
      if totalTime == 0 then 0.0 else 100.0 * active as real / totalTime as real
  }

  /** With counters that never go backwards the reported percentage is a percentage. */
  lemma CpuPercentInRange(prev: Counters, s: CpuSample)
    requires NonDecreasing(prev, Aggregates(s))
    ensures 0.0 <= CpuPercent(prev, s) <= 100.0
  {
  }

  /** irq, softirq and steal time never influence the result. */
  lemma CpuIgnoresIrq(prev: Counters, s: CpuSample, irq: int, softirq: int, steal: int)
    ensures CpuPercent(prev, s.(irq := irq, softirq := softirq, steal := steal)) == CpuPercent(prev, s)
  {
  }

  /**
   * There is no guard against counters going backwards: when every aggregate decreases
   * the active and idle deltas are both negative and the result is strictly between 0 and 100,
   * not 0.
   */
  lemma CounterResetNotZero(prev: Counters, s: CpuSample)
    requires prev != Zero
    requires Aggregates(s).user < prev.user && Aggregates(s).userLow < prev.userLow
    requires Aggregates(s).sys < prev.sys && Aggregates(s).idle < prev.idle
    ensures 0.0 < CpuPercent(prev, s) < 100.0
  {
    var cur := Aggregates(s);
    var a, i := ActiveDelta(prev, cur), IdleDelta(prev, cur);
    assert a < 0 && i < 0;
  }

  /**
   * When the active and idle deltas have opposite signs and do not cancel, the result leaves
   * [0, 100]: it exceeds 100 when the total delta has the sign of the active delta, and it is
   * negative when the total has the opposite sign. (When they cancel, the total is 0 and the
   * result is 0.)
   */
  lemma OppositeDeltasLeaveRange(prev: Counters, s: CpuSample)
    requires prev != Zero
    requires OppositeSigns(ActiveDelta(prev, Aggregates(s)), IdleDelta(prev, Aggregates(s)))
    requires ActiveDelta(prev, Aggregates(s)) + IdleDelta(prev, Aggregates(s)) != 0
    ensures SameSign(ActiveDelta(prev, Aggregates(s)) + IdleDelta(prev, Aggregates(s)), ActiveDelta(prev, Aggregates(s))) ==> CpuPercent(prev, s) > 100.0
    ensures !SameSign(ActiveDelta(prev, Aggregates(s)) + IdleDelta(prev, Aggregates(s)), ActiveDelta(prev, Aggregates(s))) ==> CpuPercent(prev, s) < 0.0
  {
    RatioOutsideRange(ActiveDelta(prev, Aggregates(s)), IdleDelta(prev, Aggregates(s)), CpuPercent(prev, s));
  }

  /** One of `x` and `y` is positive and the other negative. */
  predicate OppositeSigns(x: int, y: int)
  {
    (x < 0 && 0 < y) || (y < 0 && 0 < x)
  }

  /** `x` and `y` are both positive or both negative. */
  predicate SameSign(x: int, y: int)
  {
    (x < 0 && y < 0) || (0 < x && 0 < y)
  }

  /** The arithmetic behind `OppositeDeltasLeaveRange`, for `r = 100 * a / (a + i)`. */
  lemma RatioOutsideRange(a: int, i: int, r: real)
    requires OppositeSigns(a, i) && a + i != 0
    requires r * (a + i) as real == 100.0 * a as real
    ensures SameSign(a + i, a) ==> r > 100.0
    ensures !SameSign(a + i, a) ==> r < 0.0
  {
    var t := (a + i) as real;
    if 0 < a {
      if 0.0 < t {
        assert t < a as real;
        assert (r - 100.0) * t == 100.0 * (a as real - t);
        assert (r - 100.0) * t > 0.0;
      } else {
        assert r * t > 0.0;
      }
    } else {
      if t < 0.0 {
        assert a as real < t;
        assert (r - 100.0) * t == 100.0 * (a as real - t);
        assert (r - 100.0) * t < 0.0;
      } else {
        assert r * t < 0.0;
      }
    }
  }

  /**
   * An example of the first case of `OppositeDeltasLeaveRange`: active time goes backwards by 3,
   * idle time advances by 1, so the total (-2) has the sign of the active delta and the result is 150.
   */
  lemma MixedDecreaseExceedsHundred()
    ensures CpuPercent(Counters(10, 0, 0, 10), CpuSample(7, 0, 0, 11, 0, 0, 0, 0)) == 150.0
  {
  }

  /**
   * An example of the second case of `OppositeDeltasLeaveRange`: active time advances by 2,
   * idle time goes backwards by 5, so the total (-3) has the opposite sign and the result is negative.
   */
  lemma IdleDecreaseGoesNegative()
    ensures CpuPercent(Counters(10, 0, 0, 10), CpuSample(12, 0, 0, 5, 0, 0, 0, 0)) == -200.0 / 3.0
  {
  }

  /** The calculator, whose four remembered counters persist from call to call. */
  class CpuMonitor {
    var lastTotalUser: int
    var lastTotalUserLow: int
    var lastTotalSys: int
    var lastTotalIdle: int

    /** The remembered state as a value. */
    function Stored(): Counters
      reads this
    {
      Counters(lastTotalUser, lastTotalUserLow, lastTotalSys, lastTotalIdle)
    }

    /** A calculator before its first call: all counters zero. */
    constructor ()
      ensures Stored() == Zero
    {
      lastTotalUser, lastTotalUserLow, lastTotalSys, lastTotalIdle := 0, 0, 0, 0;
    }

    /**
     * Reports the utilisation since the previous call and remembers the new sample's
     * aggregates, on the bootstrap call and on every other call alike.
     */
    method GetCpuUsage(s: CpuSample) returns (percent: real)
      modifies this
      ensures percent == CpuPercent(old(Stored()), s)
      ensures Stored() == Aggregates(s)
    {
      var totalUser := s.user;
      var totalUserLow := s.nice;
      var totalSys := s.system;
      var totalIdle := s.idle + s.iowait;

      if lastTotalUser == 0 && lastTotalUserLow == 0 && lastTotalSys == 0 && lastTotalIdle == 0 {
        lastTotalUser, lastTotalUserLow, lastTotalSys, lastTotalIdle := totalUser, totalUserLow, totalSys, totalIdle;
        return 0.0;
      }

      var total := (totalUser - lastTotalUser) + (totalUserLow - lastTotalUserLow) + (totalSys - lastTotalSys);
      var totalTime := total + (totalIdle - lastTotalIdle);
      percent := if totalTime == 0 then 0.0 else 100.0 * total as real / totalTime as real;

      lastTotalUser, lastTotalUserLow, lastTotalSys, lastTotalIdle := totalUser, totalUserLow, totalSys, totalIdle;
    }
  }

  /** A sample whose aggregates are all zero puts the calculator back into its bootstrap state. */
  method ZeroSampleRebootstraps(m: CpuMonitor, s: CpuSample, next: CpuSample) returns (first: real, second: real)
    requires Aggregates(s) == Zero
    modifies m
    ensures second == 0.0
    ensures m.Stored() == Aggregates(next)
  {
    first := m.GetCpuUsage(s);
    second := m.GetCpuUsage(next);
  }
}
