/** demkit/demkit/components/hosts/restHost.py: the REST-driven host's
    pause and fast-forward flags and its `setTime` loop. The two
    `threading.Event`s are booleans that are true while the event is set;
    the simulator's `timeTick` is recorded by the times it was called with. */
module RestHost {

  /** The times `setTime` ticks at from clock `t` with `k` intervals left and
      step `timeBase`, up to `target`. */
  function FastForwardTicks(t: int, k: int, timeBase: int, target: int): (ticks: seq<int>)
    ensures k <= 0 || t >= target ==> ticks == []
    ensures |ticks| <= if k > 0 then k else 0
    ensures forall i :: 0 <= i < |ticks| ==> ticks[i] == t + i * timeBase
    decreases k
  {
    if k > 0 && t < target then [t] + FastForwardTicks(t + timeBase, k - 1, timeBase, target)
    else []
  }

  /** `ceil(d / b)` for a positive step, and 0 for a non-positive distance. */
  function StepsToCover(d: int, b: int): (n: nat)
    requires b > 0
    ensures d <= 0 ==> n == 0
    ensures d > 0 ==> (n - 1) * b < d <= n * b
  {
    if d <= 0 then 0 else 1 + StepsToCover(d - b, b)
  }

  function Min(a: int, b: int): int { if a <= b then a else b }

  /** With a positive step, the loop ticks as often as the intervals allow,
      but no more than it takes to reach the target; every tick is before
      the target. */
  lemma {:induction false} TickCount(t: int, k: int, timeBase: int, target: int)
    requires timeBase > 0 && k >= 0
    ensures |FastForwardTicks(t, k, timeBase, target)| == Min(k, StepsToCover(target - t, timeBase))
    ensures forall i :: 0 <= i < |FastForwardTicks(t, k, timeBase, target)| ==> FastForwardTicks(t, k, timeBase, target)[i] < target
    decreases k
  {
    if k > 0 && t < target {
      TickCount(t + timeBase, k - 1, timeBase, target);
      assert StepsToCover(target - t, timeBase) == 1 + StepsToCover(target - (t + timeBase), timeBase);
      var ticks := FastForwardTicks(t, k, timeBase, target);
      forall i | 0 <= i < |ticks|
        ensures ticks[i] < target
      {
        if i > 0 {
          assert ticks[i] == FastForwardTicks(t + timeBase, k - 1, timeBase, target)[i - 1];
        }
      }
    }
  }

  /** The clock a sequence of ticks leaves behind. */
  lemma FinalClock(t: int, k: int, timeBase: int, target: int)
    requires timeBase > 0 && k >= 0
    ensures var n := |FastForwardTicks(t, k, timeBase, target)|;
      && (n == k || t + n * timeBase >= target)
      && (t < target ==> t + n * timeBase < target + timeBase)
  {
    TickCount(t, k, timeBase, target);
  }

  /** The POSIX times `datetime.fromtimestamp` can turn into a date:
      0001-01-01 00:00:00 to 9999-12-31 23:59:59, taken in UTC. */
  predicate TimestampRepresentable(time: int)
  {
    MinTimestamp <= time <= MaxTimestamp
  }

  const MinTimestamp: int := -62135596800
  const MaxTimestamp: int := 253402300799

  class RestHost {
    /** `_pause_event.is_set()`: the simulation may run. */
    var pauseEventSet: bool
    /** `_ff_event.is_set()`: no fast-forward is in progress. */
    var ffEventSet: bool
    var currentTime: int
    var intervals: int
    var timeBase: int
    /** The times `timeTick` was called with, in order. */
    var ticks: seq<int>
    /** `_ff_event.is_set()` as each of those ticks saw it. */
    var tickFlags: seq<bool>

    /** `__init__`: running and not fast-forwarding; the clock fields are
        those the host's base class starts with. */
    constructor (currentTime: int, intervals: int, timeBase: int)
      ensures pauseEventSet && ffEventSet
      ensures this.currentTime == currentTime && this.intervals == intervals && this.timeBase == timeBase
      ensures ticks == [] && tickFlags == []
    {
      pauseEventSet := true;
      ffEventSet := true;
      this.currentTime := currentTime;
      this.intervals := intervals;
      this.timeBase := timeBase;
      ticks := [];
      tickFlags := [];
    }

    /** `pauseSim`: a paused host is left as it is. */
    method PauseSim()
      modifies this
      ensures !pauseEventSet
      ensures ffEventSet == old(ffEventSet) && currentTime == old(currentTime) && intervals == old(intervals)
      ensures timeBase == old(timeBase) && ticks == old(ticks) && tickFlags == old(tickFlags)
      ensures !old(pauseEventSet) ==> unchanged(this)
    {
      if !pauseEventSet {
        return;
      }
      pauseEventSet := false;
    }

    /** `resumeSim`: a running host is left as it is. */
    method ResumeSim()
      modifies this
      ensures pauseEventSet
      ensures ffEventSet == old(ffEventSet) && currentTime == old(currentTime) && intervals == old(intervals)
      ensures timeBase == old(timeBase) && ticks == old(ticks) && tickFlags == old(tickFlags)
      ensures old(pauseEventSet) ==> unchanged(this)
    {
      if pauseEventSet {
        return;
      }
      pauseEventSet := true;
    }

    /** `setTime`: the log line formats `time` with `datetime.fromtimestamp`
        first, which raises (ValueError or OverflowError) for a time outside
        years 1 to 9999; the host is then left as it was, no tick made and
        the event untouched. Otherwise it fast-forwards. */
    method SetTime(time: int) returns (raised: bool)
      modifies this
      ensures raised <==> !TimestampRepresentable(time)
      ensures raised ==> unchanged(this)
      ensures !raised ==> ffEventSet
      ensures !raised ==> ticks == old(ticks) + FastForwardTicks(old(currentTime), old(intervals), old(timeBase), time)
      ensures var n := |ticks| - |old(ticks)|;
        currentTime == old(currentTime) + n * old(timeBase) && intervals == old(intervals) - n
      ensures !raised ==> intervals <= 0 || currentTime >= time
      ensures old(intervals) >= 0 ==> intervals >= 0
      ensures time <= old(currentTime) ==> ticks == old(ticks) && currentTime == old(currentTime) && intervals == old(intervals)
      ensures pauseEventSet == old(pauseEventSet) && timeBase == old(timeBase)
      ensures |tickFlags| - |old(tickFlags)| == |ticks| - |old(ticks)|
      ensures tickFlags[..|old(tickFlags)|] == old(tickFlags)
      ensures forall i :: |old(tickFlags)| <= i < |tickFlags| ==> !tickFlags[i]
    {
      if !TimestampRepresentable(time) {
        return true;
      }
      raised := false;
      FastForward(time);
    }

    /** The body of `setTime` after its log line: with the fast-forward event
        cleared, tick and advance the clock while intervals remain and the
        clock is before the target; then set the event again. */
    method FastForward(time: int)
      modifies this
      ensures ffEventSet
      ensures ticks == old(ticks) + FastForwardTicks(old(currentTime), old(intervals), old(timeBase), time)
      ensures var n := |ticks| - |old(ticks)|;
        currentTime == old(currentTime) + n * old(timeBase) && intervals == old(intervals) - n
      ensures intervals <= 0 || currentTime >= time
      ensures old(intervals) >= 0 ==> intervals >= 0
      ensures time <= old(currentTime) ==> ticks == old(ticks) && currentTime == old(currentTime) && intervals == old(intervals)
      ensures pauseEventSet == old(pauseEventSet) && timeBase == old(timeBase)
      ensures |tickFlags| - |old(tickFlags)| == |ticks| - |old(ticks)|
      ensures tickFlags[..|old(tickFlags)|] == old(tickFlags)
      ensures forall i :: |old(tickFlags)| <= i < |tickFlags| ==> !tickFlags[i]
    {
      ffEventSet := false;
      while intervals > 0 && currentTime < time
        invariant timeBase == old(timeBase) && pauseEventSet == old(pauseEventSet)
        invariant |ticks| >= |old(ticks)|
        invariant currentTime == old(currentTime) + (|ticks| - |old(ticks)|) * timeBase
        invariant intervals == old(intervals) - (|ticks| - |old(ticks)|)
        invariant old(intervals) >= 0 ==> intervals >= 0
        invariant !ffEventSet
        invariant |tickFlags| - |old(tickFlags)| == |ticks| - |old(ticks)|
        invariant tickFlags[..|old(tickFlags)|] == old(tickFlags)
        invariant forall i :: |old(tickFlags)| <= i < |tickFlags| ==> !tickFlags[i]
        invariant old(ticks) + FastForwardTicks(old(currentTime), old(intervals), timeBase, time)
               == ticks + FastForwardTicks(currentTime, intervals, timeBase, time)
        decreases intervals
      {
        ticks := ticks + [currentTime];
        tickFlags := tickFlags + [ffEventSet];
        currentTime := currentTime + timeBase;
        intervals := intervals - 1;
      }
      ffEventSet := true;
    }
  }

  /** A request for a time past year 9999 raises before the first tick: a
      host at clock 0 with five intervals stays where it is. */
  method FarFutureSetTimeExample() returns (raised: bool)
    ensures raised
  {
    var host := new RestHost(0, 5, 1);
    raised := host.SetTime(1000000000000);
    assert host.ticks == [] && host.currentTime == 0 && host.intervals == 5 && host.ffEventSet;
  }
}
