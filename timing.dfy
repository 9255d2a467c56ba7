/**
 * The timing harness of benchHUB/utils/timing.py: a callable is run a fixed number of
 * times, one duration is collected per run and the durations are reduced with
 * statistics.median or statistics.mean. The clock is not modelled: what the harness
 * observes of the i-th run (counted from 0) is given as `call(i)`: the value the callable
 * returned and the seconds between the two clock reads around it, or the exception the
 * callable raised.
 */
module Timing {
  import opened Wrappers
  import opened PyValue
  import opened Statistics

  /** One run of the timed callable as the harness observes it: the value it returned and
      the seconds between the two clock reads around it, or the exception it raised. */
  datatype Invocation<T> = Returned(value: T, seconds: real) | Raised(error: Exception)

  /** Number of iterations of `for _ in range(n)`. */
  function RunCount(n: int): (k: nat)
    ensures n <= 0 ==> k == 0
    ensures n > 0 ==> k == n
  {
    if n > 0 then n else 0
  }

  /** None of the first k runs raises. */
  predicate Completes<T>(call: nat -> Invocation<T>, k: nat) {
    forall i :: 0 <= i < k ==> call(i).Returned?
  }

  /** Run i is the first to raise: the runs before it returned. */
  predicate FirstRaise<T>(call: nat -> Invocation<T>, i: nat) {
    Completes(call, i) && call(i).Raised?
  }

  /** At most one run is the first to raise. */
  lemma FirstRaiseUnique<T>(call: nat -> Invocation<T>, i: nat, j: nat)
    requires FirstRaise(call, i) && FirstRaise(call, j)
    ensures i == j
  {
  }

  /** Either all of the first k runs return, or exactly one of them is the first to raise. */
  lemma {:induction false} CompletesOrRaises<T>(call: nat -> Invocation<T>, k: nat)
    ensures Completes(call, k) <==> !exists i :: 0 <= i < k && FirstRaise(call, i)
  {
    if k > 0 {
      CompletesOrRaises(call, k - 1);
      if !Completes(call, k) && Completes(call, k - 1) {
        assert FirstRaise(call, k - 1);
      }
    }
  }

  /** The durations of the first k runs, in the order they were measured. */
  function Durations<T>(call: nat -> Invocation<T>, k: nat): (times: seq<real>)
    requires Completes(call, k)
    ensures |times| == k
    ensures forall i :: 0 <= i < k ==> times[i] == call(i).seconds
  {
    seq(k, i requires 0 <= i < k => call(i).seconds)
  }

  /** What the run loop collects when no run raises: the durations, and the value of the
      last run (None when the loop does not run). */
  datatype Runs<T> = Runs(times: seq<real>, last: Option<T>)

  /** The run loop shared by record_time and the decorator's wrapper: the callable is run
      range(nRuns) times and one duration is appended per run. The first exception a run
      raises ends the loop and propagates, and the later runs never happen. */
  method RunTimed<T>(call: nat -> Invocation<T>, nRuns: int) returns (r: Result<Runs<T>, Exception>)
    ensures r.Ok? <==> Completes(call, RunCount(nRuns))
    ensures r.Ok? ==> r.value.times == Durations(call, RunCount(nRuns))
    ensures r.Ok? ==> (nRuns <= 0 <==> r.value.last == None)
    ensures r.Ok? && nRuns > 0 ==> r.value.last == Some(call(nRuns - 1).value)
    ensures r.Err? ==> exists i :: 0 <= i < RunCount(nRuns) && FirstRaise(call, i) && r.error == call(i).error
  {
    var n := RunCount(nRuns);
    var times, result := [], None;
    var k := 0;
    while k < n
      invariant 0 <= k <= n
      invariant Completes(call, k)
      invariant times == Durations(call, k)
      invariant k == 0 ==> result == None
      invariant k > 0 ==> result == Some(call(k - 1).value)
    {
      var run := call(k);
      if run.Raised? {
        assert FirstRaise(call, k);
        return Err(run.error);
      }
      result := Some(run.value);
      times := times + [run.seconds];
      k := k + 1;
    }
    r := Ok(Runs(times, result));
  }

  /** record_time: the reduced duration of nRuns runs; the first exception of a run
      propagates, and StatisticsError is raised when nRuns <= 0, because the reduction
      of an empty list raises. */
  method RecordTime<T>(call: nat -> Invocation<T>, nRuns: int, useMedian: bool) returns (r: Result<real, Exception>)
    ensures Completes(call, RunCount(nRuns)) ==> r == Reduce(Durations(call, RunCount(nRuns)), useMedian)
    ensures nRuns <= 0 ==> r == Err(StatisticsError)
    ensures nRuns > 0 && Completes(call, nRuns) && useMedian ==> r == Ok(Median(Durations(call, nRuns)))
    ensures nRuns > 0 && Completes(call, nRuns) && !useMedian ==> r == Ok(Mean(Durations(call, nRuns)))
    ensures !Completes(call, RunCount(nRuns)) ==>
      exists i :: 0 <= i < RunCount(nRuns) && FirstRaise(call, i) && r == Err(call(i).error)
  {
    var runs := RunTimed(call, nRuns);
    if runs.Err? {
      return Err(runs.error);
    }
    var times := runs.value.times;
    if times == [] {
      return Err(StatisticsError);
    }
    if useMedian {
      r := Ok(Median(times));
    } else {
      r := Ok(Mean(times));
    }
  }

  /** A dictionary the caller owns and passes to the decorator as `timings`. */
  class TimingsMap {
    var entries: Dictionary

    constructor()
      ensures entries == map[]
    {
      entries := map[];
    }
  }

  /** The wrapper produced by timing_decorator(n_runs, use_median, timings) applied to a
      callable named `name`. The run count, the reduction and the timings dictionary are
      captured when the decorator is applied; attributes assigned on the wrapper later
      are stored but never read. */
  class TimedFunction<T> {
    const name: string
    const nRuns: int
    const useMedian: bool
    const timings: TimingsMap?
    var attributes: Dictionary

    constructor(name: string, nRuns: int, useMedian: bool, timings: TimingsMap?)
      ensures this.name == name && this.nRuns == nRuns && this.useMedian == useMedian
      ensures this.timings == timings && attributes == map[]
    {
      this.name := name;
      this.nRuns := nRuns;
      this.useMedian := useMedian;
      this.timings := timings;
      attributes := map[];
    }

    /** `wrapper.attr = v`: only the wrapper's attribute dictionary changes. */
    method SetAttribute(attr: string, v: Value)
      modifies this
      ensures attributes == old(attributes)[attr := v]
    {
      attributes := attributes[attr := v];
    }

    /** Calling the wrapper: the value of the last run is returned and, when a timings
        dictionary was given, exactly its entry `name` is set to the reduced duration,
        replacing any earlier entry. A run that raises ends the call with its exception
        before anything is written, and with no run the reduction raises before anything
        is written. */
    method Call(call: nat -> Invocation<T>) returns (r: Result<T, Exception>)
      modifies timings
      ensures nRuns <= 0 ==> r == Err(StatisticsError)
      ensures nRuns > 0 && Completes(call, nRuns) ==> r == Ok(call(nRuns - 1).value)
      ensures !Completes(call, RunCount(nRuns)) ==>
        exists i :: 0 <= i < RunCount(nRuns) && FirstRaise(call, i) && r == Err(call(i).error)
      ensures timings != null && nRuns > 0 && Completes(call, nRuns) ==>
        timings.entries == old(timings.entries)[name := Float(Reduce(Durations(call, nRuns), useMedian).value)]
      ensures timings != null && r.Err? ==> timings.entries == old(timings.entries)
    {
      var runs := RunTimed(call, nRuns);
      if runs.Err? {
        return Err(runs.error);
      }
      var times, result := runs.value.times, runs.value.last;
      if times == [] {
        return Err(StatisticsError);
      }
      var elapsed := if useMedian then Median(times) else Mean(times);
      if timings != null {
        timings.entries := timings.entries[name := Float(elapsed)];
      }
      r := Ok(result.value);
    }
  }
}
