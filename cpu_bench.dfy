/**
 * The CPU benchmark of benchHUB/cpu_bench.py: trial-division prime search, the
 * sum-of-squares task handed to the worker pool, and the shape of the timing dictionary
 * cpu_benchmark returns. The pool itself and the clock are not modelled; the seconds each
 * timed run takes are parameters.
 */
module CpuBench {
  import opened Wrappers
  import opened PyValue
  import opened Statistics
  import opened Timing
  import ReferenceIndex

  /** d divides n. */
  predicate Divides(d: int, n: int)
    requires d > 0
  {
    n % d == 0
  }

  /** n is prime: at least 2 and without a divisor strictly between 1 and n. */
  ghost predicate IsPrime(n: int) {
    n >= 2 && forall d :: 2 <= d < n ==> !Divides(d, n)
  }

  /** int(n ** 0.5): the largest r with r * r <= n. */
  function ISqrt(n: nat): (r: nat)
    ensures r * r <= n < (r + 1) * (r + 1)
  {
    if n == 0 then 0
    else
      var r := ISqrt(n - 1);
      if (r + 1) * (r + 1) <= n then
        assert n < (r + 2) * (r + 2) by {
          assert (r + 2) * (r + 2) == (r + 1) * (r + 1) + 2 * r + 3;
        }
        r + 1
      else r
  }

  lemma MulMonotone(a: nat, b: nat, c: nat, d: nat)
    requires a <= c && b <= d
    ensures a * b <= c * d
  {
    assert a * b <= c * b;
    assert c * b <= c * d;
  }

  /** A multiple of e leaves no remainder on division by e. */
  lemma ModOfMultiple(n: int, e: int, q: int)
    requires e > 0 && n == q * e
    ensures n % e == 0
  {
    var q', r' := n / e, n % e;
    assert n == q' * e + r';
    assert (q - q') * e == r';
    if q - q' >= 1 {
    } else if q - q' <= -1 {
    }
  }

  lemma CofactorDivides(n: int, d: int)
    requires d > 0 && n > 0 && Divides(d, n)
    ensures n / d > 0 && Divides(n / d, n) && (n / d) * d == n
  {
    var e := n / d;
    assert n == e * d;
    ModOfMultiple(n, e, d);
  }

  /** A number with a proper divisor has one no larger than its integer square root, so
      the inner loop's bound suffices. */
  lemma {:induction false} SmallDivisor(n: int, d: int)
    requires 2 <= d < n && Divides(d, n)
    ensures exists e :: 2 <= e <= ISqrt(n) && Divides(e, n)
  {
    var r := ISqrt(n);
    if d > r {
      var e := n / d;
      CofactorDivides(n, d);
      if e > r {
        MulMonotone(r + 1, r + 1, e, d);
      }
      assert e >= 2 by {
        if e <= 1 {
          MulMonotone(e, d, 1, d);
        }
      }
      assert 2 <= e <= r && Divides(e, n);
    } else {
      assert 2 <= d <= r && Divides(d, n);
    }
  }

  /** Without a divisor up to the square root, a number has no proper divisor at all. */
  lemma TrialDivisionSuffices(n: int)
    requires n >= 2 && forall d :: 2 <= d <= ISqrt(n) ==> !Divides(d, n)
    ensures IsPrime(n)
  {
    forall d | 2 <= d < n
      ensures !Divides(d, n)
    {
      if Divides(d, n) {
        SmallDivisor(n, d);
      }
    }
  }

  /** A divisor up to the square root is a proper divisor. */
  lemma SmallDivisorIsProper(n: int, d: int)
    requires n >= 2 && 2 <= d <= ISqrt(n) && Divides(d, n)
    ensures !IsPrime(n)
  {
    var r := ISqrt(n);
    MulMonotone(2, d, d, r);
    assert d < n;
  }

  /** Strictly increasing. */
  predicate StrictlyIncreasing(s: seq<int>) {
    forall i, j :: 0 <= i < j < |s| ==> s[i] < s[j]
  }

  /** calculate_primes(maxNumber): every number from 2 to maxNumber is tried against the
      divisors 2..int(sqrt(num)), stopping at the first divisor found; the undivided ones
      are collected in increasing order. */
  method CalculatePrimes(maxNumber: int) returns (primes: seq<int>)
    ensures StrictlyIncreasing(primes)
    ensures forall p :: p in primes <==> 2 <= p <= maxNumber && IsPrime(p)
    ensures maxNumber < 2 ==> primes == []
  {
    primes := [];
    var num := 2;
    while num <= maxNumber
      invariant 2 <= num <= if maxNumber >= 2 then maxNumber + 1 else 2
      invariant StrictlyIncreasing(primes)
      invariant forall p :: p in primes <==> 2 <= p < num && IsPrime(p)
    {
      var isPrime := true;
      var bound := ISqrt(num);
      var i := 2;
      while i <= bound
        invariant 2 <= i <= bound + 1
        invariant isPrime <==> forall d :: 2 <= d < i ==> !Divides(d, num)
      {
        if num % i == 0 {
          SmallDivisorIsProper(num, i);
          isPrime := false;
          break;
        }
        i := i + 1;
      }
      if isPrime {
        TrialDivisionSuffices(num);
        assert forall k :: 0 <= k < |primes| ==> primes[k] in primes;
        primes := primes + [num];
      }
      num := num + 1;
    }
    if primes != [] {
      assert primes[0] in primes;
    }
  }

  /** sum(i ** 2 for i in range(n)) */
  function SumOfSquares(n: nat): nat {
    if n == 0 then 0 else SumOfSquares(n - 1) + (n - 1) * (n - 1)
  }

  lemma SquaresStep(m: int)
    ensures (m - 1) * m * (2 * m - 1) + 6 * (m * m) == m * (m + 1) * (2 * m + 1)
  {
    assert (m - 1) * m * (2 * m - 1) + 6 * (m * m) == m * ((m - 1) * (2 * m - 1) + 6 * m);
    assert (m - 1) * (2 * m - 1) + 6 * m == (m + 1) * (2 * m + 1);
  }

  /** 6 * (0^2 + 1^2 + ... + (n-1)^2) == (n-1) * n * (2n-1) */
  lemma {:induction false} SumOfSquaresClosedForm(n: nat)
    ensures 6 * SumOfSquares(n) == (n - 1) * n * (2 * n - 1)
  {
    if n > 0 {
      var m := n - 1;
      SumOfSquaresClosedForm(m);
      SquaresStep(m);
      assert SumOfSquares(n) == SumOfSquares(m) + m * m;
    }
  }

  /** cpu_task: the sum of the squares of 0..9999, whatever its argument. */
  function CpuTask(unused: int): (r: nat)
    ensures r == 333283335000
  {
    var n := 10000;
    SumOfSquaresClosedForm(n);
    SumOfSquares(n)
  }

  /** The run count of timing_decorator's default argument, which both CPU benchmarks keep. */
  const DEFAULT_RUNS: nat := 3

  /** The workload of the i-th run as the harness observes it: the same value every run,
      and the measured seconds. */
  function Trace<T>(value: T, seconds: nat -> real): (call: nat -> Invocation<T>)
    ensures forall i: nat :: call(i) == Returned(value, seconds(i))
    ensures forall k: nat :: Completes(call, k)
  {
    (i: nat) => Returned(value, seconds(i))
  }

  /** The timing dictionary a successful cpu_benchmark returns: the median of the first
      three durations of each benchmark, under its function's name. */
  ghost function CpuTimings(primeSeconds: nat -> real, parallelSeconds: nat -> real): Dictionary {
    map["calculate_primes" := Float(Median(Durations(Trace(0, primeSeconds), DEFAULT_RUNS))),
        "parallel_processing" := Float(Median(Durations(Trace(0, parallelSeconds), DEFAULT_RUNS)))]
  }

  /** The durations depend on the clock only, not on the values the runs returned. */
  lemma DurationsOfTrace<T>(value: T, seconds: nat -> real, k: nat)
    ensures Durations(Trace(value, seconds), k) == Durations(Trace(0, seconds), k)
  {
  }

  /** The integer value of an int (or bool) configuration setting. */
  function IntValue(v: Value): int
    requires IsInt(v)
  {
    if v.Bool? then (if v.b then 1 else 0) else v.i
  }

  /** cpu_benchmark(config): both benchmarks are decorated with the default three runs and
      the median and write into a fresh dictionary. The N_RUNS setting is only assigned
      as an attribute of the wrappers, which they never read. A prime limit that is not an
      int (or bool) makes `max_number + 1` or range() raise TypeError in the first run. */
  method CpuBenchmark(config: Dictionary, primeSeconds: nat -> real, parallelSeconds: nat -> real)
    returns (r: Result<TimingsMap, Exception>)
    ensures r.Err? <==> !IsInt(GetOr(config, "CPU_PRIME_LIMIT", Int(20000)))
    ensures r.Err? ==> r.error == TypeError
    ensures r.Ok? ==> fresh(r.value) && r.value.entries == CpuTimings(primeSeconds, parallelSeconds)
  {
    var timingResults := new TimingsMap();
    var calculatePrimes := new TimedFunction<seq<int>>("calculate_primes", DEFAULT_RUNS, true, timingResults);
    var parallelProcessing := new TimedFunction<()>("parallel_processing", DEFAULT_RUNS, true, timingResults);
    var primeLimit := GetOr(config, "CPU_PRIME_LIMIT", Int(20000));
    var nRuns := GetOr(config, "N_RUNS", Int(3));
    calculatePrimes.SetAttribute("n_runs", nRuns);
    parallelProcessing.SetAttribute("n_runs", nRuns);
    if !IsInt(primeLimit) {
      return Err(TypeError);
    }
    var primes := CalculatePrimes(IntValue(primeLimit));
    var _ := calculatePrimes.Call(Trace(primes, primeSeconds));
    DurationsOfTrace(primes, primeSeconds, DEFAULT_RUNS);
    var _ := parallelProcessing.Call(Trace((), parallelSeconds));
    DurationsOfTrace((), parallelSeconds, DEFAULT_RUNS);
    r := Ok(timingResults);
  }

  /** What the reference index makes of a CPU benchmark: 0.4 divided by the median prime
      calculation time. */
  lemma CpuBenchmarkScore(primeSeconds: nat -> real, parallelSeconds: nat -> real)
    ensures var t := Median(Durations(Trace(0, primeSeconds), DEFAULT_RUNS));
      ReferenceIndex.ScoreCpu(Dict(CpuTimings(primeSeconds, parallelSeconds)))
        == Ok(if t == 0.0 then 0.0 else 0.4 / t)
  {
    var d := CpuTimings(primeSeconds, parallelSeconds);
    assert "calculate_primes" in d;
  }

  lemma QuotientPositive(a: real, t: real)
    requires a > 0.0 && t > 0.0
    ensures a / t > 0.0
  {
  }

  /** When every timed run took some time, the CPU score is positive. */
  lemma CpuBenchmarkScorePositive(primeSeconds: nat -> real, parallelSeconds: nat -> real)
    requires forall i: nat :: i < DEFAULT_RUNS ==> primeSeconds(i) > 0.0
    ensures ReferenceIndex.ScoreCpu(Dict(CpuTimings(primeSeconds, parallelSeconds))).value > 0.0
  {
    var times := Durations(Trace(0, primeSeconds), DEFAULT_RUNS);
    forall i | 0 <= i < |times| ensures times[i] > 0.0 {
      assert times[i] == Trace(0, primeSeconds)(i).seconds == primeSeconds(i);
    }
    MedianPositive(times);
    var t := Median(times);
    CpuBenchmarkScore(primeSeconds, parallelSeconds);
    QuotientPositive(0.4, t);
  }
}
