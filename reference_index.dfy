/**
 * The reference index of benchHUB/reference_index.py: each hardware component is
 * scored as its weight divided by the component's timing (lower time is better), a
 * missing, zero or unusable timing scores 0, and the index is 1000 times the sum of
 * the three weighted component scores.
 */
module ReferenceIndex {
  import opened Wrappers
  import opened PyValue

  const CPU_WEIGHT: real := 0.4
  const GPU_WEIGHT: real := 0.4
  const MEMORY_WEIGHT: real := 0.2

  /** calculate_reference_index: the component scores are already weighted, so they are
      summed and scaled by 1000. */
  function CalculateReferenceIndex(cpu: real, gpu: real, memory: real): (r: real)
    ensures 0.0 <= cpu && 0.0 <= gpu && 0.0 <= memory ==> 0.0 <= r
    ensures cpu == gpu == memory ==> r == 3000.0 * cpu
  {
    (cpu + gpu + memory) * 1000.0
  }

  /** The index does not depend on which component a score came from. */
  lemma ReferenceIndexSymmetric(c: real, g: real, m: real)
    ensures CalculateReferenceIndex(c, g, m) == CalculateReferenceIndex(g, c, m)
    ensures CalculateReferenceIndex(c, g, m) == CalculateReferenceIndex(c, m, g)
  {
  }

  /** The index is linear: it maps sums of score triples to sums and scales with them. */
  lemma ReferenceIndexLinear(c1: real, g1: real, m1: real, c2: real, g2: real, m2: real, k: real)
    ensures CalculateReferenceIndex(c1 + c2, g1 + g2, m1 + m2)
         == CalculateReferenceIndex(c1, g1, m1) + CalculateReferenceIndex(c2, g2, m2)
    ensures CalculateReferenceIndex(k * c1, k * g1, k * m1) == k * CalculateReferenceIndex(c1, g1, m1)
  {
  }

  /** What every scorer does once it holds a timing value: None or a value equal to 0
      gives 0, a number gives weight / time, and anything else makes `1.0 / time` raise
      TypeError, which the scorer catches and turns into 0. */
  function WeightedInverse(time: Value, weight: real): (score: real)
    ensures IsNumber(time) && AsReal(time) != 0.0 ==> score == weight / AsReal(time)
    ensures !(IsNumber(time) && AsReal(time) != 0.0) ==> score == 0.0
  {
    if time.Null? || EqualsZero(time) then 0.0
    else if IsNumber(time) then
      var t := AsReal(time);
      assert (1.0 / t) * weight == weight / t;
      (1.0 / t) * weight
    else 0.0
  }

  /** score_cpu: inverse prime-calculation time. Only TypeError and KeyError are caught,
      so a non-dict argument (whose .get raises AttributeError) is an error. */
  function ScoreCpu(cpuResults: Value): (r: Result<real, Exception>)
    ensures r.Ok? <==> cpuResults.Dict?
    ensures r.Ok? ==> r.value == WeightedInverse(Get(cpuResults.entries, "calculate_primes"), CPU_WEIGHT)
  {
    match cpuResults
    case Dict(d) => Ok(WeightedInverse(Get(d, "calculate_primes"), CPU_WEIGHT))
    case _ => Err(AttributeError)
  }

  /** score_gpu: the "GPU unavailable" string result and any falsy result score 0;
      'tensor_operations' is used unless falsy, then 'gpu_tensor_operations'. */
  function ScoreGpu(gpuResults: Value): (r: Result<real, Exception>)
    ensures gpuResults.Str? || !Truthy(gpuResults) ==> r == Ok(0.0)
    ensures r.Err? <==> !gpuResults.Str? && Truthy(gpuResults) && !gpuResults.Dict?
    ensures gpuResults.Dict? ==>
      r.value == WeightedInverse(Or(Get(gpuResults.entries, "tensor_operations"),
                                    Get(gpuResults.entries, "gpu_tensor_operations")), GPU_WEIGHT)
  {
    if gpuResults.Str? || !Truthy(gpuResults) then Ok(0.0)
    else match gpuResults
      case Dict(d) =>
        Ok(WeightedInverse(Or(Get(d, "tensor_operations"), Get(d, "gpu_tensor_operations")), GPU_WEIGHT))
      case _ => Err(AttributeError)
  }

  /** score_memory: 'bandwidth' unless falsy, then 'memory_bandwidth'. A non-dict
      argument (None included) raises AttributeError. */
  function ScoreMemory(memoryResults: Value): (r: Result<real, Exception>)
    ensures r.Ok? <==> memoryResults.Dict?
    ensures memoryResults.Dict? ==>
      r.value == WeightedInverse(Or(Get(memoryResults.entries, "bandwidth"),
                                    Get(memoryResults.entries, "memory_bandwidth")), MEMORY_WEIGHT)
  {
    match memoryResults
    case Dict(d) => Ok(WeightedInverse(Or(Get(d, "bandwidth"), Get(d, "memory_bandwidth")), MEMORY_WEIGHT))
    case _ => Err(AttributeError)
  }

  /** The first candidate key whose value is truthy, or None: the alias table of a
      component written as data (current key first, then its legacy names). */
  function FirstTruthy(d: Dictionary, keys: seq<string>): (v: Value)
    ensures v.Null? || Truthy(v)
    ensures Truthy(v) ==> exists k :: k in keys && k in d && d[k] == v
  {
    if keys == [] then Null
    else if Truthy(Get(d, keys[0])) then Get(d, keys[0])
    else FirstTruthy(d, keys[1..])
  }

  /** Scoring through the alias table gives the same score as the source's chained `or`. */
  lemma {:induction false} AliasTableAgrees(d: Dictionary, current: string, legacy: string, weight: real)
    ensures WeightedInverse(Or(Get(d, current), Get(d, legacy)), weight)
         == WeightedInverse(FirstTruthy(d, [current, legacy]), weight)
  {
    assert [current, legacy][1..] == [legacy];
    assert [legacy][1..] == [];
  }

  /** score_cpu of a missing or zero timing is 0. */
  lemma ScoreCpuMissingOrZero(d: Dictionary)
    requires "calculate_primes" !in d || EqualsZero(d["calculate_primes"])
    ensures ScoreCpu(Dict(d)) == Ok(0.0)
  {
  }

  /** score_cpu of a nonzero numeric time t is 0.4 / t; a positive time scores positively. */
  lemma ScoreCpuOfTime(d: Dictionary, t: real)
    requires t != 0.0 && "calculate_primes" in d && d["calculate_primes"] == Float(t)
    ensures ScoreCpu(Dict(d)) == Ok(CPU_WEIGHT / t)
    ensures t > 0.0 ==> ScoreCpu(Dict(d)).value > 0.0
  {
  }

  /** A non-numeric timing (a string, a list, ...) makes the division raise TypeError,
      which is caught: the score is 0. */
  lemma ScoreCpuNonNumeric(d: Dictionary)
    requires "calculate_primes" in d && !IsNumber(d["calculate_primes"])
    ensures ScoreCpu(Dict(d)) == Ok(0.0)
  {
  }

  /** score_gpu of the "GPU unavailable" message returned by the GPU benchmark, or of an
      empty result, is 0. */
  lemma ScoreGpuUnavailable(message: string)
    ensures ScoreGpu(Str(message)) == Ok(0.0)
    ensures ScoreGpu(Null) == Ok(0.0)
    ensures ScoreGpu(Dict(map[])) == Ok(0.0)
  {
  }

  /** score_gpu falls back to 'gpu_tensor_operations' exactly when 'tensor_operations'
      is absent or falsy. */
  lemma ScoreGpuFallback(d: Dictionary, t: real)
    requires d != map[] && t != 0.0
    requires "gpu_tensor_operations" in d && d["gpu_tensor_operations"] == Float(t)
    requires "tensor_operations" !in d || !Truthy(d["tensor_operations"])
    ensures ScoreGpu(Dict(d)) == Ok(GPU_WEIGHT / t)
  {
  }

  /** score_memory reads 'bandwidth', else 'memory_bandwidth', and is 0 when neither is usable. */
  lemma ScoreMemoryAliases(d: Dictionary, t: real)
    requires t != 0.0
    ensures "bandwidth" in d && d["bandwidth"] == Float(t) ==> ScoreMemory(Dict(d)) == Ok(MEMORY_WEIGHT / t)
    ensures ("bandwidth" !in d || !Truthy(d["bandwidth"])) && "memory_bandwidth" in d
            && d["memory_bandwidth"] == Float(t)
            ==> ScoreMemory(Dict(d)) == Ok(MEMORY_WEIGHT / t)
    ensures !Truthy(Get(d, "bandwidth")) && !Truthy(Get(d, "memory_bandwidth")) ==> ScoreMemory(Dict(d)) == Ok(0.0)
  {
  }

  /** A result bag whose timings are all non-negative never yields a negative score or index. */
  lemma NonNegativeTimingsGiveNonNegativeIndex(cpu: Dictionary, gpu: Value, memory: Dictionary)
    requires forall k :: k in cpu && IsNumber(cpu[k]) ==> AsReal(cpu[k]) >= 0.0
    requires forall k :: k in memory && IsNumber(memory[k]) ==> AsReal(memory[k]) >= 0.0
    requires gpu.Dict? ==> forall k :: k in gpu.entries && IsNumber(gpu.entries[k]) ==> AsReal(gpu.entries[k]) >= 0.0
    requires ScoreGpu(gpu).Ok?
    ensures 0.0 <= CalculateReferenceIndex(ScoreCpu(Dict(cpu)).value, ScoreGpu(gpu).value,
                                          ScoreMemory(Dict(memory)).value)
  {
    NonNegativeInverse(Get(cpu, "calculate_primes"), CPU_WEIGHT);
    NonNegativeInverse(Or(Get(memory, "bandwidth"), Get(memory, "memory_bandwidth")), MEMORY_WEIGHT);
    if gpu.Dict? && !gpu.Str? && Truthy(gpu) {
      var d := gpu.entries;
      NonNegativeInverse(Or(Get(d, "tensor_operations"), Get(d, "gpu_tensor_operations")), GPU_WEIGHT);
    }
  }

  lemma NonNegativeInverse(time: Value, weight: real)
    requires weight >= 0.0
    requires IsNumber(time) ==> AsReal(time) >= 0.0
    ensures WeightedInverse(time, weight) >= 0.0
  {
  }

  // ---------------------------------------------------------------------------
  // The memory benchmark (benchHUB/memory_bench.py) reports its timing under
  // 'allocation', a key score_memory never reads.

  /** The bag memory_benchmark returns. */
  function MemoryBenchmarkResult(allocation: Value): (bag: Value)
    ensures bag.Dict? && bag.entries.Keys == {"allocation"} && bag.entries["allocation"] == allocation
    ensures "bandwidth" !in bag.entries && "memory_bandwidth" !in bag.entries
  {
    Dict(map["allocation" := allocation])
  }

  /** As written, a memory benchmark result scores 0 whatever its timing. */
  lemma MemoryBenchmarkScoresZero(t: real)
    requires t > 0.0
    ensures ScoreMemory(MemoryBenchmarkResult(Float(t))) == Ok(0.0)
  {
  }

  /** score_memory with 'allocation' added as the last alias, as the seeding script reads it. */
  function ScoreMemoryCorrected(memoryResults: Value): (r: Result<real, Exception>)
    ensures r.Ok? <==> memoryResults.Dict?
    ensures memoryResults.Dict? ==>
      r.value == WeightedInverse(FirstTruthy(memoryResults.entries, ["bandwidth", "memory_bandwidth", "allocation"]),
                                 MEMORY_WEIGHT)
  {
    match memoryResults
    case Dict(d) => Ok(WeightedInverse(FirstTruthy(d, ["bandwidth", "memory_bandwidth", "allocation"]), MEMORY_WEIGHT))
    case _ => Err(AttributeError)
  }

  /** The corrected scorer gives a memory benchmark result of time t the score 0.2 / t,
      and agrees with score_memory on every bag that has a usable 'bandwidth' key. */
  lemma {:induction false} CorrectedScoresMemoryBenchmark(t: real, d: Dictionary)
    requires t > 0.0
    ensures ScoreMemoryCorrected(MemoryBenchmarkResult(Float(t))) == Ok(MEMORY_WEIGHT / t)
    ensures Truthy(Get(d, "bandwidth")) ==> ScoreMemoryCorrected(Dict(d)) == ScoreMemory(Dict(d))
  {
    var m := map["allocation" := Float(t)];
    var keys := ["bandwidth", "memory_bandwidth", "allocation"];
    assert keys[1..] == ["memory_bandwidth", "allocation"];
    assert keys[1..][1..] == ["allocation"];
    assert FirstTruthy(m, ["allocation"]) == Float(t);
    assert FirstTruthy(m, ["memory_bandwidth", "allocation"]) == Float(t);
  }
}
