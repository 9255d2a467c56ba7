/**
 * The per-file part of benchHUB/parse_benchmark_results.py: a result file's name gives
 * a timestamp string, and its decoded JSON document is flattened into one row, a
 * dictionary of fixed columns plus the ML timings and best parameters under prefixed
 * names, with legacy keys taking precedence over their current names. A file whose
 * flattening raises contributes no row.
 *
 * The directory listing is the sequence of files given; each file's content is its
 * decoded JSON document, or None when it is not valid JSON. pandas.to_datetime is a
 * parameter: a partial function from the timestamp string to a datetime value.
 */
module ParseResults {
  import opened Wrappers
  import opened PyValue
  import opened Strings
  import opened BenchMain
  import opened Filtering

  const EMPTY: Value := Dict(map[])
  const ZERO: Value := Float(0.0)

  /** The timestamp string cut out of a result file name: the save_results prefix (or
      its public variant) and the ".json" suffix are deleted wherever they occur, as
      str.replace does. */
  function TimestampString(file: string): (ts: string)
    ensures |ts| <= |file|
    ensures StartsWith(file, "benchmark_") ==> |ts| <= |file| - 10
    ensures StartsWith(file, "public_benchmark_") ==> |ts| <= |file| - 17
  {
    ReplaceDeletes(file, ".json");
    ReplaceDeletes(file, "benchmark_");
    ReplaceDeletes(Replace(file, "benchmark_", ""), ".json");
    ReplaceDeletes(file, "public_benchmark_");
    ReplaceDeletes(Replace(file, "public_benchmark_", ""), ".json");
    if StartsWith(file, "benchmark_") then Replace(Replace(file, "benchmark_", ""), ".json", "")
    else if StartsWith(file, "public_benchmark_") then Replace(Replace(file, "public_benchmark_", ""), ".json", "")
    else Replace(file, ".json", "")
  }

  /** A string over the characters strftime("%Y%m%d_%H%M%S") produces. */
  predicate TimestampChars(ts: string) {
    forall i :: 0 <= i < |ts| ==> IsDigit(ts[i]) || ts[i] == '_'
  }

  lemma {:induction false} NotInTimestamp(ts: string, c: char)
    requires TimestampChars(ts) && !IsDigit(c) && c != '_'
    ensures c !in ts + ".json" || c in ".json"
  {
  }

  /** Both file names save_results gives a timestamp string give it back. */
  lemma SavedNamesGiveTimestamp(ts: string)
    requires TimestampChars(ts)
    ensures TimestampString(LocalFilename(ts)) == ts
    ensures TimestampString(PublicFilename(ts)) == ts
  {
    LocalNameGivesTimestamp(ts);
    PublicNameGivesTimestamp(ts);
  }

  /** The local file name gives back its timestamp. */
  lemma LocalNameGivesTimestamp(ts: string)
    requires TimestampChars(ts)
    ensures TimestampString(LocalFilename(ts)) == ts
  {
    var rest := ts + ".json";
    assert 'b' !in rest && '.' !in ts by {
      NotInTimestamp(ts, 'b');
    }
    var local := LocalFilename(ts);
    assert local == "benchmark_" + rest;
    ReplaceLeading("benchmark_", rest, "");
    ReplaceAbsent(rest, "benchmark_", "");
    assert Replace(local, "benchmark_", "") == rest;
    ReplaceTrailing(ts, ".json");
  }

  /** The public file name gives back its timestamp. */
  lemma PublicNameGivesTimestamp(ts: string)
    requires TimestampChars(ts)
    ensures TimestampString(PublicFilename(ts)) == ts
  {
    var rest := ts + ".json";
    assert 'p' !in rest && '.' !in ts by {
      NotInTimestamp(ts, 'p');
    }
    var public := PublicFilename(ts);
    assert public == "public_benchmark_" + rest;
    assert !StartsWith(public, "benchmark_") by {
      assert public[0] == 'p';
    }
    ReplaceLeading("public_benchmark_", rest, "");
    ReplaceAbsent(rest, "public_benchmark_", "");
    assert Replace(public, "public_benchmark_", "") == rest;
    ReplaceTrailing(ts, ".json");
  }

  /** The timestamp save_results embeds in its file names is recovered from either name. */
  lemma SavedTimestampRoundTrip(now: DateTime)
    requires ValidDateTime(now)
    ensures TimestampString(LocalFilename(Strftime(now))) == Strftime(now)
    ensures TimestampString(PublicFilename(Strftime(now))) == Strftime(now)
  {
    var ts := Strftime(now);
    assert TimestampChars(ts) by {
      forall i | 0 <= i < |ts|
        ensures IsDigit(ts[i]) || ts[i] == '_'
      {
        if i != 8 {
          assert IsDigit(ts[i]);
        }
      }
    }
    SavedNamesGiveTimestamp(ts);
  }

  /** d.get(key, {}) where d must be a dictionary, whose own .get is called next: a
      value that is not a dictionary raises AttributeError there. */
  function Group(d: Dictionary, key: string): Result<Dictionary, Exception> {
    var g := GetOr(d, key, EMPTY);
    if g.Dict? then Ok(g.entries) else Err(AttributeError)
  }

  /** A column first set from its current key and then overwritten from the legacy key
      when the group has one. */
  function Overridden(current: Value, group: Dictionary, legacy: string): Value {
    if legacy in group then group[legacy] else current
  }

  /** The value under the first of `keys` the dictionary has, else the default: the
      precedence a legacy key and its current name are meant to have. */
  function Resolve(d: Dictionary, keys: seq<string>, default: Value): Value {
    if keys == [] then default
    else if keys[0] in d then d[keys[0]]
    else Resolve(d, keys[1..], default)
  }

  /** Setting from the current key and then overwriting from the legacy key is the
      precedence list [legacy, current] with default 0.0. */
  lemma OverriddenResolves(group: Dictionary, current: string, legacy: string)
    ensures Overridden(GetOr(group, current, ZERO), group, legacy) == Resolve(group, [legacy, current], ZERO)
  {
    assert [legacy, current][1..] == [current];
    assert [current][1..] == [];
    assert Resolve(group, [current], ZERO) == GetOr(group, current, ZERO);
  }

  /** ", ".join(items) over a sequence: every item must be a string. */
  function JoinStrings(items: seq<Value>): (r: Result<string, Exception>)
    ensures r.Err? <==> exists i :: 0 <= i < |items| && !items[i].Str?
  {
    if forall i :: 0 <= i < |items| ==> items[i].Str? then
      Ok(Join(", ", seq(|items|, i requires 0 <= i < |items| => items[i].s)))
    else Err(TypeError)
  }

  /** ", ".join(v) for the iterables a JSON value can be: the items of a list, or the
      characters of a string; anything else is not an iterable of strings. */
  function JoinIterable(v: Value): Result<string, Exception> {
    match v
    case List(items) => JoinStrings(items)
    case Tuple(items) => JoinStrings(items)
    case Str(s) => Ok(Join(", ", seq(|s|, i requires 0 <= i < |s| => [s[i]])))
    case _ => Err(TypeError)
  }

  /** ", ".join(gpu.get("name", default) for gpu in gpus). */
  function GpuListNames(gpus: seq<Value>, default: string): Result<string, Exception> {
    if exists i :: 0 <= i < |gpus| && !gpus[i].Dict? then Err(AttributeError)
    else JoinStrings(seq(|gpus|, i requires 0 <= i < |gpus| => GetOr(gpus[i].entries, "name", Str(default))))
  }

  /** The CPU model and core count, defaulting when system_info or its "cpu" entry is
      not a dictionary. */
  function CpuModelAndCores(si: Value): (Value, Value) {
    var defaults := (Str("Unknown CPU"), Str("Unknown Cores"));
    if !si.Dict? then defaults
    else
      var info := GetOr(si.entries, "cpu", EMPTY);
      if !info.Dict? then defaults
      else (GetOr(info.entries, "model", Str("Unknown CPU")), GetOr(info.entries, "cores", Str("Unknown Cores")))
  }

  /** The GPU names: the joined "gpus" list or its error string, falling back to the
      torch device names (or their error string) when that is empty or "Unknown GPU". */
  function GpuNames(si: Value): Result<string, Exception> {
    if !si.Dict? then Ok("Unknown GPU")
    else
      var gpuList := GetOr(si.entries, "gpus", List([]));
      var first :=
        if gpuList.List? then GpuListNames(gpuList.items, "Unknown GPU")
        else if gpuList.Str? then Ok(gpuList.s)
        else Ok("Unknown GPU");
      if first.Err? then first
      else if first.value == "" || first.value == "Unknown GPU" then
        var torch := GetOr(si.entries, "torch_gpus", EMPTY);
        if torch.Dict? then JoinIterable(GetOr(torch.entries, "device_names", List([Str("Unknown GPU")])))
        else if torch.Str? then Ok(torch.s)
        else first
      else first
  }

  /** The total memory, defaulting when system_info or its "memory" entry is not a dictionary. */
  function TotalMemory(si: Value): Value {
    if !si.Dict? then Str("Unknown")
    else
      var info := GetOr(si.entries, "memory", EMPTY);
      if info.Dict? then GetOr(info.entries, "total_gb", Str("Unknown")) else Str("Unknown")
  }

  /** The CPU_Cores column: int(cores), None when int() raises ValueError; any other
      exception (TypeError for None, a list or a dictionary) escapes. */
  function CoresColumn(cores: Value): (r: Result<Value, Exception>)
    ensures IntOf(cores).Ok? ==> r == Ok(Int(IntOf(cores).value))
    ensures IntOf(cores) == Err(ValueError) ==> r == Ok(Null)
    ensures r.Err? <==> IntOf(cores).Err? && IntOf(cores).error != ValueError
  {
    match IntOf(cores)
    case Ok(n) => Ok(Int(n))
    case Err(e) => if e == ValueError then Ok(Null) else Err(e)
  }

  /** Every key of d, with the prefix put in front. */
  function Prefixed(prefix: string, d: Dictionary): (r: Dictionary)
    ensures forall k :: k in d ==> prefix + k in r && r[prefix + k] == d[k]
    ensures forall key :: key in r ==> StartsWith(key, prefix) && key[|prefix|..] in d
  {
    var keys := set k | k in d :: prefix + k;
    assert forall k :: k in d ==> (prefix + k)[|prefix|..] == k;
    assert forall k :: k in d ==> (prefix + k)[..|prefix|] == prefix;
    map key | key in keys :: d[key[|prefix|..]]
  }

  /** The ML best parameters, flattened only when they form a dictionary. */
  function BestParams(ml: Dictionary): Dictionary {
    if "best_params" in ml && ml["best_params"].Dict? then ml["best_params"].entries else map[]
  }

  /** The ML timings, flattened only when they form a dictionary. */
  function Timings(ml: Dictionary): Dictionary {
    if "timings" in ml && ml["timings"].Dict? then ml["timings"].entries else map[]
  }

  /** One row of the table: the fixed columns, and the ML timings and best parameters
      that are flattened under prefixed column names. */
  datatype Row = Row(
    timestamp: Value, systemId: Value, os: Value, cpuModel: Value, cpuCores: Value,
    memoryTotal: Value, gpuNames: string,
    cpuFlops: Value, cpuParallel: Value, memoryAllocation: Value,
    gpuTensor: Value, gpuTraining: Value, diskWrite: Value, diskRead: Value,
    mlCreateDataset: Value, mlGridSearch: Value, mlBestScore: Value,
    plotScatter: Value, plotSine: Value, plotImage: Value, referenceIndex: Value,
    mlTimings: Dictionary, mlBestParams: Dictionary)

  /** The fixed column names of every row. */
  const COLUMNS: set<string> := {"timestamp", "system_id", "OS", "CPU_Model", "CPU_Cores",
    "Memory_Total_GB", "GPU_Names", "cpu_floating_point_operations", "cpu_parallel_processing",
    "memory_allocation", "gpu_tensor_operations", "gpu_tiny_training_loop", "disk_write_time",
    "disk_read_time", "ml_create_dataset", "ml_run_grid_search", "ml_best_score",
    "plot_generate_scatter_plot", "plot_animate_sine_wave", "plot_render_large_image",
    "reference_index"}

  function FixedColumns(r: Row): Dictionary {
    map[
      "timestamp" := r.timestamp, "system_id" := r.systemId, "OS" := r.os,
      "CPU_Model" := r.cpuModel, "CPU_Cores" := r.cpuCores, "Memory_Total_GB" := r.memoryTotal,
      "GPU_Names" := Str(r.gpuNames),
      "cpu_floating_point_operations" := r.cpuFlops, "cpu_parallel_processing" := r.cpuParallel,
      "memory_allocation" := r.memoryAllocation,
      "gpu_tensor_operations" := r.gpuTensor, "gpu_tiny_training_loop" := r.gpuTraining,
      "disk_write_time" := r.diskWrite, "disk_read_time" := r.diskRead,
      "ml_create_dataset" := r.mlCreateDataset, "ml_run_grid_search" := r.mlGridSearch,
      "ml_best_score" := r.mlBestScore,
      "plot_generate_scatter_plot" := r.plotScatter, "plot_animate_sine_wave" := r.plotSine,
      "plot_render_large_image" := r.plotImage, "reference_index" := r.referenceIndex]
  }

  /** The row as the dictionary appended to the data list: the flattened keys never
      collide with each other, and each flattened entry is found under its prefixed name. */
  function Columns(r: Row): (d: Dictionary)
    ensures forall k :: k in r.mlTimings ==> "ml_timings_" + k in d && d["ml_timings_" + k] == r.mlTimings[k]
    ensures forall k :: k in r.mlBestParams ==> "ml_best_params_" + k in d && d["ml_best_params_" + k] == r.mlBestParams[k]
  {
    var timings := Prefixed("ml_timings_", r.mlTimings);
    var params := Prefixed("ml_best_params_", r.mlBestParams);
    forall k | k in r.mlTimings
      ensures "ml_timings_" + k !in params
    {
      assert !StartsWith("ml_timings_" + k, "ml_best_params_") by {
        assert ("ml_timings_" + k)[3] == 't' != "ml_best_params_"[3];
      }
      assert "ml_timings_" + k in timings;
    }
    forall k | k in r.mlBestParams
      ensures "ml_best_params_" + k in params
    {
    }
    FixedColumns(r) + timings + params
  }

  /** The fixed columns are all there. */
  lemma ColumnsPresent(r: Row)
    ensures COLUMNS <= Columns(r).Keys
  {
  }

  /** The six benchmark groups of a result document, each of which must be a
      dictionary (or absent). */
  datatype Groups = Groups(cpu: Dictionary, mem: Dictionary, gpu: Dictionary, disk: Dictionary,
                           ml: Dictionary, mlTimings: Dictionary, plot: Dictionary)

  /** Every benchmark group, and the ML timings inside the ML group, is a dictionary
      or absent. */
  predicate GroupsPresent(result: Dictionary) {
    && GetOr(result, "cpu", EMPTY).Dict? && GetOr(result, "memory", EMPTY).Dict?
    && GetOr(result, "gpu", EMPTY).Dict? && GetOr(result, "disk", EMPTY).Dict?
    && GetOr(result, "ml", EMPTY).Dict? && GetOr(GetOr(result, "ml", EMPTY).entries, "timings", EMPTY).Dict?
    && GetOr(result, "plot", EMPTY).Dict?
  }

  function LookupGroups(result: Dictionary): (r: Result<Groups, Exception>)
    ensures r.Ok? <==> GroupsPresent(result)
    ensures r.Err? ==> r.error == AttributeError
  {
    match (Group(result, "cpu"), Group(result, "memory"), Group(result, "gpu"), Group(result, "disk"), Group(result, "ml"))
    case (Ok(cpu), Ok(mem), Ok(gpu), Ok(disk), Ok(ml)) =>
      (match (Group(ml, "timings"), Group(result, "plot"))
       case (Ok(mlTimings), Ok(plot)) => Ok(Groups(cpu, mem, gpu, disk, ml, mlTimings, plot))
       case _ => Err(AttributeError))
    case _ => Err(AttributeError)
  }

  /** The row of a document whose groups were all found, from its system_info
      dictionary, GPU names, core count column and groups. */
  function Assemble(result: Dictionary, si: Value, gpuNames: string, cores: Value, g: Groups, timestamp: Value): Row
    requires si.Dict?
  {
    var cpuInfo := CpuModelAndCores(si);
    var memory := TotalMemory(si);
    Row(
      timestamp,
      Tuple([GetOr(si.entries, "os", Str("Unknown OS")), cpuInfo.0, cpuInfo.1, Str(gpuNames), memory]),
      GetOr(si.entries, "os", Str("Unknown")), cpuInfo.0, cores, memory, gpuNames,
      Overridden(GetOr(g.cpu, "floating_point_operations", ZERO), g.cpu, "floating_point"),
      GetOr(g.cpu, "parallel_processing", ZERO),
      GetOr(g.mem, "allocation", ZERO),
      Overridden(GetOr(g.gpu, "tensor_operations", ZERO), g.gpu, "matrix_multiplication"),
      GetOr(g.gpu, "tiny_training_loop", ZERO),
      GetOr(g.disk, "write_time", ZERO), GetOr(g.disk, "read_time", ZERO),
      GetOr(g.mlTimings, "create_dataset", ZERO),
      Overridden(GetOr(g.mlTimings, "run_grid_search", ZERO), g.ml, "grid_search_time"),
      GetOr(g.ml, "best_score", ZERO),
      Overridden(GetOr(g.plot, "generate_scatter_plot", ZERO), g.plot, "scatter_plot_time"),
      Overridden(GetOr(g.plot, "animate_sine_wave", ZERO), g.plot, "animation_time"),
      Overridden(GetOr(g.plot, "render_large_image", ZERO), g.plot, "large_image_time"),
      GetOr(result, "reference_index", ZERO),
      Timings(g.ml), BestParams(g.ml))
  }

  /** The row built from one decoded result document, or the exception that discards it. */
  function BuildRow(content: Value, timestamp: Value): (r: Result<Row, Exception>)
    ensures !content.Dict? ==> r == Err(AttributeError)
    ensures content.Dict? && GpuNames(GetOr(content.entries, "system_info", EMPTY)).Err? ==>
      r == Err(GpuNames(GetOr(content.entries, "system_info", EMPTY)).error)
    ensures r.Ok? ==> content.Dict? && GetOr(content.entries, "system_info", EMPTY).Dict?
                      && LookupGroups(content.entries).Ok?
    ensures content.Dict? ==>
      var si := GetOr(content.entries, "system_info", EMPTY);
      (r.Ok? <==> && GpuNames(si).Ok? && si.Dict? && CoresColumn(CpuModelAndCores(si).1).Ok?
                  && GroupsPresent(content.entries))
    ensures r.Ok? ==> r.value.timestamp == timestamp
  {
    if !content.Dict? then Err(AttributeError)
    else
      var result := content.entries;
      var si := GetOr(result, "system_info", EMPTY);
      match GpuNames(si)
      case Err(e) => Err(e)
      case Ok(gpuNames) =>
        if !si.Dict? then Err(AttributeError)
        else match CoresColumn(CpuModelAndCores(si).1)
          case Err(e) => Err(e)
          case Ok(cores) =>
            match LookupGroups(result)
            case Err(e) => Err(e)
            case Ok(g) => Ok(Assemble(result, si, gpuNames, cores, g, timestamp))
  }

  /** A document that yields a row has a system_info dictionary and every group, and its
      row is assembled from them. */
  lemma BuildRowParts(result: Dictionary, timestamp: Value, row: Row)
    requires BuildRow(Dict(result), timestamp) == Ok(row)
    ensures var si := GetOr(result, "system_info", EMPTY);
      && si.Dict? && GpuNames(si).Ok? && CoresColumn(CpuModelAndCores(si).1).Ok? && LookupGroups(result).Ok?
      && row == Assemble(result, si, GpuNames(si).value, CoresColumn(CpuModelAndCores(si).1).value,
                         LookupGroups(result).value, timestamp)
  {
  }

  /** The groups found are the dictionaries stored under their keys. */
  lemma LookupGroupsFound(result: Dictionary, g: Groups)
    requires LookupGroups(result) == Ok(g)
    ensures GetOr(result, "cpu", EMPTY) == Dict(g.cpu) && GetOr(result, "memory", EMPTY) == Dict(g.mem)
    ensures GetOr(result, "gpu", EMPTY) == Dict(g.gpu) && GetOr(result, "disk", EMPTY) == Dict(g.disk)
    ensures GetOr(result, "ml", EMPTY) == Dict(g.ml) && GetOr(g.ml, "timings", EMPTY) == Dict(g.mlTimings)
    ensures GetOr(result, "plot", EMPTY) == Dict(g.plot)
  {
  }

  /** The CPU columns: the legacy 'floating_point' key wins over 'floating_point_operations',
      and absent keys give 0.0. */
  lemma CpuColumns(result: Dictionary, timestamp: Value, row: Row, cpu: Dictionary)
    requires BuildRow(Dict(result), timestamp) == Ok(row) && GetOr(result, "cpu", EMPTY) == Dict(cpu)
    ensures row.cpuFlops == Resolve(cpu, ["floating_point", "floating_point_operations"], ZERO)
    ensures row.cpuParallel == GetOr(cpu, "parallel_processing", ZERO)
  {
    BuildRowParts(result, timestamp, row);
    LookupGroupsFound(result, LookupGroups(result).value);
    OverriddenResolves(cpu, "floating_point_operations", "floating_point");
  }

  /** The GPU columns: the legacy 'matrix_multiplication' key wins over 'tensor_operations'. */
  lemma GpuColumns(result: Dictionary, timestamp: Value, row: Row, gpu: Dictionary)
    requires BuildRow(Dict(result), timestamp) == Ok(row) && GetOr(result, "gpu", EMPTY) == Dict(gpu)
    ensures row.gpuTensor == Resolve(gpu, ["matrix_multiplication", "tensor_operations"], ZERO)
    ensures row.gpuTraining == GetOr(gpu, "tiny_training_loop", ZERO)
  {
    BuildRowParts(result, timestamp, row);
    LookupGroupsFound(result, LookupGroups(result).value);
    OverriddenResolves(gpu, "tensor_operations", "matrix_multiplication");
  }

  /** The plot columns: each of the three legacy keys wins over its current name. */
  lemma PlotColumns(result: Dictionary, timestamp: Value, row: Row, plot: Dictionary)
    requires BuildRow(Dict(result), timestamp) == Ok(row) && GetOr(result, "plot", EMPTY) == Dict(plot)
    ensures row.plotScatter == Resolve(plot, ["scatter_plot_time", "generate_scatter_plot"], ZERO)
    ensures row.plotSine == Resolve(plot, ["animation_time", "animate_sine_wave"], ZERO)
    ensures row.plotImage == Resolve(plot, ["large_image_time", "render_large_image"], ZERO)
  {
    BuildRowParts(result, timestamp, row);
    LookupGroupsFound(result, LookupGroups(result).value);
    OverriddenResolves(plot, "generate_scatter_plot", "scatter_plot_time");
    OverriddenResolves(plot, "animate_sine_wave", "animation_time");
    OverriddenResolves(plot, "render_large_image", "large_image_time");
  }

  /** The ML columns: the grid search time comes from the legacy top-level
      'grid_search_time' when present, else from the timings; the timings dictionary is
      flattened whole, and the best parameters when they form a dictionary. */
  lemma MlColumns(result: Dictionary, timestamp: Value, row: Row, ml: Dictionary, timings: Dictionary)
    requires BuildRow(Dict(result), timestamp) == Ok(row)
    requires GetOr(result, "ml", EMPTY) == Dict(ml) && GetOr(ml, "timings", EMPTY) == Dict(timings)
    ensures row.mlGridSearch == if "grid_search_time" in ml then ml["grid_search_time"]
                                else GetOr(timings, "run_grid_search", ZERO)
    ensures row.mlCreateDataset == GetOr(timings, "create_dataset", ZERO)
    ensures row.mlBestScore == GetOr(ml, "best_score", ZERO)
    ensures row.mlTimings == timings
    ensures "best_params" in ml && ml["best_params"].Dict? ==> row.mlBestParams == ml["best_params"].entries
    ensures !("best_params" in ml && ml["best_params"].Dict?) ==> row.mlBestParams == map[]
  {
    BuildRowParts(result, timestamp, row);
    LookupGroupsFound(result, LookupGroups(result).value);
  }

  /** The flattened ML entries appear in the appended dictionary under their prefixed names. */
  lemma MlFlattened(result: Dictionary, timestamp: Value, row: Row, ml: Dictionary, timings: Dictionary, k: string)
    requires BuildRow(Dict(result), timestamp) == Ok(row)
    requires GetOr(result, "ml", EMPTY) == Dict(ml) && GetOr(ml, "timings", EMPTY) == Dict(timings)
    requires k in timings
    ensures "ml_timings_" + k in Columns(row) && Columns(row)["ml_timings_" + k] == timings[k]
  {
    MlColumns(result, timestamp, row, ml, timings);
  }

  /** The remaining columns: the timestamp given, the reference index (0.0 when absent),
      the OS and memory as recorded, and the core count as an int, or None when int()
      rejects it with ValueError. */
  lemma SystemColumns(result: Dictionary, timestamp: Value, row: Row, si: Dictionary)
    requires BuildRow(Dict(result), timestamp) == Ok(row) && GetOr(result, "system_info", EMPTY) == Dict(si)
    ensures row.timestamp == timestamp
    ensures row.referenceIndex == GetOr(result, "reference_index", ZERO)
    ensures row.os == GetOr(si, "os", Str("Unknown"))
    ensures row.memoryTotal == TotalMemory(Dict(si))
    ensures var cores := CpuModelAndCores(Dict(si)).1;
      row.cpuCores == match IntOf(cores) case Ok(n) => Int(n) case Err(_) => Null
    ensures row.systemId == Tuple([GetOr(si, "os", Str("Unknown OS")), row.cpuModel, CpuModelAndCores(Dict(si)).1,
                                   Str(row.gpuNames), row.memoryTotal])
  {
    BuildRowParts(result, timestamp, row);
    LookupGroupsFound(result, LookupGroups(result).value);
  }

  /** A file contributes no row when its document is not a dictionary, when its
      system_info is not one, or when one of its benchmark groups is present but not a
      dictionary -- including the error string gpu_benchmark returns when no GPU is
      usable -- or when its core count makes int() raise anything but ValueError. */
  lemma DiscardedDocuments(content: Value, timestamp: Value)
    requires content.Dict? ==>
      var result := content.entries;
      var si := GetOr(result, "system_info", EMPTY);
      || !si.Dict?
      || (exists key :: key in {"cpu", "memory", "gpu", "disk", "ml", "plot"} && !GetOr(result, key, EMPTY).Dict?)
      || (var cores := IntOf(CpuModelAndCores(si).1); cores.Err? && cores.error != ValueError)
    ensures BuildRow(content, timestamp).Err?
  {
  }

  /** A result file as listed: its name and its decoded JSON document, None when it does
      not decode. */
  datatype ResultFile = ResultFile(name: string, content: Option<Value>)

  /** The timestamp column of a listed file: its name's timestamp as a datetime, or
      NaT (Null here) when pandas cannot parse it. */
  function FileTimestamp(name: string, toDatetime: string -> Option<Value>): Value {
    match toDatetime(TimestampString(name)) case Some(t) => t case None => Null
  }

  /** The row one listed file contributes, if any: only ".json" files that decode are
      read, and the row is built exactly when the document yields one. */
  function RowOf(file: ResultFile, toDatetime: string -> Option<Value>): (r: Option<Row>)
    ensures r.Some? <==> && EndsWith(file.name, ".json") && file.content.Some?
                         && BuildRow(file.content.value, FileTimestamp(file.name, toDatetime)).Ok?
    ensures r.Some? ==> r.value.timestamp == FileTimestamp(file.name, toDatetime)
    ensures r.Some? ==> BuildRow(file.content.value, r.value.timestamp) == Ok(r.value)
  {
    if !EndsWith(file.name, ".json") || file.content.None? then None
    else
      match BuildRow(file.content.value, FileTimestamp(file.name, toDatetime))
      case Ok(row) => Some(row)
      case Err(_) => None
  }

  /** The rows of the listed files, in listing order. */
  function Rows(files: seq<ResultFile>, toDatetime: string -> Option<Value>): (rows: seq<Row>)
    ensures |rows| <= |files|
  {
    if files == [] then []
    else
      var init := Rows(files[..|files| - 1], toDatetime);
      match RowOf(files[|files| - 1], toDatetime)
      case Some(row) => init + [row]
      case None => init
  }

  /** The rows of the listed files are what RowOf collects from them. */
  lemma {:induction false} RowsCollected(files: seq<ResultFile>, toDatetime: string -> Option<Value>)
    ensures Rows(files, toDatetime) == Collect(files, f => RowOf(f, toDatetime))
  {
    if files != [] {
      RowsCollected(files[..|files| - 1], toDatetime);
    }
  }

  /** The positions, in listing order, of exactly the files that yield a row. */
  function BuiltIndices(files: seq<ResultFile>, toDatetime: string -> Option<Value>): (ix: seq<nat>)
    ensures forall k :: 0 <= k < |ix| ==> ix[k] < |files| && RowOf(files[ix[k]], toDatetime).Some?
    ensures forall k, l :: 0 <= k < l < |ix| ==> ix[k] < ix[l]
    ensures forall i :: 0 <= i < |files| && RowOf(files[i], toDatetime).Some? ==> i in ix
  {
    Kept(files, f => RowOf(f, toDatetime))
  }

  /** Row k is the row of the k-th file that yields one: nothing is dropped, added or
      reordered. */
  lemma RowsByIndex(files: seq<ResultFile>, toDatetime: string -> Option<Value>)
    ensures |Rows(files, toDatetime)| == |BuiltIndices(files, toDatetime)|
    ensures forall k :: 0 <= k < |Rows(files, toDatetime)| ==>
      Some(Rows(files, toDatetime)[k]) == RowOf(files[BuiltIndices(files, toDatetime)[k]], toDatetime)
  {
    RowsCollected(files, toDatetime);
    CollectByIndex(files, f => RowOf(f, toDatetime));
  }

  /** At most one row per file, and every row is the row of some listed file. */
  lemma RowsFromFiles(files: seq<ResultFile>, toDatetime: string -> Option<Value>)
    ensures |Rows(files, toDatetime)| <= |files|
    ensures forall j :: 0 <= j < |Rows(files, toDatetime)| ==>
      exists i :: 0 <= i < |files| && RowOf(files[i], toDatetime) == Some(Rows(files, toDatetime)[j])
  {
    RowsByIndex(files, toDatetime);
    var ix := BuiltIndices(files, toDatetime);
    forall j | 0 <= j < |Rows(files, toDatetime)|
      ensures exists i :: 0 <= i < |files| && RowOf(files[i], toDatetime) == Some(Rows(files, toDatetime)[j])
    {
      assert RowOf(files[ix[j]], toDatetime) == Some(Rows(files, toDatetime)[j]);
    }
  }

  /** Every file that yields a row is represented: the rows of a listing extended by one
      file are the old rows followed by that file's row, if any. */
  lemma RowsOfAppend(files: seq<ResultFile>, file: ResultFile, toDatetime: string -> Option<Value>)
    ensures RowOf(file, toDatetime).None? ==> Rows(files + [file], toDatetime) == Rows(files, toDatetime)
    ensures RowOf(file, toDatetime).Some? ==>
      Rows(files + [file], toDatetime) == Rows(files, toDatetime) + [RowOf(file, toDatetime).value]
  {
    assert (files + [file])[..|files|] == files;
  }

  /** The rows of the first i + 1 files: those of the first i, then the row of file i. */
  lemma RowsPrefixStep(files: seq<ResultFile>, i: nat, toDatetime: string -> Option<Value>)
    requires i < |files|
    ensures RowOf(files[i], toDatetime).None? ==> Rows(files[..i + 1], toDatetime) == Rows(files[..i], toDatetime)
    ensures RowOf(files[i], toDatetime).Some? ==>
      Rows(files[..i + 1], toDatetime) == Rows(files[..i], toDatetime) + [RowOf(files[i], toDatetime).value]
  {
    assert files[..i + 1] == files[..i] + [files[i]];
    RowsOfAppend(files[..i], files[i], toDatetime);
  }

  /** parse_benchmark_results up to the DataFrame: each listed file is visited once, in
      order, and its row, if any, appended to the data list. */
  method ParseResults(files: seq<ResultFile>, toDatetime: string -> Option<Value>) returns (data: seq<Row>)
    ensures data == Rows(files, toDatetime)
    ensures |data| == |BuiltIndices(files, toDatetime)|
    ensures forall k :: 0 <= k < |data| ==>
      Some(data[k]) == RowOf(files[BuiltIndices(files, toDatetime)[k]], toDatetime)
  {
    RowsByIndex(files, toDatetime);
    data := [];
    var i := 0;
    while i < |files|
      invariant 0 <= i <= |files|
      invariant data == Rows(files[..i], toDatetime)
    {
      RowsPrefixStep(files, i, toDatetime);
      var found := RowOf(files[i], toDatetime);
      if found.Some? {
        data := data + [found.value];
      }
      i := i + 1;
    }
    assert files[..i] == files;
  }
}
