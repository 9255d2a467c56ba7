/**
 * The configuration registry of benchHUB/config/config.py: the module-level default
 * settings, the three named profiles and the default profile name. Settings are Python
 * values: run counts and sizes are ints, shapes are pairs of ints.
 */
module Config {
  import opened PyValue

  function Pair(a: int, b: int): Value {
    Tuple([Int(a), Int(b)])
  }

  const N_RUNS_DEFAULT: Value := Int(3)
  const DISK_FILE_SIZE_DEFAULT: Value := Int(50_000_000)
  const CPU_ARRAY_SIZE_DEFAULT: Value := Int(1_000_000)
  const MEMORY_SHAPE_DEFAULT: Value := Pair(10_000, 10_000)
  const GPU_MATRIX_SHAPE_DEFAULT: Value := Pair(10_000, 10_000)
  const ANIMATION_FRAMES: Value := Int(100)
  const IMAGE_SHAPE: Value := Pair(4000, 4000)
  const PLOT_POINTS_DEFAULT: Value := Int(100_000)

  /** The eight settings every profile defines. */
  const SETTINGS: set<string> := {"N_RUNS", "DISK_FILE_SIZE", "CPU_ARRAY_SIZE", "MEMORY_SHAPE",
    "GPU_MATRIX_SHAPE", "ANIMATION_FRAMES", "IMAGE_SHAPE", "PLOT_POINTS"}

  const STANDARD: Dictionary := map[
    "N_RUNS" := Int(3),
    "DISK_FILE_SIZE" := Int(50_000_000),
    "CPU_ARRAY_SIZE" := Int(1_000_000),
    "MEMORY_SHAPE" := Pair(10_000, 10_000),
    "GPU_MATRIX_SHAPE" := Pair(10_000, 10_000),
    "ANIMATION_FRAMES" := Int(100),
    "IMAGE_SHAPE" := Pair(4000, 4000),
    "PLOT_POINTS" := Int(100_000)]

  const LIGHT: Dictionary := map[
    "N_RUNS" := Int(1),
    "DISK_FILE_SIZE" := Int(10_000_000),
    "CPU_ARRAY_SIZE" := Int(100_000),
    "MEMORY_SHAPE" := Pair(1_000, 1_000),
    "GPU_MATRIX_SHAPE" := Pair(1_000, 1_000),
    "ANIMATION_FRAMES" := Int(50),
    "IMAGE_SHAPE" := Pair(1000, 1000),
    "PLOT_POINTS" := Int(10_000)]

  const HEAVY: Dictionary := map[
    "N_RUNS" := Int(5),
    "DISK_FILE_SIZE" := Int(100_000_000),
    "CPU_ARRAY_SIZE" := Int(5_000_000),
    "MEMORY_SHAPE" := Pair(20_000, 20_000),
    "GPU_MATRIX_SHAPE" := Pair(20_000, 20_000),
    "ANIMATION_FRAMES" := Int(200),
    "IMAGE_SHAPE" := Pair(8000, 8000),
    "PLOT_POINTS" := Int(200_000)]

  /** CONFIG_PROFILES */
  const CONFIG_PROFILES: map<string, Dictionary> := map["standard" := STANDARD, "light" := LIGHT, "heavy" := HEAVY]

  const DEFAULT_CONFIG_NAME: string := "standard"

  /** The module's variables in definition order, as vars(config) lists them after the
      module's own dunder attributes (whose values do not matter to the validator). */
  const MODULE_VARS: seq<(string, Value)> := [
    ("__name__", Str("benchHUB.config.config")),
    ("__doc__", Null),
    ("N_RUNS_DEFAULT", N_RUNS_DEFAULT),
    ("DISK_FILE_SIZE_DEFAULT", DISK_FILE_SIZE_DEFAULT),
    ("CPU_ARRAY_SIZE_DEFAULT", CPU_ARRAY_SIZE_DEFAULT),
    ("MEMORY_SHAPE_DEFAULT", MEMORY_SHAPE_DEFAULT),
    ("GPU_MATRIX_SHAPE_DEFAULT", GPU_MATRIX_SHAPE_DEFAULT),
    ("ANIMATION_FRAMES", ANIMATION_FRAMES),
    ("IMAGE_SHAPE", IMAGE_SHAPE),
    ("PLOT_POINTS_DEFAULT", PLOT_POINTS_DEFAULT),
    ("CONFIG_PROFILES", Dict(map["standard" := Dict(STANDARD), "light" := Dict(LIGHT), "heavy" := Dict(HEAVY)])),
    ("DEFAULT_CONFIG_NAME", Str(DEFAULT_CONFIG_NAME))]

  /** The defaults, keyed as the profiles key them. */
  function DefaultSettings(): (d: Dictionary)
    ensures d.Keys == SETTINGS
  {
    map[
      "N_RUNS" := N_RUNS_DEFAULT,
      "DISK_FILE_SIZE" := DISK_FILE_SIZE_DEFAULT,
      "CPU_ARRAY_SIZE" := CPU_ARRAY_SIZE_DEFAULT,
      "MEMORY_SHAPE" := MEMORY_SHAPE_DEFAULT,
      "GPU_MATRIX_SHAPE" := GPU_MATRIX_SHAPE_DEFAULT,
      "ANIMATION_FRAMES" := ANIMATION_FRAMES,
      "IMAGE_SHAPE" := IMAGE_SHAPE,
      "PLOT_POINTS" := PLOT_POINTS_DEFAULT]
  }

  /** Setting a is strictly smaller than setting b: as ints, or componentwise as pairs. */
  predicate Smaller(a: Value, b: Value) {
    (a.Int? && b.Int? && a.i < b.i)
    || (a.Tuple? && b.Tuple? && |a.elems| == 2 == |b.elems|
        && a.elems[0].Int? && b.elems[0].Int? && a.elems[1].Int? && b.elems[1].Int?
        && a.elems[0].i < b.elems[0].i && a.elems[1].i < b.elems[1].i)
  }

  /** The three profiles define the same eight settings. */
  lemma ProfilesShareSettings()
    ensures CONFIG_PROFILES.Keys == {"standard", "light", "heavy"}
    ensures forall p :: p in CONFIG_PROFILES ==> CONFIG_PROFILES[p].Keys == SETTINGS
  {
  }

  /** Every profile runs each benchmark at least once. */
  lemma ProfilesRunAtLeastOnce()
    ensures forall p :: p in CONFIG_PROFILES ==>
      CONFIG_PROFILES[p]["N_RUNS"].Int? && CONFIG_PROFILES[p]["N_RUNS"].i >= 1
  {
  }

  /** Every setting grows strictly from light to standard to heavy. */
  lemma ProfilesOrdered()
    ensures forall k :: k in SETTINGS ==> Smaller(LIGHT[k], STANDARD[k]) && Smaller(STANDARD[k], HEAVY[k])
  {
  }

  /** The standard profile is the module-level defaults. */
  lemma StandardIsDefault()
    ensures CONFIG_PROFILES["standard"] == DefaultSettings()
  {
  }

  /** The default profile name names a profile. */
  lemma DefaultProfileExists()
    ensures DEFAULT_CONFIG_NAME in CONFIG_PROFILES
  {
  }
}
