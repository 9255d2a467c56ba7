/**
 * The two pieces of benchHUB/main.py that are logic rather than orchestration: the
 * name-driven type check of the configuration module's variables, and the naming
 * scheme of the result files save_results writes.
 */
module BenchMain {
  import opened Wrappers
  import opened PyValue
  import opened Strings
  import Config

  /** The check one module variable must pass: dunder names are skipped, a name
      containing "SIZE" needs an int (bools included) and one containing "SHAPE" a
      tuple of length 2; every other name passes whatever its value. */
  predicate Acceptable(name: string, value: Value) {
    StartsWith(name, "__")
    || ((!Contains(name, "SIZE") || IsInt(value))
        && (!Contains(name, "SHAPE") || (value.Tuple? && |value.elems| == 2)))
  }

  /** validate_configuration: the variables are checked in order and the first one
      that fails raises ValueError naming it. */
  function ValidateConfiguration(vars: seq<(string, Value)>): (r: Result<(), (Exception, string)>)
    ensures r.Ok? <==> forall i :: 0 <= i < |vars| ==> Acceptable(vars[i].0, vars[i].1)
    ensures r.Err? ==> r.error.0 == ValueError
    ensures r.Err? ==>
      exists k :: 0 <= k < |vars| && r.error.1 == vars[k].0 && !Acceptable(vars[k].0, vars[k].1)
                  && forall j :: 0 <= j < k ==> Acceptable(vars[j].0, vars[j].1)
  {
    if vars == [] then Ok(())
    else
      var (name, value) := vars[0];
      if !StartsWith(name, "__") && Contains(name, "SIZE") && !IsInt(value) then
        Err((ValueError, name))
      else if !StartsWith(name, "__") && Contains(name, "SHAPE") && !(value.Tuple? && |value.elems| == 2) then
        Err((ValueError, name))
      else
        var r := ValidateConfiguration(vars[1..]);
        assert forall i :: 1 <= i < |vars| ==> vars[i] == vars[1..][i - 1];
        if r.Err? then
          var k :| 0 <= k < |vars[1..]| && r.error.1 == vars[1..][k].0
            && !Acceptable(vars[1..][k].0, vars[1..][k].1)
            && forall j :: 0 <= j < k ==> Acceptable(vars[1..][j].0, vars[1..][j].1);
          assert vars[k + 1] == vars[1..][k];
          r
        else r
  }

  /** A name lacking one of the characters of `sub` cannot contain `sub`. */
  lemma {:induction false} MissingCharNotContained(s: string, sub: string, c: char)
    requires c in sub && c !in s
    ensures !Contains(s, sub)
    decreases |s|
  {
    if |s| > 0 {
      MissingCharNotContained(s[1..], sub, c);
    }
  }

  /** A variable whose name lacks 'Z' cannot be caught by the "SIZE" rule, and one whose
      name lacks 'H' cannot be caught by the "SHAPE" rule. */
  lemma AcceptableByLetters(name: string, value: Value)
    requires 'Z' !in name || IsInt(value)
    requires 'H' !in name || (value.Tuple? && |value.elems| == 2)
    ensures Acceptable(name, value)
  {
    if 'Z' !in name {
      MissingCharNotContained(name, "SIZE", 'Z');
    }
    if 'H' !in name {
      MissingCharNotContained(name, "SHAPE", 'H');
    }
  }

  /** The names that contain neither "SIZE" nor "SHAPE" pass whatever their value. */
  lemma FreeNamesAcceptable(v: Value)
    ensures Acceptable("N_RUNS_DEFAULT", v) && Acceptable("ANIMATION_FRAMES", v)
    ensures Acceptable("PLOT_POINTS_DEFAULT", v)
  {
    AcceptableByLetters("N_RUNS_DEFAULT", v);
    AcceptableByLetters("ANIMATION_FRAMES", v);
    AcceptableByLetters("PLOT_POINTS_DEFAULT", v);
  }

  /** So do the names of the profile table and of the default profile. */
  lemma ProfileNamesAcceptable(v: Value)
    ensures Acceptable("CONFIG_PROFILES", v) && Acceptable("DEFAULT_CONFIG_NAME", v)
  {
    AcceptableByLetters("CONFIG_PROFILES", v);
    AcceptableByLetters("DEFAULT_CONFIG_NAME", v);
  }

  /** The "SIZE" names pass with an int. */
  lemma SizeNamesAcceptable(v: Value)
    requires IsInt(v)
    ensures Acceptable("DISK_FILE_SIZE_DEFAULT", v) && Acceptable("CPU_ARRAY_SIZE_DEFAULT", v)
  {
    AcceptableByLetters("DISK_FILE_SIZE_DEFAULT", v);
    AcceptableByLetters("CPU_ARRAY_SIZE_DEFAULT", v);
  }

  /** The "SHAPE" names pass with a pair. */
  lemma ShapeNamesAcceptable(v: Value)
    requires v.Tuple? && |v.elems| == 2
    ensures Acceptable("MEMORY_SHAPE_DEFAULT", v) && Acceptable("GPU_MATRIX_SHAPE_DEFAULT", v)
    ensures Acceptable("IMAGE_SHAPE", v)
  {
    AcceptableByLetters("MEMORY_SHAPE_DEFAULT", v);
    AcceptableByLetters("GPU_MATRIX_SHAPE_DEFAULT", v);
    AcceptableByLetters("IMAGE_SHAPE", v);
  }

  /** Each variable of the configuration module as shipped passes its check. */
  lemma ShippedVariablesAcceptable()
    ensures forall i :: 0 <= i < |Config.MODULE_VARS| ==>
      Acceptable(Config.MODULE_VARS[i].0, Config.MODULE_VARS[i].1)
  {
    var vars := Config.MODULE_VARS;
    forall i | 0 <= i < |vars|
      ensures Acceptable(vars[i].0, vars[i].1)
    {
      var (name, value) := vars[i];
      if i < 2 {
        assert StartsWith(name, "__");
      } else if i == 3 || i == 4 {
        SizeNamesAcceptable(value);
      } else if i == 5 || i == 6 || i == 8 {
        ShapeNamesAcceptable(value);
      } else if i < 10 {
        FreeNamesAcceptable(value);
      } else {
        ProfileNamesAcceptable(value);
      }
    }
  }

  /** The configuration module as shipped passes validation. */
  lemma ShippedConfigurationIsValid()
    ensures ValidateConfiguration(Config.MODULE_VARS).Ok?
  {
    ShippedVariablesAcceptable();
  }

  /** A point in time as datetime.now() returns it. */
  datatype DateTime = DateTime(year: int, month: int, day: int, hour: int, minute: int, second: int)

  predicate ValidDateTime(t: DateTime) {
    1 <= t.year <= 9999 && 1 <= t.month <= 12 && 1 <= t.day <= 31
    && 0 <= t.hour < 24 && 0 <= t.minute < 60 && 0 <= t.second < 60
  }

  function Pow10(w: nat): (p: nat)
    ensures p >= 1
  {
    if w == 0 then 1 else 10 * Pow10(w - 1)
  }

  /** n written with exactly `width` decimal digits, zero-padded on the left. */
  function Padded(n: nat, width: nat): (s: string)
    requires n < Pow10(width)
    ensures |s| == width && AllDigits(s)
    ensures DigitsValue(s) == n
  {
    if width == 0 then ""
    else
      var init := Padded(n / 10, width - 1);
      var s := init + [DigitChar(n % 10)];
      assert s[..|s| - 1] == init;
      s
  }

  /** strftime("%Y%m%d_%H%M%S"): fifteen characters, all digits but the underscore at
      position 8, from which each field reads back. */
  function Strftime(t: DateTime): (ts: string)
    requires ValidDateTime(t)
    ensures |ts| == 15 && ts[8] == '_'
    ensures forall i :: 0 <= i < 15 && i != 8 ==> IsDigit(ts[i])
    ensures DigitsValue(ts[..4]) == t.year && DigitsValue(ts[4..6]) == t.month
    ensures DigitsValue(ts[6..8]) == t.day && DigitsValue(ts[9..11]) == t.hour
    ensures DigitsValue(ts[11..13]) == t.minute && DigitsValue(ts[13..]) == t.second
  {
    var y, mo, d := Padded(t.year, 4), Padded(t.month, 2), Padded(t.day, 2);
    var h, mi, s := Padded(t.hour, 2), Padded(t.minute, 2), Padded(t.second, 2);
    var ts := y + mo + d + "_" + h + mi + s;
    assert ts[..4] == y && ts[4..6] == mo && ts[6..8] == d;
    assert ts[9..11] == h && ts[11..13] == mi && ts[13..] == s;
    ts
  }

  /** os.path.join(dir, name) for two path components. */
  function PathJoin(dir: string, name: string): (p: string)
    ensures StartsWith(name, "/") ==> p == name
    ensures !StartsWith(name, "/") ==> EndsWith(p, name)
  {
    if StartsWith(name, "/") then name
    else if dir == [] || EndsWith(dir, "/") then dir + name
    else dir + "/" + name
  }

  /** The local result file name: the timestamp between "benchmark_" and ".json". */
  function LocalFilename(ts: string): (name: string)
    ensures StartsWith(name, "benchmark_") && EndsWith(name, ".json")
  {
    "benchmark_" + ts + ".json"
  }

  /** The public result file name: the timestamp between "public_benchmark_" and ".json". */
  function PublicFilename(ts: string): (name: string)
    ensures StartsWith(name, "public_benchmark_") && EndsWith(name, ".json")
  {
    "public_benchmark_" + ts + ".json"
  }

  /** The paths save_results writes, in order: the local file, then the public one when
      sharing; both carry the timestamp of the same clock read and end in ".json". */
  function SaveResultsPaths(resultsDir: string, now: DateTime, sharePublic: bool): (paths: seq<string>)
    requires ValidDateTime(now)
    ensures |paths| == if sharePublic then 2 else 1
    ensures EndsWith(paths[0], LocalFilename(Strftime(now)))
    ensures sharePublic ==> EndsWith(paths[1], PublicFilename(Strftime(now)))
    ensures forall i :: 0 <= i < |paths| ==> EndsWith(paths[i], ".json")
  {
    var ts := Strftime(now);
    var local := PathJoin(resultsDir, LocalFilename(ts));
    var public := PathJoin(resultsDir, PublicFilename(ts));
    EndsWithTransitive(local, LocalFilename(ts), ".json");
    EndsWithTransitive(public, PublicFilename(ts), ".json");
    if sharePublic then [local, public] else [local]
  }

  lemma EndsWithTransitive(s: string, t: string, u: string)
    requires EndsWith(s, t) && EndsWith(t, u)
    ensures EndsWith(s, u)
  {
    assert s[|s| - |u|..] == t[|t| - |u|..];
  }
}
