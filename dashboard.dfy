/**
 * dashboard.py, the data behind the leaderboard page: the records the leaderboard
 * service returns are shaped into display rows, the configuration selector lists the
 * profiles present in a fixed order, each listing shows one configuration ranked by
 * reference index, a uuid search shows the first match within two places either side
 * of it in its configuration's ranking, and scores are shown as whole numbers with
 * their thousands separated by spaces.
 *
 * The HTTP request, the Streamlit widgets and the HTML of the cards are not modelled:
 * the received records, the selected configuration and the typed uuid filter are
 * parameters, and json.loads is the `decode` parameter (None where it raises).
 */
module Dashboard {
  import opened Wrappers
  import opened PyValue
  import opened Strings
  import opened Sorting
  import ParseResults

  /** One entry of processed_data. */
  datatype Row = Row(id: Value, referenceIndex: real, configName: Value, uuid: Value,
                     cpuModel: Value, gpuModel: string, memoryTotal: Value, timestamp: Value)

  function Score(r: Row): real {
    r.referenceIndex
  }

  const EMPTY: Value := Dict(map[])

  /** The gpu_model column: the names of a non-empty "gpus" list, else the torch device
      names, else "N/A". */
  function GpuModel(si: Dictionary): (r: Result<string, Exception>)
    ensures r.Err? ==> r.error == TypeError || r.error == AttributeError
    ensures r.Err? ==> ("gpus" in si && si["gpus"].List? && si["gpus"].items != [])
                       || ("torch_gpus" in si && si["torch_gpus"].Dict?)
  {
    if "gpus" in si && si["gpus"].List? && si["gpus"].items != [] then
      ParseResults.GpuListNames(si["gpus"].items, "N/A")
    else if "torch_gpus" in si && si["torch_gpus"].Dict? then
      ParseResults.JoinIterable(GetOr(si["torch_gpus"].entries, "device_names", List([Str("N/A")])))
    else Ok("N/A")
  }

  /** A non-empty list of named GPUs shows their names, joined by ", ", whatever the
      torch entry holds. */
  lemma GpuModelFromList(si: Dictionary, names: seq<string>)
    requires "gpus" in si && si["gpus"].List? && |si["gpus"].items| == |names| > 0
    requires forall i :: 0 <= i < |names| ==>
      si["gpus"].items[i].Dict? && "name" in si["gpus"].items[i].entries
      && si["gpus"].items[i].entries["name"] == Str(names[i])
    ensures GpuModel(si) == Ok(Join(", ", names))
  {
    var items := si["gpus"].items;
    var shown := seq(|items|, i requires 0 <= i < |items| => GetOr(items[i].entries, "name", Str("N/A")));
    assert !exists i :: 0 <= i < |items| && !items[i].Dict?;
    assert forall i :: 0 <= i < |items| ==> shown[i] == Str(names[i]);
    assert forall i :: 0 <= i < |shown| ==> shown[i].Str?;
    assert seq(|shown|, i requires 0 <= i < |shown| => shown[i].s) == names;
    assert ParseResults.GpuListNames(items, "N/A") == ParseResults.JoinStrings(shown);
  }

  /** Without a usable "gpus" list, the torch device names are shown, "N/A" when the
      torch entry has none; with neither, the model is "N/A". */
  lemma GpuModelFallback(si: Dictionary)
    requires !("gpus" in si && si["gpus"].List? && si["gpus"].items != [])
    ensures !("torch_gpus" in si && si["torch_gpus"].Dict?) ==> GpuModel(si) == Ok("N/A")
    ensures "torch_gpus" in si && si["torch_gpus"].Dict? && "device_names" !in si["torch_gpus"].entries
            ==> GpuModel(si) == Ok("N/A")
  {
    var shown := [Str("N/A")];
    assert seq(|shown|, i requires 0 <= i < |shown| => shown[i].s) == ["N/A"];
  }

  /** Without a usable "gpus" list, a torch entry listing device names shows those
      names, joined by ", ". */
  lemma GpuModelFromTorch(si: Dictionary, names: seq<string>)
    requires !("gpus" in si && si["gpus"].List? && si["gpus"].items != [])
    requires "torch_gpus" in si && si["torch_gpus"].Dict? && "device_names" in si["torch_gpus"].entries
    requires si["torch_gpus"].entries["device_names"] == List(seq(|names|, i requires 0 <= i < |names| => Str(names[i])))
    ensures GpuModel(si) == Ok(Join(", ", names))
  {
    var items := si["torch_gpus"].entries["device_names"].items;
    assert forall i :: 0 <= i < |items| ==> items[i] == Str(names[i]);
    assert seq(|items|, i requires 0 <= i < |items| => items[i].s) == names;
  }

  /** Without a usable "gpus" list, a device names list holding something other than a
      string, or device names held in something other than a list, tuple or string,
      raise TypeError. */
  lemma GpuModelTorchRejects(si: Dictionary)
    requires !("gpus" in si && si["gpus"].List? && si["gpus"].items != [])
    requires "torch_gpus" in si && si["torch_gpus"].Dict? && "device_names" in si["torch_gpus"].entries
    ensures var names := si["torch_gpus"].entries["device_names"];
      names.List? && (exists i :: 0 <= i < |names.items| && !names.items[i].Str?)
      ==> GpuModel(si) == Err(TypeError)
    ensures var names := si["torch_gpus"].entries["device_names"];
      !(names.List? || names.Tuple? || names.Str?) ==> GpuModel(si) == Err(TypeError)
  {
  }

  /** The loop body: one received record as a display row. json.loads of something
      other than a string raises TypeError and of malformed text ValueError; a decoded
      system information that is not a dictionary has no .get; a missing "id" or
      "reference_index" raises KeyError. */
  function ShapeRow(record: Dictionary, decode: string -> Option<Value>): (r: Result<Row, Exception>)
    ensures !GetOr(record, "system_info", Str("{}")).Str? ==> r == Err(TypeError)
    ensures var text := GetOr(record, "system_info", Str("{}"));
      text.Str? && decode(text.s).None? ==> r == Err(ValueError)
    ensures var text := GetOr(record, "system_info", Str("{}"));
      text.Str? && decode(text.s).Some? && !decode(text.s).value.Dict? ==> r == Err(AttributeError)
    ensures r.Ok? ==>
      && "id" in record && "reference_index" in record
      && IsNumber(record["reference_index"])
      && r.value.id == record["id"]
      && r.value.referenceIndex == AsReal(record["reference_index"])
      && r.value.configName == GetOr(record, "config_name", Str("standard"))
      && r.value.uuid == GetOr(record, "uuid", Str("N/A"))
      && r.value.timestamp == GetOr(record, "timestamp", Str("N/A"))
    ensures r.Ok? ==>
      var text := GetOr(record, "system_info", Str("{}"));
      && text.Str? && decode(text.s).Some? && decode(text.s).value.Dict?
      && var si := decode(text.s).value.entries;
      && GetOr(si, "cpu", EMPTY).Dict? && GetOr(si, "memory", EMPTY).Dict?
      && r.value.cpuModel == GetOr(GetOr(si, "cpu", EMPTY).entries, "model", Str("Unknown CPU"))
      && GpuModel(si) == Ok(r.value.gpuModel)
      && r.value.memoryTotal == GetOr(GetOr(si, "memory", EMPTY).entries, "total_gb", Str("N/A"))
    ensures r.Ok? <==>
      var text := GetOr(record, "system_info", Str("{}"));
      && text.Str? && decode(text.s).Some? && decode(text.s).value.Dict?
      && var si := decode(text.s).value.entries;
      && GpuModel(si).Ok? && "id" in record && "reference_index" in record
      && GetOr(si, "cpu", EMPTY).Dict? && GetOr(si, "memory", EMPTY).Dict?
      && IsNumber(record["reference_index"])
  {
    var text := GetOr(record, "system_info", Str("{}"));
    if !text.Str? then Err(TypeError)
    else
      match decode(text.s)
      case None => Err(ValueError)
      case Some(si) =>
        if !si.Dict? then Err(AttributeError)
        else
          var cpuInfo := GetOr(si.entries, "cpu", EMPTY);
          var memInfo := GetOr(si.entries, "memory", EMPTY);
          match GpuModel(si.entries)
          case Err(e) => Err(e)
          case Ok(gpu) =>
            if "id" !in record || "reference_index" !in record then Err(KeyError)
            else if !cpuInfo.Dict? || !memInfo.Dict? then Err(AttributeError)
            else if !IsNumber(record["reference_index"]) then Err(TypeError)
            else
              Ok(Row(record["id"], AsReal(record["reference_index"]),
                     GetOr(record, "config_name", Str("standard")), GetOr(record, "uuid", Str("N/A")),
                     GetOr(cpuInfo.entries, "model", Str("Unknown CPU")), gpu,
                     GetOr(memInfo.entries, "total_gb", Str("N/A")),
                     GetOr(record, "timestamp", Str("N/A"))))
  }

  /** processed_data after the loop has read `records`, or the exception that ends it. */
  function ShapeAll(records: seq<Dictionary>, decode: string -> Option<Value>): (r: Result<seq<Row>, Exception>)
    ensures r.Ok? ==> |r.value| == |records|
    ensures r.Ok? ==> forall i :: 0 <= i < |records| ==> ShapeRow(records[i], decode) == Ok(r.value[i])
    ensures r.Err? ==> exists i :: 0 <= i < |records| && ShapeRow(records[i], decode).Err?
  {
    if records == [] then Ok([])
    else
      var n := |records| - 1;
      assert forall i :: 0 <= i < n ==> records[..n][i] == records[i];
      match ShapeAll(records[..n], decode)
      case Err(e) => Err(e)
      case Ok(rows) =>
        match ShapeRow(records[n], decode)
        case Err(e) => Err(e)
        case Ok(row) => Ok(rows + [row])
  }

  lemma ShapeAllStep(records: seq<Dictionary>, decode: string -> Option<Value>, i: nat)
    requires i < |records|
    ensures ShapeAll(records[..i + 1], decode) ==
      match ShapeAll(records[..i], decode)
      case Err(e) => Err(e)
      case Ok(rows) =>
        match ShapeRow(records[i], decode)
        case Err(e) => Err(e)
        case Ok(row) => Ok(rows + [row])
  {
    assert records[..i + 1][..i] == records[..i];
    assert records[..i + 1][i] == records[i];
  }

  lemma ShapeAllErrorSticks(records: seq<Dictionary>, decode: string -> Option<Value>, i: nat)
    requires i <= |records| && ShapeAll(records[..i], decode).Err?
    ensures ShapeAll(records, decode) == ShapeAll(records[..i], decode)
    decreases |records| - i
  {
    if i < |records| {
      ShapeAllStep(records, decode, i);
      ShapeAllErrorSticks(records, decode, i + 1);
    } else {
      assert records[..i] == records;
    }
  }

  /** The processed_data loop: one row appended per received record. */
  method ShapeRows(records: seq<Dictionary>, decode: string -> Option<Value>) returns (r: Result<seq<Row>, Exception>)
    ensures r == ShapeAll(records, decode)
  {
    var processed: seq<Row> := [];
    var i := 0;
    while i < |records|
      invariant 0 <= i <= |records|
      invariant ShapeAll(records[..i], decode) == Ok(processed)
    {
      ShapeAllStep(records, decode, i);
      var shaped := ShapeRow(records[i], decode);
      if shaped.Err? {
        ShapeAllErrorSticks(records, decode, i + 1);
        return Err(shaped.error);
      }
      processed := processed + [shaped.value];
      i := i + 1;
    }
    assert records[..i] == records;
    r := Ok(processed);
  }

  const PROFILE_ORDER: seq<string> := ["heavy", "standard", "light"]

  /** Some row belongs to the configuration. */
  predicate Present(rows: seq<Row>, profile: string) {
    exists r :: r in rows && r.configName == Str(profile)
  }

  /** The names of `order` present among the rows, in the order given. */
  function Available(order: seq<string>, rows: seq<Row>): (r: seq<string>)
    ensures forall p :: p in r <==> p in order && Present(rows, p)
  {
    if order == [] then []
    else
      var rest := Available(order[1..], rows);
      assert forall p :: p in order <==> p == order[0] || p in order[1..];
      if Present(rows, order[0]) then [order[0]] + rest else rest
  }

  lemma AvailableFirst(order: seq<string>, rows: seq<Row>)
    requires order != []
    ensures Available(order, rows) == (if Present(rows, order[0]) then [order[0]] else []) + Available(order[1..], rows)
  {
  }

  lemma AvailableProfiles(rows: seq<Row>)
    ensures Available(PROFILE_ORDER, rows) == (if Present(rows, "heavy") then ["heavy"] else [])
                                           + (if Present(rows, "standard") then ["standard"] else [])
                                           + (if Present(rows, "light") then ["light"] else [])
  {
    AvailableFirst(["light"], rows);
    AvailableFirst(["standard", "light"], rows);
    AvailableFirst(PROFILE_ORDER, rows);
    assert ["light"][1..] == [];
    assert ["standard", "light"][1..] == ["light"];
    assert PROFILE_ORDER[1..] == ["standard", "light"];
  }

  /** The configuration selector: "All", then heavy, standard and light, each only when
      some row has it, in that order. */
  function ProfileSelector(rows: seq<Row>): (r: seq<string>)
    ensures r == ["All"] + (if Present(rows, "heavy") then ["heavy"] else [])
                         + (if Present(rows, "standard") then ["standard"] else [])
                         + (if Present(rows, "light") then ["light"] else [])
  {
    AvailableProfiles(rows);
    ["All"] + Available(PROFILE_ORDER, rows)
  }

  /** The string with its spaces removed. */
  function Unspaced(s: string): string {
    if s == [] then []
    else (if s[0] == ' ' then [] else [s[0]]) + Unspaced(s[1..])
  }

  lemma {:induction false} UnspacedAppend(a: string, b: string)
    ensures Unspaced(a + b) == Unspaced(a) + Unspaced(b)
  {
    if a == [] {
      assert a + b == b;
    } else {
      assert (a + b)[1..] == a[1..] + b;
      UnspacedAppend(a[1..], b);
    }
  }

  lemma {:induction false} UnspacedDigits(d: string)
    requires AllDigits(d)
    ensures Unspaced(d) == d
  {
    if d != [] {
      assert AllDigits(d[1..]) by {
        forall i | 0 <= i < |d[1..]| ensures IsDigit(d[1..][i]) {
          assert d[1..][i] == d[i + 1];
        }
      }
      UnspacedDigits(d[1..]);
      assert IsDigit(d[0]);
    }
  }

  /** A space sits exactly at every fourth place counted from the end. */
  ghost predicate Grouped(r: string) {
    forall i :: 0 <= i < |r| ==> (r[i] == ' ' <==> (|r| - i) % 4 == 0)
  }

  /** Appending a space and a group of three digits keeps the grouping. */
  lemma GroupedStep(grouped: string, tail: string)
    requires Grouped(grouped) && |tail| == 3 && AllDigits(tail)
    ensures Grouped(grouped + " " + tail)
  {
    var r := grouped + " " + tail;
    forall i | 0 <= i < |r| ensures (r[i] == ' ' <==> (|r| - i) % 4 == 0) {
      if i < |grouped| {
        assert r[i] == grouped[i];
        assert (|r| - i) % 4 == (|grouped| - i) % 4;
      } else if i > |grouped| {
        assert r[i] == tail[i - |grouped| - 1];
        assert IsDigit(tail[i - |grouped| - 1]);
      }
    }
  }

  /** Removing the spaces of a grouped prefix, the separator and a group of digits. */
  lemma UnspacedStep(grouped: string, tail: string)
    requires AllDigits(tail)
    ensures Unspaced(grouped + " " + tail) == Unspaced(grouped) + tail
  {
    var spaced := grouped + " ";
    UnspacedAppend(spaced, tail);
    UnspacedAppend(grouped, " ");
    UnspacedDigits(tail);
    assert Unspaced(" ") == [] by {
      assert " "[0] == ' ' && " "[1..] == [];
    }
    assert Unspaced(spaced) == Unspaced(grouped);
  }

  /** The digits split into groups of three from the right, joined by single spaces:
      removing the spaces gives the digits back, and a space sits exactly at every
      fourth place counted from the end. */
  function GroupThousands(d: string): (r: string)
    requires |d| >= 1 && AllDigits(d)
    ensures Unspaced(r) == d
    ensures |r| == |d| + (|d| - 1) / 3
    ensures Grouped(r)
  {
    if |d| <= 3 then
      UnspacedDigits(d);
      assert forall i :: 0 <= i < |d| ==> IsDigit(d[i]);
      d
    else
      var head := d[..|d| - 3];
      var tail := d[|d| - 3..];
      assert AllDigits(head) by {
        forall i | 0 <= i < |head| ensures IsDigit(head[i]) {
          assert head[i] == d[i];
        }
      }
      assert AllDigits(tail) by {
        forall i | 0 <= i < |tail| ensures IsDigit(tail[i]) {
          assert tail[i] == d[|d| - 3 + i];
        }
      }
      var grouped := GroupThousands(head);
      UnspacedStep(grouped, tail);
      GroupedStep(grouped, tail);
      assert head + tail == d;
      grouped + " " + tail
  }

  /** The displayed score: int(reference_index), truncated toward zero, written with
      ",", thousands separators that are then replaced by spaces. */
  function FormatScore(score: real): (shown: string)
    ensures |shown| >= 1
    ensures shown[0] == '-' <==> Trunc(score) < 0
  {
    var n := Trunc(score);
    var magnitude := if n < 0 then -n else n;
    GroupedLeadsWithDigit(NatToDecimal(magnitude));
    (if n < 0 then "-" else "") + GroupThousands(NatToDecimal(magnitude))
  }

  /** Grouped digits start with a digit, never with a separator or a sign. */
  lemma {:induction false} GroupedLeadsWithDigit(d: string)
    requires |d| >= 1 && AllDigits(d)
    ensures IsDigit(GroupThousands(d)[0])
    decreases |d|
  {
    if |d| > 3 {
      var head := d[..|d| - 3];
      assert AllDigits(head) by {
        forall i | 0 <= i < |head| ensures IsDigit(head[i]) {
          assert head[i] == d[i];
        }
      }
      GroupedLeadsWithDigit(head);
      assert GroupThousands(d)[0] == GroupThousands(head)[0];
    } else {
      assert IsDigit(d[0]);
    }
  }

  /** Reading the shown score without its spaces gives back the truncated reference
      index. */
  lemma FormatScoreRoundTrip(score: real)
    ensures Unspaced(FormatScore(score)) == IntToString(Trunc(score))
    ensures ParseInt(Unspaced(FormatScore(score))) == Some(Trunc(score))
  {
    var n := Trunc(score);
    var magnitude := if n < 0 then -n else n;
    var grouped := GroupThousands(NatToDecimal(magnitude));
    if n < 0 {
      UnspacedAppend("-", grouped);
      assert Unspaced("-") == "-";
    } else {
      assert "" + grouped == grouped;
    }
    ParseIntToString(n);
  }

  /** The uuid column `str.startswith(prefix, na=False)`: a uuid that is not a string
      never matches. */
  predicate UuidMatches(r: Row, prefix: string) {
    r.uuid.Str? && StartsWith(r.uuid.s, prefix)
  }

  /** search_result_df.iloc[0]: the position of the first row whose uuid starts with
      the filter. */
  function FindFirst(rows: seq<Row>, prefix: string): (r: Option<nat>)
    ensures r.Some? ==> r.value < |rows| && UuidMatches(rows[r.value], prefix)
                        && forall j :: 0 <= j < r.value ==> !UuidMatches(rows[j], prefix)
    ensures r.None? ==> forall j :: 0 <= j < |rows| ==> !UuidMatches(rows[j], prefix)
  {
    if rows == [] then None
    else if UuidMatches(rows[0], prefix) then Some(0)
    else
      match FindFirst(rows[1..], prefix)
      case None => None
      case Some(i) => Some(i + 1)
  }

  /** The rows of one configuration, in processed order. */
  function InProfile(rows: seq<Row>, config: Value): (r: seq<Row>)
    ensures forall x :: x in r <==> x in rows && x.configName == config
  {
    if rows == [] then []
    else
      var rest := InProfile(rows[1..], config);
      assert forall x :: x in rows <==> x == rows[0] || x in rows[1..];
      if rows[0].configName == config then [rows[0]] + rest else rest
  }

  /** A configuration's ranking: its rows by non-increasing reference index. */
  function Ranking(rows: seq<Row>, config: Value): (r: seq<Row>)
    ensures multiset(r) == multiset(InProfile(rows, config))
    ensures |r| == |InProfile(rows, config)|
    ensures Descending(r, Score)
    ensures forall x :: x in r <==> x in rows && x.configName == config
  {
    var ranking := SortDescending(InProfile(rows, config), Score);
    assert forall x :: x in ranking <==> x in multiset(InProfile(rows, config));
    assert |multiset(ranking)| == |multiset(InProfile(rows, config))|;
    ranking
  }

  /** A card of a listing: its rank, its row, and whether it is the search result. */
  datatype Card = Card(rank: nat, row: Row, highlighted: bool)

  /** The cards of ranking[start..end], ranked by their place in the whole ranking
      (reset_index, then i + 1), the search result highlighted. */
  function Cards(ranking: seq<Row>, start: nat, end: nat, target: Option<Value>): (cards: seq<Card>)
    requires start <= end <= |ranking|
    ensures |cards| == end - start
    ensures forall k :: 0 <= k < |cards| ==>
      cards[k].rank == start + k + 1 && cards[k].row == ranking[start + k]
      && (cards[k].highlighted <==> target == Some(ranking[start + k].uuid))
  {
    seq(end - start, k requires 0 <= k < end - start =>
      Card(start + k + 1, ranking[start + k], target == Some(ranking[start + k].uuid)))
  }

  /** The slice around a match: up to two rows before and two after it, as many as the
      ranking has. */
  function ContextWindow(n: nat, i: nat): (w: (nat, nat))
    requires i < n
    ensures w.0 <= i < w.1 <= n && w.1 - w.0 <= 5
    ensures i - w.0 == if i < 2 then i else 2
    ensures w.1 - (i + 1) == if n - (i + 1) < 2 then n - (i + 1) else 2
  {
    var context := 2;
    var start := if i - context > 0 then i - context else 0;
    var end := if n < i + context + 1 then n else i + context + 1;
    (start, end)
  }

  /** The first position of the uuid in a ranking that holds it. */
  function PositionOf(ranking: seq<Row>, uuid: Value): (i: nat)
    requires exists r :: r in ranking && r.uuid == uuid
    ensures i < |ranking| && ranking[i].uuid == uuid
    ensures forall j :: 0 <= j < i ==> ranking[j].uuid != uuid
  {
    if ranking[0].uuid == uuid then 0
    else
      assert exists r :: r in ranking[1..] && r.uuid == uuid by {
        var r :| r in ranking && r.uuid == uuid;
        assert r != ranking[0];
        var k :| 0 <= k < |ranking| && ranking[k] == r;
        assert ranking[1..][k - 1] == r;
      }
      PositionOf(ranking[1..], uuid) + 1
  }

  /** One titled listing of cards. */
  datatype Section = Section(config: string, cards: seq<Card>)

  /** What the page shows below the filters. */
  datatype Display = EmptyBoard | NotFound | Sections(sections: seq<Section>)

  /** A configuration's full listing, ranks 1 to n. */
  function Listing(rows: seq<Row>, profile: string): (s: Section)
    ensures s.config == profile
    ensures |s.cards| == |InProfile(rows, Str(profile))|
  {
    var ranking := Ranking(rows, Str(profile));
    Section(profile, Cards(ranking, 0, |ranking|, None))
  }

  /** The listing shows every row of the configuration, ranked 1 to n by non-increasing
      reference index, and highlights none of them. */
  lemma ListingRanked(rows: seq<Row>, profile: string)
    ensures var s := Listing(rows, profile);
      forall k :: 0 <= k < |s.cards| ==>
        s.cards[k].rank == k + 1 && s.cards[k].row.configName == Str(profile) && !s.cards[k].highlighted
    ensures var s := Listing(rows, profile);
      forall i, j :: 0 <= i < j < |s.cards| ==> s.cards[i].row.referenceIndex >= s.cards[j].row.referenceIndex
    ensures var s := Listing(rows, profile);
      forall x :: x in rows && x.configName == Str(profile) ==>
        exists k :: 0 <= k < |s.cards| && s.cards[k].row == x
  {
    var ranking := Ranking(rows, Str(profile));
    var cards := Listing(rows, profile).cards;
    assert cards == Cards(ranking, 0, |ranking|, None);
    forall k | 0 <= k < |cards| ensures cards[k].row.configName == Str(profile) {
      assert cards[k].row == ranking[k] && ranking[k] in ranking;
    }
    forall i, j | 0 <= i < j < |cards| ensures cards[i].row.referenceIndex >= cards[j].row.referenceIndex {
      assert Score(ranking[i]) >= Score(ranking[j]);
    }
    forall x | x in rows && x.configName == Str(profile)
      ensures exists k :: 0 <= k < |cards| && cards[k].row == x
    {
      var k :| 0 <= k < |ranking| && ranking[k] == x;
      assert cards[k].row == x;
    }
  }

  /** The cards a search shows of a ranking that holds the matched uuid: from two places
      above its first position to two below, as many as the ranking has, each with its
      rank in the whole ranking and highlighted exactly when it shows that uuid. */
  function Around(ranking: seq<Row>, uuid: Value): (cards: seq<Card>)
    requires exists r :: r in ranking && r.uuid == uuid
    ensures var p := PositionOf(ranking, uuid);
      var start := if p < 2 then 0 else p - 2;
      var end := if |ranking| < p + 3 then |ranking| else p + 3;
      && |cards| == end - start
      && (forall k :: 0 <= k < |cards| ==>
            && cards[k].rank == start + k + 1 && cards[k].row == ranking[start + k]
            && (cards[k].highlighted <==> ranking[start + k].uuid == uuid))
  {
    var position := PositionOf(ranking, uuid);
    var window := ContextWindow(|ranking|, position);
    Cards(ranking, window.0, window.1, Some(uuid))
  }

  /** The search window has one to five cards of the ranking with consecutive ranks, and
      highlights the match. */
  lemma AroundShape(ranking: seq<Row>, uuid: Value)
    requires exists r :: r in ranking && r.uuid == uuid
    ensures var cards := Around(ranking, uuid);
      && 1 <= |cards| <= 5
      && (exists k :: 0 <= k < |cards| && cards[k].highlighted && cards[k].row.uuid == uuid)
      && (forall k :: 0 <= k < |cards| ==> cards[k].row in ranking && cards[k].rank == cards[0].rank + k)
  {
    var cards := Around(ranking, uuid);
    var position := PositionOf(ranking, uuid);
    var start := if position < 2 then 0 else position - 2;
    assert cards[position - start].row == ranking[position];
  }

  /** The uuid search: no match shows a warning; otherwise the first match's
      configuration ranking is shown around the match. A match whose configuration is
      not a string cannot be capitalised for the title (AttributeError). */
  function Search(rows: seq<Row>, prefix: string): (r: Result<Display, Exception>)
    ensures FindFirst(rows, prefix).None? ==> r == Ok(NotFound)
    ensures FindFirst(rows, prefix).Some? ==>
      var found := rows[FindFirst(rows, prefix).value];
      && (!found.configName.Str? ==> r == Err(AttributeError))
      && (found.configName.Str? ==> found in Ranking(rows, found.configName))
    ensures FindFirst(rows, prefix).Some? && rows[FindFirst(rows, prefix).value].configName.Str? ==>
      var found := rows[FindFirst(rows, prefix).value];
      r == Ok(Sections([Section(found.configName.s, Around(Ranking(rows, found.configName), found.uuid))]))
    ensures r.Ok? && r.value.Sections? ==>
      var found := rows[FindFirst(rows, prefix).value];
      && found.configName.Str?
      && |r.value.sections| == 1
      && r.value.sections[0].config == found.configName.s
      && 1 <= |r.value.sections[0].cards| <= 5
      && (exists k :: 0 <= k < |r.value.sections[0].cards|
                      && r.value.sections[0].cards[k].highlighted
                      && r.value.sections[0].cards[k].row.uuid == found.uuid)
      && (forall k :: 0 <= k < |r.value.sections[0].cards| ==>
            r.value.sections[0].cards[k].row.configName == found.configName
            && r.value.sections[0].cards[k].rank == r.value.sections[0].cards[0].rank + k)
  {
    match FindFirst(rows, prefix)
    case None => Ok(NotFound)
    case Some(i) =>
      var found := rows[i];
      if !found.configName.Str? then Err(AttributeError)
      else
        var ranking := Ranking(rows, found.configName);
        assert found in ranking;
        AroundShape(ranking, found.uuid);
        Ok(Sections([Section(found.configName.s, Around(ranking, found.uuid))]))
  }

  /** The page below the filters for the selected configuration and uuid filter: the
      search when a filter is typed, else every available profile's listing for "All",
      else the selected one's listing. */
  function View(rows: seq<Row>, selected: string, uuidFilter: string): (r: Result<Display, Exception>)
    ensures uuidFilter != "" ==> r == Search(rows, uuidFilter)
    ensures uuidFilter == "" && selected != "All" ==> r == Ok(Sections([Listing(rows, selected)]))
    ensures uuidFilter == "" && selected == "All" ==>
      r.Ok? && r.value.Sections?
      && |r.value.sections| == |ProfileSelector(rows)| - 1
      && forall k :: 0 <= k < |r.value.sections| ==>
           r.value.sections[k] == Listing(rows, ProfileSelector(rows)[k + 1])
  {
    if uuidFilter != "" then Search(rows, uuidFilter)
    else if selected == "All" then
      var profiles := Available(PROFILE_ORDER, rows);
      Ok(Sections(seq(|profiles|, k requires 0 <= k < |profiles| => Listing(rows, profiles[k]))))
    else Ok(Sections([Listing(rows, selected)]))
  }

  /** The page for the records received: an empty leaderboard shows a notice, and an
      exception while shaping the records escapes. */
  method Render(records: seq<Dictionary>, decode: string -> Option<Value>, selected: string, uuidFilter: string)
    returns (r: Result<Display, Exception>)
    ensures records == [] ==> r == Ok(EmptyBoard)
    ensures records != [] && ShapeAll(records, decode).Err? ==> r.Err?
    ensures records != [] && ShapeAll(records, decode).Ok? ==>
      r == View(ShapeAll(records, decode).value, selected, uuidFilter)
  {
    if records == [] {
      return Ok(EmptyBoard);
    }
    var shaped := ShapeRows(records, decode);
    match shaped
    case Err(e) =>
      r := Err(e);
    case Ok(rows) =>
      r := View(rows, selected, uuidFilter);
  }
}
