/**
 * seed_database.py: fills the leaderboard from up to three saved result files. Each
 * file gets a fresh uuid; a file whose uuid is already stored is skipped; the others
 * are scored with this script's own reference index (unscaled weighted sum of inverse
 * timings, distinct from benchHUB/reference_index.py) and added to one transaction,
 * which is committed at the end or rolled back as a whole.
 *
 * The glob result is the `files` parameter (each file's decoded JSON document, None
 * where json.load fails), uuid.uuid4 is the `uuidOf` parameter (the uuid drawn for the
 * i-th file processed), and the session's queries see only committed rows
 * (autoflush=False).
 */
module Seed {
  import opened Wrappers
  import opened PyValue
  import opened Store

  const CPU_WEIGHT: real := 0.4
  const GPU_WEIGHT: real := 0.4
  const MEMORY_WEIGHT: real := 0.2

  /** calculate_reference_index: a weighted mean of the three component scores (the
      weights sum to 1), so it lies between the least and the greatest of them. */
  function CalculateReferenceIndex(cpu: real, gpu: real, memory: real): (r: real)
    ensures cpu == gpu == memory ==> r == cpu
    ensures cpu <= gpu && cpu <= memory ==> cpu <= r
    ensures gpu <= cpu && gpu <= memory ==> gpu <= r
    ensures memory <= cpu && memory <= gpu ==> memory <= r
    ensures gpu <= cpu && memory <= cpu ==> r <= cpu
    ensures cpu <= gpu && memory <= gpu ==> r <= gpu
    ensures cpu <= memory && gpu <= memory ==> r <= memory
  {
    CPU_WEIGHT * cpu + GPU_WEIGHT * gpu + MEMORY_WEIGHT * memory
  }

  /** `1.0 / group.get(key, 1.0)`: an absent key scores 1.0; a present number d scores
      1/d, and 0 raises ZeroDivisionError (there is no guard); None or any other
      non-number raises TypeError; a group that is not a dictionary has no .get. */
  function InverseOf(group: Value, key: string): (r: Result<real, Exception>)
    ensures !group.Dict? ==> r == Err(AttributeError)
    ensures group.Dict? && key !in group.entries ==> r == Ok(1.0)
    ensures group.Dict? && key in group.entries ==>
      var d := group.entries[key];
      && (IsNumber(d) && AsReal(d) != 0.0 ==> r == Ok(1.0 / AsReal(d)))
      && (IsNumber(d) && AsReal(d) == 0.0 ==> r == Err(ZeroDivisionError))
      && (!IsNumber(d) ==> r == Err(TypeError))
  {
    if !group.Dict? then Err(AttributeError)
    else
      var d := GetOr(group.entries, key, Float(1.0));
      if !IsNumber(d) then Err(TypeError)
      else if AsReal(d) == 0.0 then Err(ZeroDivisionError)
      else Ok(1.0 / AsReal(d))
  }

  function ScoreCpu(cpuResults: Value): (r: Result<real, Exception>)
    ensures !cpuResults.Dict? ==> r == Err(AttributeError)
    ensures cpuResults.Dict? && "floating_point" !in cpuResults.entries ==> r == Ok(1.0)
    ensures cpuResults.Dict? && "floating_point" in cpuResults.entries ==>
      var t := cpuResults.entries["floating_point"];
      (r.Ok? <==> IsNumber(t) && AsReal(t) != 0.0) && (r.Ok? ==> r.value * AsReal(t) == 1.0)
  {
    InverseOf(cpuResults, "floating_point")
  }

  function ScoreGpu(gpuResults: Value): (r: Result<real, Exception>)
    ensures !gpuResults.Dict? ==> r == Err(AttributeError)
    ensures gpuResults.Dict? && "tensor_operations" !in gpuResults.entries ==> r == Ok(1.0)
    ensures gpuResults.Dict? && "tensor_operations" in gpuResults.entries ==>
      var t := gpuResults.entries["tensor_operations"];
      (r.Ok? <==> IsNumber(t) && AsReal(t) != 0.0) && (r.Ok? ==> r.value * AsReal(t) == 1.0)
  {
    InverseOf(gpuResults, "tensor_operations")
  }

  function ScoreMemory(memoryResults: Value): (r: Result<real, Exception>)
    ensures !memoryResults.Dict? ==> r == Err(AttributeError)
    ensures memoryResults.Dict? && "allocation" !in memoryResults.entries ==> r == Ok(1.0)
    ensures memoryResults.Dict? && "allocation" in memoryResults.entries ==>
      var t := memoryResults.entries["allocation"];
      (r.Ok? <==> IsNumber(t) && AsReal(t) != 0.0) && (r.Ok? ==> r.value * AsReal(t) == 1.0)
  {
    InverseOf(memoryResults, "allocation")
  }

  /** A record about to be added: its document groups, score, configuration and uuid.
      The configuration is kept as the document held it until the commit stores it. */
  datatype Draft = Draft(document: Dictionary, referenceIndex: real, configName: Value, uuid: string)

  const GROUPS: seq<string> := ["system_info", "cpu", "memory", "gpu", "disk", "ml", "plot"]

  /** The record seed_data builds from one document: the seven groups (an absent group
      stored as {}), the weighted index of the three scores, the configuration name
      (absent: "standard"), and the uuid drawn for the file. */
  function BuildDraft(data: Value, uuid: string): (r: Result<Draft, Exception>)
    ensures !data.Dict? ==> r == Err(AttributeError)
    ensures r.Ok? ==>
      && data.Dict?
      && r.value.uuid == uuid
      && r.value.configName == GetOr(data.entries, "config_name", Str("standard"))
      && r.value.document.Keys == set g | g in GROUPS
      && (forall g :: g in GROUPS ==> g in r.value.document && r.value.document[g] == GetOr(data.entries, g, Dict(map[])))
      && ScoreCpu(GetOr(data.entries, "cpu", Dict(map[]))).Ok?
      && ScoreGpu(GetOr(data.entries, "gpu", Dict(map[]))).Ok?
      && ScoreMemory(GetOr(data.entries, "memory", Dict(map[]))).Ok?
      && r.value.referenceIndex == CalculateReferenceIndex(
           ScoreCpu(GetOr(data.entries, "cpu", Dict(map[]))).value,
           ScoreGpu(GetOr(data.entries, "gpu", Dict(map[]))).value,
           ScoreMemory(GetOr(data.entries, "memory", Dict(map[]))).value)
    ensures data.Dict? ==>
      var cpu := ScoreCpu(GetOr(data.entries, "cpu", Dict(map[])));
      var gpu := ScoreGpu(GetOr(data.entries, "gpu", Dict(map[])));
      var memory := ScoreMemory(GetOr(data.entries, "memory", Dict(map[])));
      && (r.Ok? <==> cpu.Ok? && gpu.Ok? && memory.Ok?)
      && (cpu.Err? ==> r == Err(cpu.error))
      && (cpu.Ok? && gpu.Err? ==> r == Err(gpu.error))
      && (cpu.Ok? && gpu.Ok? && memory.Err? ==> r == Err(memory.error))
  {
    if !data.Dict? then Err(AttributeError)
    else
      var d := data.entries;
      match ScoreCpu(GetOr(d, "cpu", Dict(map[])))
      case Err(e) => Err(e)
      case Ok(cpu) =>
        match ScoreGpu(GetOr(d, "gpu", Dict(map[])))
        case Err(e) => Err(e)
        case Ok(gpu) =>
          match ScoreMemory(GetOr(d, "memory", Dict(map[])))
          case Err(e) => Err(e)
          case Ok(memory) =>
            var document := map g | g in GROUPS :: GetOr(d, g, Dict(map[]));
            Ok(Draft(document, CalculateReferenceIndex(cpu, gpu, memory),
                     GetOr(d, "config_name", Str("standard")), uuid))
  }

  /** glob(...)[:3]: at most the first three files. */
  function Batch(files: seq<Option<Value>>): (b: seq<Option<Value>>)
    ensures |b| <= 3 && |b| <= |files| && b == files[..|b|]
    ensures forall i :: 0 <= i < |b| ==> b[i] == files[i]
    ensures |files| >= 3 ==> |b| == 3
    ensures |files| < 3 ==> b == files
  {
    if |files| <= 3 then files else files[..3]
  }

  /** The records added to the session after the loop has read `batch`, in order, or
      the exception that ends the loop: a file json.load rejects raises ValueError
      (JSONDecodeError), a file whose uuid is already stored is skipped, and a
      document the scorers reject raises their exception. */
  function Drafts(rows: seq<Record>, batch: seq<Option<Value>>, uuidOf: nat -> string): (r: Result<seq<Draft>, Exception>)
    ensures r.Ok? ==> |r.value| <= |batch|
  {
    if batch == [] then Ok([])
    else
      var n := |batch| - 1;
      match Drafts(rows, batch[..n], uuidOf)
      case Err(e) => Err(e)
      case Ok(ds) => Step(rows, ds, batch[n], uuidOf(n))
  }

  /** Each record the loop adds has a uuid the table does not hold and is built from
      one of the files with the uuid drawn for it. */
  lemma {:induction false} DraftsOrigin(rows: seq<Record>, batch: seq<Option<Value>>, uuidOf: nat -> string, d: Draft)
    requires Drafts(rows, batch, uuidOf).Ok? && d in Drafts(rows, batch, uuidOf).value
    ensures d.uuid !in Uuids(rows)
    ensures exists j :: 0 <= j < |batch| && batch[j].Some? && d.uuid == uuidOf(j)
                        && BuildDraft(batch[j].value, uuidOf(j)) == Ok(d)
  {
    var n := |batch| - 1;
    var ds := Drafts(rows, batch[..n], uuidOf).value;
    var step := Step(rows, ds, batch[n], uuidOf(n));
    assert Drafts(rows, batch, uuidOf) == step;
    if d in ds {
      DraftsOrigin(rows, batch[..n], uuidOf, d);
      var j :| 0 <= j < n && batch[..n][j].Some? && d.uuid == uuidOf(j)
               && BuildDraft(batch[..n][j].value, uuidOf(j)) == Ok(d);
      assert batch[..n][j] == batch[j];
    } else {
      assert step.value == ds + [BuildDraft(batch[n].value, uuidOf(n)).value];
      assert d == BuildDraft(batch[n].value, uuidOf(n)).value;
    }
  }

  /** One iteration of the loop: the file is decoded, skipped when its uuid is already
      stored, and otherwise turned into a record added to the session. */
  function Step(rows: seq<Record>, ds: seq<Draft>, file: Option<Value>, uuid: string): (r: Result<seq<Draft>, Exception>)
    ensures file.None? ==> r == Err(ValueError)
    ensures file.Some? && uuid in Uuids(rows) ==> r == Ok(ds)
    ensures file.Some? && uuid !in Uuids(rows) ==>
      match BuildDraft(file.value, uuid)
      case Err(e) => r == Err(e)
      case Ok(d) => r == Ok(ds + [d])
  {
    match file
    case None => Err(ValueError)
    case Some(data) =>
      if uuid in Uuids(rows) then Ok(ds)
      else
        match BuildDraft(data, uuid)
        case Err(e) => Err(e)
        case Ok(d) => Ok(ds + [d])
  }

  lemma DraftsStep(rows: seq<Record>, batch: seq<Option<Value>>, uuidOf: nat -> string, i: nat, ds: seq<Draft>)
    requires i < |batch| && Drafts(rows, batch[..i], uuidOf) == Ok(ds)
    ensures Drafts(rows, batch[..i + 1], uuidOf) == Step(rows, ds, batch[i], uuidOf(i))
  {
    assert batch[..i + 1][..i] == batch[..i];
    assert batch[..i + 1][i] == batch[i];
  }

  /** Every file of a batch that reads cleanly and whose uuid is new contributes its
      record. */
  lemma {:induction false} FreshFilesIncluded(rows: seq<Record>, batch: seq<Option<Value>>, uuidOf: nat -> string, j: nat)
    requires Drafts(rows, batch, uuidOf).Ok?
    requires j < |batch| && uuidOf(j) !in Uuids(rows)
    ensures batch[j].Some? && BuildDraft(batch[j].value, uuidOf(j)).Ok?
    ensures BuildDraft(batch[j].value, uuidOf(j)).value in Drafts(rows, batch, uuidOf).value
  {
    var n := |batch| - 1;
    var prefix := Drafts(rows, batch[..n], uuidOf);
    assert prefix.Ok?;
    var ds := prefix.value;
    var step := Step(rows, ds, batch[n], uuidOf(n));
    assert Drafts(rows, batch, uuidOf) == step;
    if j < n {
      assert batch[..n][j] == batch[j];
      FreshFilesIncluded(rows, batch[..n], uuidOf, j);
      assert step.value == ds || step.value == ds + [BuildDraft(batch[n].value, uuidOf(n)).value];
    } else {
      assert step.value == ds + [BuildDraft(batch[n].value, uuidOf(n)).value];
    }
  }

  /** Once the loop has raised, the rest of the batch is never read. */
  lemma {:induction false} DraftsErrorSticks(rows: seq<Record>, batch: seq<Option<Value>>, uuidOf: nat -> string, i: nat)
    requires i <= |batch| && Drafts(rows, batch[..i], uuidOf).Err?
    ensures Drafts(rows, batch, uuidOf) == Drafts(rows, batch[..i], uuidOf)
  {
    if i < |batch| {
      var n := |batch| - 1;
      assert batch[..n][..i] == batch[..i];
      DraftsErrorSticks(rows, batch[..n], uuidOf, i);
      assert batch[..n] == batch[..|batch| - 1];
    } else {
      assert batch[..i] == batch;
    }
  }

  /** How the config_name column stores a value: a string, or NULL for None; any other
      value cannot be stored in the text column. */
  function ConfigColumn(v: Value): (c: Option<Option<string>>)
    ensures v.Str? ==> c == Some(Some(v.s))
    ensures v.Null? ==> c == Some(None)
    ensures !(v.Str? || v.Null?) ==> c == None
  {
    match v
    case Str(s) => Some(Some(s))
    case Null => Some(None)
    case _ => None
  }

  /** The commit succeeds: every configuration can be stored and no two records of the
      batch share a uuid (the UNIQUE constraint). */
  predicate Storable(ds: seq<Draft>) {
    && (forall i :: 0 <= i < |ds| ==> ConfigColumn(ds[i].configName).Some?)
    && (forall i, j :: 0 <= i < j < |ds| ==> ds[i].uuid != ds[j].uuid)
  }

  /** The table after the batch is inserted in order, each record under the next id. */
  function Committed(rows: seq<Record>, ds: seq<Draft>): (r: seq<Record>)
    requires forall i :: 0 <= i < |ds| ==> ConfigColumn(ds[i].configName).Some?
    ensures |r| == |rows| + |ds| && r[..|rows|] == rows
  {
    if ds == [] then rows
    else
      var n := |ds| - 1;
      var before := Committed(rows, ds[..n]);
      var rec := NextRow(before, ds[n]);
      assert (before + [rec])[..|rows|] == before[..|rows|];
      before + [rec]
  }

  /** The k-th record of the batch becomes the row after the existing ones and the k
      earlier records, with its fields kept and an id that no existing row uses. */
  lemma {:induction false} CommittedRecord(rows: seq<Record>, ds: seq<Draft>, k: nat)
    requires forall i :: 0 <= i < |ds| ==> ConfigColumn(ds[i].configName).Some?
    requires k < |ds|
    ensures
      var rec := Committed(rows, ds)[|rows| + k];
      && rec.uuid == ds[k].uuid && rec.document == ds[k].document
      && rec.referenceIndex == ds[k].referenceIndex
      && Some(rec.configName) == ConfigColumn(ds[k].configName)
      && rec.id !in Ids(rows)
  {
    var n := |ds| - 1;
    var before := Committed(rows, ds[..n]);
    if k < n {
      assert ds[..n][k] == ds[k];
      CommittedRecord(rows, ds[..n], k);
    } else {
      forall x | x in rows ensures x.id <= MaxId(before) {
        var i :| 0 <= i < |rows| && rows[i] == x;
        assert before[..|rows|][i] == x;
      }
    }
  }

  /** The row the i-th record of a batch becomes when appended to the given rows. */
  function NextRow(rows: seq<Record>, d: Draft): Record
    requires ConfigColumn(d.configName).Some?
  {
    Record(MaxId(rows) + 1, d.document, d.referenceIndex, ConfigColumn(d.configName).value, d.uuid)
  }

  lemma CommittedStep(rows: seq<Record>, ds: seq<Draft>, i: nat)
    requires i < |ds| && forall j :: 0 <= j < |ds| ==> ConfigColumn(ds[j].configName).Some?
    ensures
      var before := Committed(rows, ds[..i]);
      Committed(rows, ds[..i + 1])
      == before + [NextRow(before, ds[i])]
  {
    assert ds[..i + 1][..i] == ds[..i];
    assert ds[..i + 1][i] == ds[i];
  }

  /** Committing the i-th record of a storable batch after the earlier ones: its uuid is
      new, it is appended under the next id, and the later records stay new. */
  lemma CommitStep(initial: seq<Record>, ds: seq<Draft>, i: nat, rows: seq<Record>)
    requires Storable(ds) && i < |ds| && rows == Committed(initial, ds[..i])
    requires forall j :: i <= j < |ds| ==> ds[j].uuid !in Uuids(rows)
    ensures ds[i].uuid !in Uuids(rows) && ConfigColumn(ds[i].configName).Some?
    ensures Committed(initial, ds[..i + 1]) == rows + [NextRow(rows, ds[i])]
    ensures forall j :: i + 1 <= j < |ds| ==> ds[j].uuid !in Uuids(rows + [NextRow(rows, ds[i])])
  {
    CommittedStep(initial, ds, i);
    var next := NextRow(rows, ds[i]);
    UuidsAppend(rows, next);
    forall j | i + 1 <= j < |ds| ensures ds[j].uuid !in Uuids(rows + [next]) {
      assert ds[i].uuid != ds[j].uuid;
    }
  }

  /** One session.add of a record whose uuid is not yet stored: it is appended under
      the next id. */
  method InsertDraft(db: Table, d: Draft)
    requires db.Valid() && d.uuid !in Uuids(db.rows) && ConfigColumn(d.configName).Some?
    modifies db
    ensures db.Valid() && db.rows == old(db.rows) + [NextRow(old(db.rows), d)]
  {
    var r := db.Insert(d.document, d.referenceIndex, ConfigColumn(d.configName).value, d.uuid);
  }

  /** db.commit(): the whole batch is inserted, or on failure db.rollback() leaves the
      table as it was. */
  method Commit(db: Table, ds: seq<Draft>) returns (ok: bool)
    requires db.Valid()
    requires forall d :: d in ds ==> d.uuid !in Uuids(db.rows)
    modifies db
    ensures db.Valid()
    ensures ok == Storable(ds)
    ensures ok ==> db.rows == Committed(old(db.rows), ds)
    ensures !ok ==> db.rows == old(db.rows)
  {
    if !Storable(ds) {
      return false;
    }
    ghost var initial := db.rows;
    var i := 0;
    assert ds[..0] == [];
    forall j | 0 <= j < |ds| ensures ds[j].uuid !in Uuids(db.rows) {
      assert ds[j] in ds;
    }
    while i < |ds|
      invariant 0 <= i <= |ds|
      invariant db.Valid()
      invariant db.rows == Committed(initial, ds[..i])
      invariant forall j :: i <= j < |ds| ==> ds[j].uuid !in Uuids(db.rows)
    {
      CommitStep(initial, ds, i, db.rows);
      InsertDraft(db, ds[i]);
      i := i + 1;
    }
    assert ds[..i] == ds;
    ok := true;
  }

  /** How seed_data ends. */
  datatype SeedOutcome = NoFiles | Raised(error: Exception) | Added(count: nat) | RolledBack

  /** What seed_data does to a table, as a function of the stored rows, the files found
      and the uuids drawn. */
  function SeedResult(rows: seq<Record>, files: seq<Option<Value>>, uuidOf: nat -> string): (r: SeedOutcome)
    ensures r == NoFiles <==> files == []
    ensures r.Added? ==> r.count <= 3 && r.count <= |files|
  {
    var batch := Batch(files);
    if batch == [] then NoFiles
    else
      match Drafts(rows, batch, uuidOf)
      case Err(e) => Raised(e)
      case Ok(ds) => if Storable(ds) then Added(|ds|) else RolledBack
  }

  /** The loop of seed_data over the batch: the records added to the session, or the
      exception that escapes it. */
  method ReadBatch(db: Table, batch: seq<Option<Value>>, uuidOf: nat -> string) returns (r: Result<seq<Draft>, Exception>)
    ensures r == Drafts(db.rows, batch, uuidOf)
  {
    var drafts: seq<Draft> := [];
    var i := 0;
    while i < |batch|
      invariant 0 <= i <= |batch|
      invariant Drafts(db.rows, batch[..i], uuidOf) == Ok(drafts)
    {
      DraftsStep(db.rows, batch, uuidOf, i, drafts);
      match batch[i]
      case None =>
        DraftsErrorSticks(db.rows, batch, uuidOf, i + 1);
        return Err(ValueError);
      case Some(data) =>
        var recordUuid := uuidOf(i);
        if recordUuid !in Uuids(db.rows) {
          match BuildDraft(data, recordUuid)
          case Err(e) =>
            DraftsErrorSticks(db.rows, batch, uuidOf, i + 1);
            return Err(e);
          case Ok(d) =>
            drafts := drafts + [d];
        }
      i := i + 1;
    }
    assert batch[..i] == batch;
    r := Ok(drafts);
  }

  /** seed_data: reads at most three files, skipping those whose uuid is already
      stored, and commits their records together; an exception in the loop leaves
      the session uncommitted, and a failed commit is rolled back. */
  method SeedData(db: Table, files: seq<Option<Value>>, uuidOf: nat -> string) returns (outcome: SeedOutcome)
    requires db.Valid()
    modifies db
    ensures db.Valid()
    ensures outcome == SeedResult(old(db.rows), files, uuidOf)
    ensures outcome.Added? ==>
      var ds := Drafts(old(db.rows), Batch(files), uuidOf).value;
      Storable(ds) && db.rows == Committed(old(db.rows), ds)
    ensures !outcome.Added? ==> db.rows == old(db.rows)
  {
    var batch := if |files| <= 3 then files else files[..3];
    if batch == [] {
      return NoFiles;
    }
    var read := ReadBatch(db, batch, uuidOf);
    match read
    case Err(e) =>
      outcome := Raised(e);
    case Ok(drafts) =>
      forall d | d in drafts ensures d.uuid !in Uuids(db.rows) {
        DraftsOrigin(db.rows, batch, uuidOf, d);
      }
      var ok := Commit(db, drafts);
      outcome := if ok then Added(|drafts|) else RolledBack;
  }

  /** A successful seeding adds one record per new file read, at most three, each
      stored under a uuid the table did not hold and with the file's configuration
      name, "standard" when the file has none. */
  lemma SeededRecords(rows: seq<Record>, files: seq<Option<Value>>, uuidOf: nat -> string, k: nat)
    requires SeedResult(rows, files, uuidOf).Added?
    requires k < SeedResult(rows, files, uuidOf).count
    ensures SeedResult(rows, files, uuidOf).count <= 3
    ensures
      var batch := Batch(files);
      var rec := Committed(rows, Drafts(rows, batch, uuidOf).value)[|rows| + k];
      && rec.uuid !in Uuids(rows) && rec.id !in Ids(rows)
      && exists j :: 0 <= j < |batch| && batch[j].Some? && batch[j].value.Dict?
           && rec.uuid == uuidOf(j)
           && Some(rec.configName) == ConfigColumn(GetOr(batch[j].value.entries, "config_name", Str("standard")))
  {
    var batch := Batch(files);
    var ds := Drafts(rows, batch, uuidOf).value;
    assert SeedResult(rows, files, uuidOf).count == |ds| <= |batch|;
    var d := ds[k];
    var rec := Committed(rows, ds)[|rows| + k];
    assert rec.uuid == d.uuid && Some(rec.configName) == ConfigColumn(d.configName) && rec.id !in Ids(rows) by {
      CommittedRecord(rows, ds, k);
    }
    assert d in ds;
    DraftsOrigin(rows, batch, uuidOf, d);
    var j :| 0 <= j < |batch| && batch[j].Some? && d.uuid == uuidOf(j) && BuildDraft(batch[j].value, uuidOf(j)) == Ok(d);
    assert batch[j].value.Dict? && d.configName == GetOr(batch[j].value.entries, "config_name", Str("standard"));
  }

}
