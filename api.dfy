/**
 * benchHUB/api.py: the leaderboard service. At startup the results table is dropped and
 * recreated; a submission is stored as sent, with the reference index the client
 * declared; the leaderboard is every stored row, highest reference index first.
 *
 * The HTTP layer, pydantic's validation and json.dumps are not modelled: a payload
 * arrives already validated, its groups kept as decoded values.
 */
module Api {
  import opened Wrappers
  import opened PyValue
  import opened Sorting
  import opened Store

  /** BenchmarkPayload; `configName` is None when the client omitted the field. */
  datatype Payload = Payload(systemInfo: Dictionary, cpu: Dictionary, memory: Dictionary,
                             gpu: Dictionary, disk: Dictionary, ml: Dictionary, plot: Dictionary,
                             referenceIndex: real, configName: Option<string>, uuid: string)

  /** The pydantic default of config_name. */
  function ConfigNameOf(p: Payload): (name: string)
    ensures p.configName.Some? ==> name == p.configName.value
    ensures p.configName.None? ==> name == "standard"
  {
    match p.configName
    case Some(n) => n
    case None => "standard"
  }

  /** The seven document groups a row stores. */
  function Document(p: Payload): Dictionary {
    map["system_info" := Dict(p.systemInfo), "cpu" := Dict(p.cpu), "memory" := Dict(p.memory),
        "gpu" := Dict(p.gpu), "disk" := Dict(p.disk), "ml" := Dict(p.ml), "plot" := Dict(p.plot)]
  }

  /** Module start-up: drop_all then create_all leaves an empty results table. */
  method Startup() returns (db: Table)
    ensures fresh(db) && db.Valid() && db.rows == []
  {
    db := new Table();
  }

  /** submit_result: one row is added holding the payload as sent, its reference index
      taken verbatim from the client, and the new row's id is returned; a uuid already
      stored makes the commit fail with IntegrityError and nothing is added. */
  method SubmitResult(db: Table, payload: Payload) returns (r: Result<int, Exception>)
    requires db.Valid()
    modifies db
    ensures db.Valid()
    ensures payload.uuid in Uuids(old(db.rows)) ==> r == Err(IntegrityError) && db.rows == old(db.rows)
    ensures payload.uuid !in Uuids(old(db.rows)) ==>
      r.Ok? && r.value !in Ids(old(db.rows))
      && db.rows == old(db.rows) + [Record(r.value, Document(payload), payload.referenceIndex,
                                           Some(ConfigNameOf(payload)), payload.uuid)]
  {
    r := db.Insert(Document(payload), payload.referenceIndex, Some(ConfigNameOf(payload)), payload.uuid);
  }

  /** get_leaderboard: all rows, of every configuration, by non-increasing reference index. */
  method GetLeaderboard(db: Table) returns (results: seq<Record>)
    ensures multiset(results) == multiset(db.rows)
    ensures Descending(results, Score)
  {
    results := SortDescending(db.rows, Score);
  }

  /** A successful submission shows up on the leaderboard with the declared score. */
  lemma SubmittedRowListed(rows: seq<Record>, row: Record, board: seq<Record>)
    requires multiset(board) == multiset(rows + [row])
    ensures row in board && |board| == |rows| + 1
  {
    assert row in multiset(rows + [row]);
    assert |multiset(board)| == |board|;
  }
}
