/**
 * db_cleanup.py: the SQLite-only cleanup script. Each action first resolves the
 * database file (refusing a non-SQLite DATABASE_URL with exit status 1), then does
 * nothing when the file does not exist.
 *
 * The environment variable is the `dbUrl` parameter (None when unset); the database
 * file is the `db` parameter, null when no file exists at the path; the confirmation
 * prompts are the `confirm` parameter; the command line is the `argv` parameter.
 */
module DbCleanup {
  import opened Wrappers
  import opened PyValue
  import opened Strings
  import opened Store
  import opened Maintenance

  const DATABASE_FILE := "leaderboard.db"

  /** How a step ends: with a value, or with the process exiting with a status. */
  datatype Outcome<T> = Done(value: T) | Exit(status: int)

  /** get_database_path: a set, non-empty DATABASE_URL must name an SQLite database;
      the file used is always the local one. */
  function GetDatabasePath(dbUrl: Option<string>): (r: Outcome<string>)
    ensures r.Exit? <==> dbUrl.Some? && dbUrl.value != "" && !StartsWith(dbUrl.value, "sqlite")
    ensures r.Exit? ==> r.status == 1
    ensures r.Done? ==> r.value == DATABASE_FILE
  {
    match dbUrl
    case Some(url) =>
      if url != "" && !StartsWith(url, "sqlite") then Exit(1) else Done(DATABASE_FILE)
    case None => Done(DATABASE_FILE)
  }

  /** clear_all: with a usable path and an existing file that has rows, every row is
      deleted when the answer lower-cases to "yes". */
  method ClearAll(dbUrl: Option<string>, db: Table?, confirm: string) returns (r: Outcome<nat>)
    requires db != null ==> db.Valid()
    modifies db
    ensures db != null ==> db.Valid()
    ensures r.Exit? <==> GetDatabasePath(dbUrl).Exit?
    ensures r.Exit? ==> r.status == 1
    ensures db != null && r.Done? && Lower(confirm) == "yes" ==> db.rows == [] && r.value == |old(db.rows)|
    ensures db != null && (r.Exit? || Lower(confirm) != "yes") ==> db.rows == old(db.rows)
    ensures r.Done? && (db == null || Lower(confirm) != "yes") ==> r.value == 0
  {
    var path := GetDatabasePath(dbUrl);
    if path.Exit? {
      return Exit(path.status);
    }
    if db == null {
      return Done(0);
    }
    var deleted := 0;
    var count := |db.rows|;
    if count > 0 {
      if Lower(confirm) == "yes" {
        deleted := db.DeleteAll();
      }
    }
    r := Done(deleted);
  }

  /** The categories the script visits: SELECT DISTINCT config_name, NULL included. */
  predicate Any(c: Option<string>) {
    true
  }

  /** limit_per_category: the loop over every distinct category, NULL included; the
      NULL category counts no row (`config_name = NULL` never holds) and so is skipped. */
  method LimitPerCategory(dbUrl: Option<string>, db: Table?, limit: int := 2000) returns (r: Outcome<nat>)
    requires db != null ==> db.Valid()
    modifies db
    ensures db != null ==> db.Valid()
    ensures r.Exit? <==> GetDatabasePath(dbUrl).Exit?
    ensures r.Exit? ==> r.status == 1
    ensures db != null && r.Done? ==>
      db.rows == TrimAll(old(db.rows), Visited(old(db.rows), Any), limit)
      && r.value == |old(db.rows)| - |db.rows|
    ensures db != null && r.Exit? ==> db.rows == old(db.rows)
    ensures db == null && r.Done? ==> r.value == 0
  {
    var path := GetDatabasePath(dbUrl);
    if path.Exit? {
      return Exit(path.status);
    }
    if db == null {
      return Done(0);
    }
    var categories := Visited(db.rows, Any);
    var total := Maintenance.LimitPerCategory(db, categories, limit);
    r := Done(total);
  }

  /** After limiting, every named category keeps exactly its top `limit` rows, hence at
      most `limit` rows for a limit of zero or more. */
  lemma LimitedCategories(rows: seq<Record>, limit: int, name: string)
    ensures Where(TrimAll(rows, Visited(rows, Any), limit), InCategory(Some(name)))
            == KeepTop(Where(rows, InCategory(Some(name))), limit)
    ensures limit >= 0 ==>
      |Where(TrimAll(rows, Visited(rows, Any), limit), InCategory(Some(name)))| <= limit
  {
    VisitedOutcome(rows, Any, limit, Some(name));
  }

  /** Within each named category, every row limiting keeps scores at least as high as
      every row it deletes. */
  lemma LimitKeepsHighest(rows: seq<Record>, limit: int, name: string, kept: Record, deleted: Record)
    requires kept in Where(TrimAll(rows, Visited(rows, Any), limit), InCategory(Some(name)))
    requires deleted in multiset(Where(rows, InCategory(Some(name))))
                        - multiset(Where(TrimAll(rows, Visited(rows, Any), limit), InCategory(Some(name))))
    ensures Score(kept) >= Score(deleted)
  {
    VisitedOutcome(rows, Any, limit, Some(name));
    TopDominates(Where(rows, InCategory(Some(name))), limit, kept, deleted);
  }

  /** Rows with a NULL configuration name are never deleted, although the loop visits
      their category. */
  lemma LimitKeepsNullRows(rows: seq<Record>, limit: int, x: Record)
    requires x.configName.None?
    ensures multiset(TrimAll(rows, Visited(rows, Any), limit))[x] == multiset(rows)[x]
  {
    VisitedKeepsNull(rows, Any, limit, x);
  }

  /** reset_schema: on the exact answer "RESET" the database file is removed (if there
      was one); afterwards `remaining` is the database file at the path, if any. */
  method ResetSchema(dbUrl: Option<string>, db: Table?, confirm: string) returns (r: Outcome<()>, remaining: Table?)
    ensures r.Exit? <==> GetDatabasePath(dbUrl).Exit?
    ensures r.Exit? ==> r.status == 1
    ensures remaining == if r.Done? && confirm == "RESET" then null else db
  {
    remaining := db;
    var path := GetDatabasePath(dbUrl);
    if path.Exit? {
      return Exit(path.status), remaining;
    }
    if confirm == "RESET" {
      remaining := null;
    }
    r := Done(());
  }

  /** The action main selects from the command line. */
  datatype Action = ShowStats | Clear | Limit(limit: int) | Reset

  /** main: no action is a usage error (exit 1); "limit" takes int(argv[2]) when given,
      raising ValueError on a malformed number, else 2000; an unknown action exits
      with status 1. */
  function Dispatch(argv: seq<string>): (r: Result<Outcome<Action>, Exception>)
    ensures |argv| < 2 ==> r == Ok(Exit(1))
    ensures |argv| >= 2 && argv[1] !in {"stats", "clear", "limit", "reset"} ==> r == Ok(Exit(1))
    ensures |argv| >= 2 && argv[1] == "stats" ==> r == Ok(Done(ShowStats))
    ensures |argv| >= 2 && argv[1] == "clear" ==> r == Ok(Done(Clear))
    ensures |argv| >= 2 && argv[1] == "reset" ==> r == Ok(Done(Reset))
    ensures |argv| == 2 && argv[1] == "limit" ==> r == Ok(Done(Limit(2000)))
    ensures |argv| > 2 && argv[1] == "limit" ==>
      match ParseInt(argv[2])
      case Some(n) => r == Ok(Done(Limit(n)))
      case None => r == Err(ValueError)
  {
    if |argv| < 2 then Ok(Exit(1))
    else
      var action := argv[1];
      if action == "stats" then Ok(Done(ShowStats))
      else if action == "clear" then Ok(Done(Clear))
      else if action == "limit" then
        if |argv| > 2 then
          match ParseInt(argv[2])
          case Some(n) => Ok(Done(Limit(n)))
          case None => Err(ValueError)
        else Ok(Done(Limit(2000)))
      else if action == "reset" then Ok(Done(Reset))
      else Ok(Exit(1))
  }

  /** The limit written back as a number is the limit main runs with. */
  lemma DispatchLimitRoundTrip(script: string, n: int)
    ensures Dispatch([script, "limit", IntToString(n)]) == Ok(Done(Limit(n)))
  {
    ParseIntToString(n);
  }
}
