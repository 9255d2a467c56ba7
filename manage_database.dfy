/**
 * manage_database.py: the local maintenance script. It clears the table after a
 * "yes" confirmation, keeps the top `limit` rows of every configuration with a
 * non-empty name, reports the range of positive scores per configuration, and
 * recreates the schema after the exact answer "RESET".
 *
 * Confirmation prompts are the `confirm` parameter; the printed report, the
 * connection set-up and argument parsing are not modelled.
 */
module ManageDatabase {
  import opened Wrappers
  import opened Strings
  import opened Statistics
  import opened Store
  import opened Maintenance

  /** clear_all_scores: every row is deleted when the answer lower-cases to "yes"
      (the question is only asked of a table that has rows). */
  method ClearAllScores(db: Table, confirm: string) returns (deleted: nat)
    requires db.Valid()
    modifies db
    ensures db.Valid()
    ensures Lower(confirm) == "yes" ==> db.rows == [] && deleted == |old(db.rows)|
    ensures Lower(confirm) != "yes" ==> db.rows == old(db.rows) && deleted == 0
  {
    deleted := 0;
    var count := |db.rows|;
    if count > 0 {
      if Lower(confirm) == "yes" {
        deleted := db.DeleteAll();
      }
    }
  }

  /** The categories the script visits: `if cat[0]` drops NULL and the empty name. */
  predicate Truthy(c: Option<string>) {
    c.Some? && c.value != ""
  }

  /** limit_scores_per_category: the loop over every category with a non-empty name. */
  method LimitScoresPerCategory(db: Table, limit: int := 2000) returns (totalDeleted: nat)
    requires db.Valid()
    modifies db
    ensures db.Valid()
    ensures db.rows == TrimAll(old(db.rows), Visited(old(db.rows), Truthy), limit)
    ensures totalDeleted == |old(db.rows)| - |db.rows|
  {
    var categories := Visited(db.rows, Truthy);
    totalDeleted := LimitPerCategory(db, categories, limit);
  }

  /** After limiting, a category with a non-empty name keeps exactly its top `limit`
      rows, hence at most `limit` of them; the empty-named category keeps all of its
      rows, in order. */
  lemma LimitedCategories(rows: seq<Record>, limit: int, name: string)
    ensures name != "" ==>
      Where(TrimAll(rows, Visited(rows, Truthy), limit), InCategory(Some(name)))
      == KeepTop(Where(rows, InCategory(Some(name))), limit)
    ensures name != "" && limit >= 0 ==>
      |Where(TrimAll(rows, Visited(rows, Truthy), limit), InCategory(Some(name)))| <= limit
    ensures name == "" ==>
      Where(TrimAll(rows, Visited(rows, Truthy), limit), InCategory(Some(name)))
      == Where(rows, InCategory(Some(name)))
  {
    VisitedOutcome(rows, Truthy, limit, Some(name));
  }

  /** Within each visited category, every row limiting keeps scores at least as high as
      every row it deletes. */
  lemma LimitKeepsHighest(rows: seq<Record>, limit: int, name: string, kept: Record, deleted: Record)
    requires kept in Where(TrimAll(rows, Visited(rows, Truthy), limit), InCategory(Some(name)))
    requires deleted in multiset(Where(rows, InCategory(Some(name))))
                        - multiset(Where(TrimAll(rows, Visited(rows, Truthy), limit), InCategory(Some(name))))
    ensures Score(kept) >= Score(deleted)
  {
    VisitedOutcome(rows, Truthy, limit, Some(name));
    if name != "" {
      TopDominates(Where(rows, InCategory(Some(name))), limit, kept, deleted);
    }
  }

  /** Rows whose configuration name is NULL or empty are never deleted by limiting. */
  lemma LimitKeepsUnnamed(rows: seq<Record>, limit: int, x: Record)
    requires x.configName.None? || x.configName == Some("")
    ensures multiset(TrimAll(rows, Visited(rows, Truthy), limit))[x] == multiset(rows)[x]
  {
    VisitedKeepsRejected(rows, Truthy, limit, x);
  }

  /** The scores of the rows, in order. */
  function Scores(rows: seq<Record>): (s: seq<real>)
    ensures |s| == |rows| && forall i :: 0 <= i < |rows| ==> s[i] == Score(rows[i])
  {
    if rows == [] then [] else [Score(rows[0])] + Scores(rows[1..])
  }

  /** The rows of a category scoring above zero. */
  function PositiveRows(rows: seq<Record>, name: string): (r: seq<Record>)
    ensures forall x :: x in r <==> x in rows && x.configName == Some(name) && Score(x) > 0.0
  {
    Where(Where(rows, InCategory(Some(name))), ScoreAbove(0.0))
  }

  /** The least and the greatest score of some rows are scores of two of them and
      bound the score of each. */
  lemma ScoreExtremes(rows: seq<Record>)
    requires rows != []
    ensures forall x :: x in rows ==> Min(Scores(rows)) <= Score(x) <= Max(Scores(rows))
    ensures exists x :: x in rows && Score(x) == Min(Scores(rows))
    ensures exists x :: x in rows && Score(x) == Max(Scores(rows))
  {
    var scores := Scores(rows);
    forall x | x in rows ensures Min(scores) <= Score(x) <= Max(scores) {
      var i :| 0 <= i < |rows| && rows[i] == x;
      assert scores[i] == Score(x);
    }
    var i :| 0 <= i < |scores| && scores[i] == Min(scores);
    var j :| 0 <= j < |scores| && scores[j] == Max(scores);
    assert rows[i] in rows && rows[j] in rows;
  }

  /** The score range show_database_stats reports for a category: the least and the
      greatest positive score, or nothing when the category has no positive score. */
  function ScoreRange(rows: seq<Record>, name: string): (r: Option<(real, real)>)
    ensures r.None? <==> forall x :: x in rows && x.configName == Some(name) ==> Score(x) <= 0.0
    ensures r.Some? ==>
      && (exists x :: x in rows && x.configName == Some(name) && Score(x) == r.value.0 > 0.0)
      && (exists x :: x in rows && x.configName == Some(name) && Score(x) == r.value.1 > 0.0)
      && (forall x :: x in rows && x.configName == Some(name) && Score(x) > 0.0 ==>
            r.value.0 <= Score(x) <= r.value.1)
  {
    var positive := PositiveRows(rows, name);
    if positive == [] then None
    else
      ScoreExtremes(positive);
      Some((Min(Scores(positive)), Max(Scores(positive))))
  }

  /** reset_database_schema: the tables are dropped and recreated, leaving an empty
      results table, only on the exact answer "RESET". */
  method ResetDatabaseSchema(db: Table, confirm: string)
    requires db.Valid()
    modifies db
    ensures db.Valid()
    ensures confirm == "RESET" ==> db.rows == []
    ensures confirm != "RESET" ==> db.rows == old(db.rows)
  {
    if confirm == "RESET" {
      var _ := db.DeleteAll();
    }
  }
}
