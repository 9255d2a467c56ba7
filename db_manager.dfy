/**
 * db_manager.py: the production database maintenance script. Its statistics report
 * classifies scores into six ranges; its clearing operations delete every row, the rows
 * with a score of zero or less, or the rows above a threshold, each after a typed
 * confirmation; its limiting operation keeps the top `limit` rows of every named
 * configuration.
 *
 * The confirmation prompt is the `confirm` parameter; the prompt is only shown, and the
 * answer only matters, when there is something to delete. Exceptions caught and printed
 * by the script, and the printed report itself, are not modelled.
 */
module DbManager {
  import opened Wrappers
  import opened Strings
  import opened Store
  import opened Maintenance

  /** The score-distribution CASE expression: the first range whose bound the score
      falls under, zero having a range of its own and negatives counting as "< 100". */
  function Bucket(score: real): (range: string)
    ensures range == "Zero scores" <==> score == 0.0
    ensures range == "< 100" <==> score != 0.0 && score < 100.0
    ensures range == "100-500" <==> 100.0 <= score < 500.0
    ensures range == "500-1000" <==> 500.0 <= score < 1000.0
    ensures range == "1K-10K" <==> 1000.0 <= score < 10000.0
    ensures range == "> 10K" <==> score >= 10000.0
  {
    if score == 0.0 then "Zero scores"
    else if score < 100.0 then "< 100"
    else if score < 500.0 then "100-500"
    else if score < 1000.0 then "500-1000"
    else if score < 10000.0 then "1K-10K"
    else "> 10K"
  }

  /** clear_all_scores: every row is deleted when the table is not empty and the answer
      is exactly "DELETE ALL"; any other answer cancels. */
  method ClearAllScores(db: Table, confirm: string) returns (deleted: nat)
    requires db.Valid()
    modifies db
    ensures db.Valid()
    ensures confirm == "DELETE ALL" ==> db.rows == [] && deleted == |old(db.rows)|
    ensures confirm != "DELETE ALL" ==> db.rows == old(db.rows) && deleted == 0
  {
    deleted := 0;
    var count := |db.rows|;
    if count > 0 {
      if confirm == "DELETE ALL" {
        deleted := db.DeleteAll();
      }
    }
  }

  /** The count-then-confirm-then-delete pattern of clear_zero_scores and
      clear_high_scores: when some row matches and the answer lower-cases to "yes",
      the matching rows are deleted; the table is left as it was otherwise. */
  method DeleteConfirmed(db: Table, cond: Condition, confirm: string) returns (deleted: nat)
    requires db.Valid()
    modifies db
    ensures db.Valid()
    ensures Lower(confirm) == "yes" ==> db.rows == WhereNot(old(db.rows), cond)
    ensures Lower(confirm) != "yes" ==> db.rows == old(db.rows)
    ensures deleted == |old(db.rows)| - |db.rows|
  {
    deleted := 0;
    var count := db.Count(cond);
    if count > 0 {
      if Lower(confirm) == "yes" {
        deleted := db.Delete(cond);
      }
    } else if Lower(confirm) == "yes" {
      WhereNone(db.rows, cond);
    }
  }

  /** clear_zero_scores: deletes exactly the rows scoring zero or less. */
  method ClearZeroScores(db: Table, confirm: string) returns (deleted: nat)
    requires db.Valid()
    modifies db
    ensures db.Valid()
    ensures Lower(confirm) == "yes" ==> db.rows == WhereNot(old(db.rows), ScoreAtMost(0.0))
    ensures Lower(confirm) != "yes" ==> db.rows == old(db.rows)
    ensures deleted == |old(db.rows)| - |db.rows|
  {
    deleted := DeleteConfirmed(db, ScoreAtMost(0.0), confirm);
  }

  /** clear_high_scores: deletes exactly the rows scoring above the threshold. */
  method ClearHighScores(db: Table, confirm: string, threshold: int := 1000) returns (deleted: nat)
    requires db.Valid()
    modifies db
    ensures db.Valid()
    ensures Lower(confirm) == "yes" ==> db.rows == WhereNot(old(db.rows), ScoreAbove(threshold as real))
    ensures Lower(confirm) != "yes" ==> db.rows == old(db.rows)
    ensures deleted == |old(db.rows)| - |db.rows|
  {
    deleted := DeleteConfirmed(db, ScoreAbove(threshold as real), confirm);
  }

  /** A confirmed clear_zero_scores keeps every row scoring above zero, as often as it
      occurred, and no row scoring zero or less. */
  lemma ZeroClearedExactly(rows: seq<Record>, x: Record)
    ensures multiset(WhereNot(rows, ScoreAtMost(0.0)))[x]
            == if Score(x) <= 0.0 then 0 else multiset(rows)[x]
  {
    WhereNotMultiplicity(rows, ScoreAtMost(0.0), x);
  }

  /** A confirmed clear_high_scores keeps every row at or under the threshold, as often
      as it occurred, and no row above it. */
  lemma HighClearedExactly(rows: seq<Record>, threshold: int, x: Record)
    ensures multiset(WhereNot(rows, ScoreAbove(threshold as real)))[x]
            == if Score(x) > threshold as real then 0 else multiset(rows)[x]
  {
    WhereNotMultiplicity(rows, ScoreAbove(threshold as real), x);
  }

  /** The categories limit_scores_per_category visits: `config_name IS NOT NULL`. */
  predicate Named(c: Option<string>) {
    c.Some?
  }

  /** limit_scores_per_category: the loop over every named category present. */
  method LimitScoresPerCategory(db: Table, limit: int := 2000) returns (totalDeleted: nat)
    requires db.Valid()
    modifies db
    ensures db.Valid()
    ensures db.rows == TrimAll(old(db.rows), Visited(old(db.rows), Named), limit)
    ensures totalDeleted == |old(db.rows)| - |db.rows|
  {
    var categories := Visited(db.rows, Named);
    totalDeleted := LimitPerCategory(db, categories, limit);
  }

  /** After limiting, every named category keeps exactly its top `limit` rows (all of
      them when it had no more), hence at most `limit` rows for a limit of zero or more. */
  lemma LimitedCategories(rows: seq<Record>, limit: int, c: Option<string>)
    requires c.Some?
    ensures Where(TrimAll(rows, Visited(rows, Named), limit), InCategory(c))
            == KeepTop(Where(rows, InCategory(c)), limit)
    ensures limit >= 0 ==> |Where(TrimAll(rows, Visited(rows, Named), limit), InCategory(c))| <= limit
  {
    VisitedOutcome(rows, Named, limit, c);
  }

  /** Within each category, every row limiting keeps scores at least as high as every
      row it deletes. */
  lemma LimitKeepsHighest(rows: seq<Record>, limit: int, c: Option<string>, kept: Record, deleted: Record)
    requires c.Some?
    requires kept in Where(TrimAll(rows, Visited(rows, Named), limit), InCategory(c))
    requires deleted in multiset(Where(rows, InCategory(c)))
                        - multiset(Where(TrimAll(rows, Visited(rows, Named), limit), InCategory(c)))
    ensures Score(kept) >= Score(deleted)
  {
    VisitedOutcome(rows, Named, limit, c);
    TopDominates(Where(rows, InCategory(c)), limit, kept, deleted);
  }

  /** Rows without a configuration name are never deleted by limiting. */
  lemma LimitKeepsNullRows(rows: seq<Record>, limit: int, x: Record)
    requires x.configName.None?
    ensures multiset(TrimAll(rows, Visited(rows, Named), limit))[x] == multiset(rows)[x]
  {
    VisitedKeepsNull(rows, Named, limit, x);
  }
}
