/**
 * The "keep the top N scores of each configuration" operation that db_manager.py,
 * manage_database.py and db_cleanup.py each implement: for every category in a list,
 * a category holding more than `limit` rows loses every row that is not among its
 * `limit` highest-scoring ones (SELECT ... ORDER BY reference_index DESC LIMIT limit),
 * and the number of deleted rows is accumulated.
 *
 * A negative limit is SQLite's "no limit": the LIMIT subquery then selects the whole
 * category and nothing is deleted. Which of several equally scored rows survive the
 * cut is not promised by SQL; the model picks one order and states the properties
 * without depending on it.
 */
module Maintenance {
  import opened Wrappers
  import opened Sorting
  import opened Store

  /** The rows of one category that `ORDER BY reference_index DESC LIMIT limit` selects. */
  function Top(rows: seq<Record>, limit: int): (top: seq<Record>)
    ensures multiset(top) <= multiset(rows)
    ensures limit >= 0 ==> |top| == if limit < |rows| then limit else |rows|
    ensures limit < 0 ==> multiset(top) == multiset(rows)
  {
    var sorted := SortDescending(rows, Score);
    if 0 <= limit < |sorted| then
      assert sorted == sorted[..limit] + sorted[limit..];
      assert multiset(sorted) == multiset(sorted[..limit]) + multiset(sorted[limit..]);
      sorted[..limit]
    else sorted
  }

  /** Every row the cut keeps scores at least as high as every row it drops. */
  lemma TopDominates(rows: seq<Record>, limit: int, kept: Record, dropped: Record)
    requires kept in Top(rows, limit) && dropped in multiset(rows) - multiset(Top(rows, limit))
    ensures Score(kept) >= Score(dropped)
  {
    var sorted := SortDescending(rows, Score);
    assert 0 <= limit < |sorted|;
    assert sorted == sorted[..limit] + sorted[limit..];
    assert multiset(sorted) == multiset(sorted[..limit]) + multiset(sorted[limit..]);
    assert dropped in multiset(sorted[limit..]);
    PrefixDominates(sorted, Score, limit, kept, dropped);
  }

  /** One iteration of the category loop: a category over the limit keeps only its top
      rows; every other row of the table stays. */
  function TrimCategory(rows: seq<Record>, category: Option<string>, limit: int): (trimmed: seq<Record>)
    ensures forall x :: x in trimmed ==> x in rows
  {
    var members := Where(rows, InCategory(category));
    if |members| <= limit then rows
    else
      var top := Top(members, limit);
      assert forall x :: x in top ==> x in members by {
        forall x | x in top ensures x in members {
          assert x in multiset(top);
        }
      }
      WhereNot(rows, InCategory(category)) + top
  }

  /** A trim only deletes: the rows after it are a sub-multiset of the rows before. */
  lemma TrimDeletesOnly(rows: seq<Record>, category: Option<string>, limit: int)
    ensures multiset(TrimCategory(rows, category, limit)) <= multiset(rows)
    ensures |TrimCategory(rows, category, limit)| <= |rows|
  {
    WhereSplit(rows, InCategory(category));
    var trimmed := TrimCategory(rows, category, limit);
    assert |multiset(trimmed)| <= |multiset(rows)|;
  }

  /** A trim keeps the keys unique. */
  lemma TrimKeyed(rows: seq<Record>, category: Option<string>, limit: int)
    requires Keyed(rows)
    ensures Keyed(TrimCategory(rows, category, limit))
  {
    TrimDeletesOnly(rows, category, limit);
    KeyedSubset(rows, TrimCategory(rows, category, limit));
  }

  /** After the trim the category holds at most `limit` rows (for a limit that is not
      negative), and those rows are its highest-scoring ones. */
  lemma {:induction false} TrimBound(rows: seq<Record>, category: Option<string>, limit: int)
    requires limit >= 0
    ensures |Where(TrimCategory(rows, category, limit), InCategory(category))| <= limit
  {
    var cond := InCategory(category);
    var members := Where(rows, cond);
    if |members| > limit {
      var top := Top(members, limit);
      var outside := WhereNot(rows, cond);
      assert TrimCategory(rows, category, limit) == outside + top;
      WhereAppend(outside, top, cond);
      WhereNone(outside, cond);
      forall x | x in top ensures Holds(cond, x) {
        assert x in multiset(top);
      }
      WhereAll(top, cond);
      assert Where(outside + top, cond) == top;
    }
  }

  /** A selection every row satisfies keeps the whole sequence. */
  lemma {:induction false} WhereAll(rows: seq<Record>, cond: Condition)
    requires forall x :: x in rows ==> Holds(cond, x)
    ensures Where(rows, cond) == rows
  {
    if rows != [] {
      WhereAll(rows[1..], cond);
    }
  }

  /** The rows of every other category, and the rows with no category, are untouched:
      the same rows in the same order. */
  lemma {:induction false} TrimLeavesOthers(rows: seq<Record>, category: Option<string>, limit: int, other: Option<string>)
    requires other != category
    ensures Where(TrimCategory(rows, category, limit), InCategory(other)) == Where(rows, InCategory(other))
  {
    var cond := InCategory(category);
    var members := Where(rows, cond);
    if |members| > limit {
      var top := Top(members, limit);
      WhereAppend(WhereNot(rows, cond), top, InCategory(other));
      forall x | x in top ensures !Holds(InCategory(other), x) {
        assert x in multiset(top);
      }
      WhereNone(top, InCategory(other));
      OtherCategoryKept(rows, category, other);
    }
  }

  /** Selecting another category from the rows outside this one selects it from all rows. */
  lemma {:induction false} OtherCategoryKept(rows: seq<Record>, category: Option<string>, other: Option<string>)
    requires other != category
    ensures Where(WhereNot(rows, InCategory(category)), InCategory(other)) == Where(rows, InCategory(other))
  {
    if rows != [] {
      OtherCategoryKept(rows[1..], category, other);
    }
  }

  /** Within the trimmed category, every kept row scores at least as high as every
      deleted row. */
  lemma TrimKeepsHighest(rows: seq<Record>, category: Option<string>, limit: int, kept: Record, deleted: Record)
    requires kept in TrimCategory(rows, category, limit) && Holds(InCategory(category), kept)
    requires deleted in multiset(rows) - multiset(TrimCategory(rows, category, limit))
    requires Holds(InCategory(category), deleted)
    ensures Score(kept) >= Score(deleted)
  {
    var cond := InCategory(category);
    var members := Where(rows, cond);
    assert |members| > limit;
    var top := Top(members, limit);
    var outside := WhereNot(rows, cond);
    assert kept in top;
    WhereSplit(rows, cond);
    assert multiset(rows) == multiset(members) + multiset(outside);
    assert deleted !in outside;
    assert multiset(outside)[deleted] == 0;
    assert multiset(TrimCategory(rows, category, limit)) == multiset(outside) + multiset(top);
    assert deleted in multiset(members) - multiset(top);
    TopDominates(members, limit, kept, deleted);
  }

  /** The table after the category loop has handled `categories` in order. */
  function TrimAll(rows: seq<Record>, categories: seq<Option<string>>, limit: int): (trimmed: seq<Record>)
    ensures forall x :: x in trimmed ==> x in rows
  {
    if categories == [] then rows
    else TrimCategory(TrimAll(rows, categories[..|categories| - 1], limit), categories[|categories| - 1], limit)
  }

  /** After the loop, each listed category holds at most `limit` rows. */
  lemma {:induction false} TrimAllBound(rows: seq<Record>, categories: seq<Option<string>>, limit: int, c: Option<string>)
    requires limit >= 0 && c in categories
    ensures |Where(TrimAll(rows, categories, limit), InCategory(c))| <= limit
  {
    var init := categories[..|categories| - 1];
    var last := categories[|categories| - 1];
    if last == c {
      TrimBound(TrimAll(rows, init, limit), c, limit);
    } else {
      assert c in init by {
        var i :| 0 <= i < |categories| && categories[i] == c;
        assert i < |categories| - 1 && init[i] == c;
      }
      TrimAllBound(rows, init, limit, c);
      TrimLeavesOthers(TrimAll(rows, init, limit), last, limit, c);
    }
  }

  /** A category the loop does not visit keeps exactly its rows. */
  lemma {:induction false} TrimAllLeavesOthers(rows: seq<Record>, categories: seq<Option<string>>, limit: int, c: Option<string>)
    requires c !in categories
    ensures Where(TrimAll(rows, categories, limit), InCategory(c)) == Where(rows, InCategory(c))
  {
    if categories != [] {
      var init := categories[..|categories| - 1];
      assert c !in init by {
        forall i | 0 <= i < |init| ensures init[i] != c {
          assert init[i] == categories[i];
        }
      }
      TrimAllLeavesOthers(rows, init, limit, c);
      TrimLeavesOthers(TrimAll(rows, init, limit), categories[|categories| - 1], limit, c);
    }
  }

  /** The loop only deletes. */
  lemma {:induction false} TrimAllDeletesOnly(rows: seq<Record>, categories: seq<Option<string>>, limit: int)
    ensures multiset(TrimAll(rows, categories, limit)) <= multiset(rows)
  {
    if categories != [] {
      var init := categories[..|categories| - 1];
      TrimAllDeletesOnly(rows, init, limit);
      TrimDeletesOnly(TrimAll(rows, init, limit), categories[|categories| - 1], limit);
    }
  }

  /** The NULL category: `config_name = NULL` counts no row, so whatever the limit the
      trim changes nothing. */
  lemma NullCategoryUntouched(rows: seq<Record>, limit: int)
    ensures TrimCategory(rows, None, limit) == rows
  {
    WhereNone(rows, InCategory(None));
    if 0 > limit {
      assert Top([], limit) == [];
      assert rows + [] == rows;
    }
  }

  /** A row outside the trimmed category survives the trim, as often as it occurred. */
  lemma TrimKeepsOutside(rows: seq<Record>, category: Option<string>, limit: int, x: Record)
    requires !Holds(InCategory(category), x)
    ensures multiset(TrimCategory(rows, category, limit))[x] == multiset(rows)[x]
  {
    var cond := InCategory(category);
    var members := Where(rows, cond);
    if |members| > limit {
      WhereSplit(rows, cond);
      assert x !in members;
      assert multiset(Top(members, limit))[x] <= multiset(members)[x] == 0;
    }
  }

  /** A row whose category the loop does not visit survives the whole loop. */
  lemma {:induction false} TrimAllKeepsOutside(rows: seq<Record>, categories: seq<Option<string>>, limit: int, x: Record)
    requires forall c :: c in categories ==> !Holds(InCategory(c), x)
    ensures multiset(TrimAll(rows, categories, limit))[x] == multiset(rows)[x]
  {
    if categories != [] {
      var init := categories[..|categories| - 1];
      assert forall c :: c in init ==> c in categories;
      TrimAllKeepsOutside(rows, init, limit, x);
      TrimKeepsOutside(TrimAll(rows, init, limit), categories[|categories| - 1], limit, x);
    }
  }

  predicate Distinct<T(==)>(s: seq<T>) {
    forall i, j :: 0 <= i < j < |s| ==> s[i] != s[j]
  }

  /** The categories a script visits: those of the distinct list it accepts. */
  function SelectCategories(cs: seq<Option<string>>, accept: Option<string> -> bool): (r: seq<Option<string>>)
    requires Distinct(cs)
    ensures forall c :: c in r <==> c in cs && accept(c)
    ensures Distinct(r)
  {
    if cs == [] then []
    else
      var rest := SelectCategories(cs[1..], accept);
      assert forall c :: c in cs <==> c == cs[0] || c in cs[1..];
      assert cs[0] !in cs[1..] by {
        forall i | 0 <= i < |cs[1..]| ensures cs[1..][i] != cs[0] {
          assert cs[1..][i] == cs[i + 1];
        }
      }
      if accept(cs[0]) then [cs[0]] + rest else rest
  }

  /** The rows a category keeps: all of them within the limit, else its top rows. */
  function KeepTop(members: seq<Record>, limit: int): seq<Record> {
    if |members| <= limit then members else Top(members, limit)
  }

  /** What a trim leaves of its own category depends only on that category's rows. */
  lemma {:induction false} TrimOwnCategory(rows: seq<Record>, category: Option<string>, limit: int)
    ensures Where(TrimCategory(rows, category, limit), InCategory(category))
            == KeepTop(Where(rows, InCategory(category)), limit)
  {
    var cond := InCategory(category);
    var members := Where(rows, cond);
    WhereAll(members, cond);
    if |members| > limit {
      var top := Top(members, limit);
      var outside := WhereNot(rows, cond);
      WhereAppend(outside, top, cond);
      WhereNone(outside, cond);
      forall x | x in top ensures Holds(cond, x) {
        assert x in multiset(top);
      }
      WhereAll(top, cond);
      assert Where(outside + top, cond) == top;
    } else {
      WhereOfWhere(rows, cond);
    }
  }

  lemma {:induction false} WhereOfWhere(rows: seq<Record>, cond: Condition)
    ensures Where(Where(rows, cond), cond) == Where(rows, cond)
  {
    WhereAll(Where(rows, cond), cond);
  }

  /** The category loop, seen from one visited category: its rows end up exactly as
      one trim of the original table would leave them, the other iterations touching
      none of them. */
  lemma {:induction false} TrimAllCategory(rows: seq<Record>, categories: seq<Option<string>>, limit: int, c: Option<string>)
    requires Distinct(categories) && c in categories
    ensures Where(TrimAll(rows, categories, limit), InCategory(c)) == KeepTop(Where(rows, InCategory(c)), limit)
  {
    var init := categories[..|categories| - 1];
    var last := categories[|categories| - 1];
    var before := TrimAll(rows, init, limit);
    if last == c {
      assert c !in init by {
        forall i | 0 <= i < |init| ensures init[i] != c {
          assert init[i] == categories[i];
        }
      }
      TrimOwnCategory(before, c, limit);
      TrimAllLeavesOthers(rows, init, limit, c);
    } else {
      assert c in init by {
        var i :| 0 <= i < |categories| && categories[i] == c;
        assert i < |categories| - 1 && init[i] == c;
      }
      assert Distinct(init) by {
        forall i, j | 0 <= i < j < |init| ensures init[i] != init[j] {
          assert init[i] == categories[i] && init[j] == categories[j];
        }
      }
      TrimAllCategory(rows, init, limit, c);
      TrimLeavesOthers(before, last, limit, c);
    }
  }

  /** Within a visited category, every row the loop keeps scores at least as high as
      every row it deletes. */
  lemma TrimAllKeepsHighest(rows: seq<Record>, categories: seq<Option<string>>, limit: int,
                            c: Option<string>, kept: Record, deleted: Record)
    requires Distinct(categories) && c in categories
    requires kept in Where(TrimAll(rows, categories, limit), InCategory(c))
    requires deleted in multiset(Where(rows, InCategory(c))) - multiset(Where(TrimAll(rows, categories, limit), InCategory(c)))
    ensures Score(kept) >= Score(deleted)
  {
    TrimAllCategory(rows, categories, limit, c);
    var members := Where(rows, InCategory(c));
    TopDominates(members, limit, kept, deleted);
  }

  /** SELECT DISTINCT config_name FROM results, in some order. */
  function DistinctCategories(rows: seq<Record>): (cs: seq<Option<string>>)
    ensures forall c :: c in cs <==> exists r :: r in rows && r.configName == c
    ensures Distinct(cs)
  {
    if rows == [] then []
    else
      var rest := DistinctCategories(rows[1..]);
      assert forall r :: r in rows <==> r == rows[0] || r in rows[1..];
      if rows[0].configName in rest then rest else [rows[0].configName] + rest
  }

  lemma TrimAllStep(rows: seq<Record>, categories: seq<Option<string>>, i: nat, limit: int)
    requires i < |categories|
    ensures TrimAll(rows, categories[..i + 1], limit)
            == TrimCategory(TrimAll(rows, categories[..i], limit), categories[i], limit)
  {
    assert categories[..i + 1][..i] == categories[..i];
  }

  /** The category loop shared by the three scripts: each category over the limit is cut
      down to its top rows (one DELETE and COMMIT per category), and the deleted row
      counts are summed. */
  method LimitPerCategory(db: Table, categories: seq<Option<string>>, limit: int) returns (totalDeleted: nat)
    requires db.Valid()
    modifies db
    ensures db.Valid()
    ensures db.rows == TrimAll(old(db.rows), categories, limit)
    ensures totalDeleted == |old(db.rows)| - |db.rows|
  {
    ghost var initial := db.rows;
    totalDeleted := 0;
    var i := 0;
    while i < |categories|
      invariant 0 <= i <= |categories|
      invariant db.Valid()
      invariant db.rows == TrimAll(initial, categories[..i], limit)
      invariant totalDeleted == |initial| - |db.rows|
    {
      var category := categories[i];
      var rows := db.rows;
      TrimAllStep(initial, categories, i, limit);
      var currentCount := |Where(rows, InCategory(category))|;
      if currentCount > limit {
        TrimDeletesOnly(rows, category, limit);
        TrimKeyed(rows, category, limit);
        var trimmed := WhereNot(rows, InCategory(category)) + Top(Where(rows, InCategory(category)), limit);
        db.rows := trimmed;
        totalDeleted := totalDeleted + (|rows| - |trimmed|);
      }
      i := i + 1;
    }
    assert categories[..i] == categories;
  }

  /** The categories a script's loop visits: the distinct ones present that it accepts. */
  function Visited(rows: seq<Record>, accept: Option<string> -> bool): (cs: seq<Option<string>>)
    ensures Distinct(cs)
    ensures forall c :: c in cs <==> accept(c) && exists r :: r in rows && r.configName == c
  {
    SelectCategories(DistinctCategories(rows), accept)
  }

  /** A category no row carries selects nothing. */
  lemma AbsentCategoryEmpty(rows: seq<Record>, c: Option<string>)
    requires forall r :: r in rows ==> r.configName != c
    ensures Where(rows, InCategory(c)) == []
  {
    WhereNone(rows, InCategory(c));
  }

  /** What the loop leaves of a named category: its top `limit` rows when the script
      accepts it, all of its rows, in order, when it does not. */
  lemma VisitedOutcome(rows: seq<Record>, accept: Option<string> -> bool, limit: int, c: Option<string>)
    requires c.Some?
    ensures Where(TrimAll(rows, Visited(rows, accept), limit), InCategory(c))
            == if accept(c) then KeepTop(Where(rows, InCategory(c)), limit) else Where(rows, InCategory(c))
  {
    var cs := Visited(rows, accept);
    if c in cs {
      TrimAllCategory(rows, cs, limit, c);
    } else {
      TrimAllLeavesOthers(rows, cs, limit, c);
      if accept(c) {
        AbsentCategoryEmpty(rows, c);
        var top := Top([], limit);
        assert |multiset(top)| == 0;
      }
    }
  }

  /** A row without a category survives the loop, however many times it occurs. */
  lemma VisitedKeepsNull(rows: seq<Record>, accept: Option<string> -> bool, limit: int, x: Record)
    requires x.configName.None?
    ensures multiset(TrimAll(rows, Visited(rows, accept), limit))[x] == multiset(rows)[x]
  {
    TrimAllKeepsOutside(rows, Visited(rows, accept), limit, x);
  }

  /** A row whose category the script does not accept survives the loop. */
  lemma VisitedKeepsRejected(rows: seq<Record>, accept: Option<string> -> bool, limit: int, x: Record)
    requires !accept(x.configName)
    ensures multiset(TrimAll(rows, Visited(rows, accept), limit))[x] == multiset(rows)[x]
  {
    TrimAllKeepsOutside(rows, Visited(rows, accept), limit, x);
  }
}
