/**
 * The leaderboard's `results` table (BenchmarkResult in benchHUB/api.py), shared by the
 * API, the seeding script and the three maintenance scripts. A row keeps the submitted
 * document groups, the declared reference index, an optional configuration name and a
 * uuid; `id` is the auto-assigned primary key and `uuid` carries a UNIQUE constraint.
 *
 * Row order in the sequence carries no meaning (SQL tables are unordered); every
 * statement below about what an operation keeps is made with membership or multisets.
 */
module Store {
  import opened Wrappers
  import opened PyValue

  datatype Record = Record(id: int, document: Dictionary, referenceIndex: real,
                           configName: Option<string>, uuid: string)

  function Score(r: Record): real {
    r.referenceIndex
  }

  /** The WHERE conditions the scripts use. */
  datatype Condition =
    | InCategory(category: Option<string>)
    | ScoreAtMost(bound: real)
    | ScoreAbove(bound: real)

  /** A condition holds of a row; as in SQL, `config_name = NULL` holds of no row. */
  predicate Holds(cond: Condition, r: Record) {
    match cond
    case InCategory(c) => c.Some? && r.configName == c
    case ScoreAtMost(t) => r.referenceIndex <= t
    case ScoreAbove(t) => r.referenceIndex > t
  }

  /** The rows satisfying the condition, in table order. */
  function Where(rows: seq<Record>, cond: Condition): (r: seq<Record>)
    ensures |r| <= |rows|
    ensures forall x :: x in r <==> x in rows && Holds(cond, x)
  {
    if rows == [] then []
    else if Holds(cond, rows[0]) then [rows[0]] + Where(rows[1..], cond)
    else Where(rows[1..], cond)
  }

  /** The rows not satisfying the condition, in table order. */
  function WhereNot(rows: seq<Record>, cond: Condition): (r: seq<Record>)
    ensures |r| <= |rows|
    ensures forall x :: x in r <==> x in rows && !Holds(cond, x)
  {
    if rows == [] then []
    else if Holds(cond, rows[0]) then WhereNot(rows[1..], cond)
    else [rows[0]] + WhereNot(rows[1..], cond)
  }

  /** Every row satisfies the condition or not: the two selections partition the table. */
  lemma {:induction false} WhereSplit(rows: seq<Record>, cond: Condition)
    ensures multiset(Where(rows, cond)) + multiset(WhereNot(rows, cond)) == multiset(rows)
    ensures |Where(rows, cond)| + |WhereNot(rows, cond)| == |rows|
  {
    if rows != [] {
      WhereSplit(rows[1..], cond);
      assert rows == [rows[0]] + rows[1..];
    }
  }

  lemma {:induction false} WhereAppend(a: seq<Record>, b: seq<Record>, cond: Condition)
    ensures Where(a + b, cond) == Where(a, cond) + Where(b, cond)
  {
    if a == [] {
      assert a + b == b;
    } else {
      assert (a + b)[0] == a[0] && (a + b)[1..] == a[1..] + b;
      WhereAppend(a[1..], b, cond);
    }
  }

  lemma {:induction false} WhereNotAppend(a: seq<Record>, b: seq<Record>, cond: Condition)
    ensures WhereNot(a + b, cond) == WhereNot(a, cond) + WhereNot(b, cond)
  {
    if a == [] {
      assert a + b == b;
    } else {
      assert (a + b)[0] == a[0] && (a + b)[1..] == a[1..] + b;
      WhereNotAppend(a[1..], b, cond);
    }
  }

  /** A selection that no row satisfies keeps, or drops, the whole table. */
  lemma {:induction false} WhereNone(rows: seq<Record>, cond: Condition)
    requires forall x :: x in rows ==> !Holds(cond, x)
    ensures Where(rows, cond) == [] && WhereNot(rows, cond) == rows
  {
    if rows != [] {
      WhereNone(rows[1..], cond);
    }
  }

  /** A DELETE ... WHERE removes every copy of each row the condition holds of and keeps
      every copy of each other row. */
  lemma {:induction false} WhereNotMultiplicity(rows: seq<Record>, cond: Condition, x: Record)
    ensures multiset(WhereNot(rows, cond))[x] == if Holds(cond, x) then 0 else multiset(rows)[x]
  {
    if rows != [] {
      WhereNotMultiplicity(rows[1..], cond, x);
      assert rows == [rows[0]] + rows[1..];
    }
  }

  function Ids(rows: seq<Record>): set<int> {
    set r | r in rows :: r.id
  }

  function Uuids(rows: seq<Record>): set<string> {
    set r | r in rows :: r.uuid
  }

  lemma UuidsAppend(rows: seq<Record>, r: Record)
    ensures Uuids(rows + [r]) == Uuids(rows) + {r.uuid}
  {
    assert forall x :: x in rows + [r] <==> x in rows || x == r;
  }

  /** The primary key and the uuid each identify at most one row. */
  ghost predicate Keyed(rows: seq<Record>) {
    && (forall x :: multiset(rows)[x] <= 1)
    && (forall a, b :: a in rows && b in rows && a.id == b.id ==> a == b)
    && (forall a, b :: a in rows && b in rows && a.uuid == b.uuid ==> a == b)
  }

  /** Deleting rows keeps the keys unique. */
  lemma KeyedSubset(rows: seq<Record>, kept: seq<Record>)
    requires Keyed(rows) && multiset(kept) <= multiset(rows)
    ensures Keyed(kept)
  {
    forall x | x in kept ensures x in rows {
      assert x in multiset(kept);
    }
    forall x ensures multiset(kept)[x] <= 1 {
      assert multiset(kept)[x] <= multiset(rows)[x];
    }
  }

  /** The largest id in use, 0 for an empty table. */
  function MaxId(rows: seq<Record>): (m: int)
    ensures m >= 0 && forall r :: r in rows ==> r.id <= m
    ensures m == 0 || exists r :: r in rows && r.id == m
    ensures rows == [] ==> m == 0
  {
    if rows == [] then 0
    else
      var rest := MaxId(rows[1..]);
      assert forall r :: r in rows ==> r == rows[0] || r in rows[1..];
      if rows[0].id > rest then rows[0].id else rest
  }

  /** The results table. */
  class Table {
    var rows: seq<Record>

    ghost predicate Valid()
      reads this
    {
      Keyed(rows)
    }

    /** Base.metadata.drop_all followed by create_all: an empty table. */
    constructor ()
      ensures Valid() && rows == []
    {
      rows := [];
    }

    /** INSERT and COMMIT of one row: the UNIQUE constraint on uuid rejects a duplicate
        with IntegrityError and the transaction leaves the table as it was; otherwise the
        row is added under a fresh id, one above the largest in use. */
    method Insert(document: Dictionary, referenceIndex: real, configName: Option<string>, uuid: string)
      returns (r: Result<int, Exception>)
      requires Valid()
      modifies this
      ensures Valid()
      ensures uuid in Uuids(old(rows)) ==> r == Err(IntegrityError) && rows == old(rows)
      ensures uuid !in Uuids(old(rows)) ==>
        r.Ok? && r.value !in Ids(old(rows)) && r.value == MaxId(old(rows)) + 1
        && rows == old(rows) + [Record(r.value, document, referenceIndex, configName, uuid)]
    {
      if uuid in Uuids(rows) {
        return Err(IntegrityError);
      }
      var id := MaxId(rows) + 1;
      var row := Record(id, document, referenceIndex, configName, uuid);
      assert row !in rows;
      rows := rows + [row];
      r := Ok(id);
    }

    /** SELECT COUNT(*) ... WHERE cond. */
    method Count(cond: Condition) returns (n: nat)
      ensures n == |Where(rows, cond)|
    {
      n := |Where(rows, cond)|;
    }

    /** DELETE ... WHERE cond, with the number of rows it removed. */
    method Delete(cond: Condition) returns (deleted: nat)
      requires Valid()
      modifies this
      ensures Valid()
      ensures rows == WhereNot(old(rows), cond)
      ensures deleted == |Where(old(rows), cond)| == |old(rows)| - |rows|
    {
      WhereSplit(rows, cond);
      KeyedSubset(rows, WhereNot(rows, cond));
      deleted := |Where(rows, cond)|;
      rows := WhereNot(rows, cond);
    }

    /** DELETE FROM results, without a condition. */
    method DeleteAll() returns (deleted: nat)
      modifies this
      ensures Valid() && rows == [] && deleted == |old(rows)|
    {
      deleted := |rows|;
      rows := [];
    }
  }
}
