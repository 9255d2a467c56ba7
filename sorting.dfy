/**
 * Ordering by a real-valued key. Python's sorted(), pandas' sort_values and SQL's
 * ORDER BY are all modelled by one insertion sort; the order of elements with equal
 * keys is not promised by any of them, so nothing below depends on it.
 */
module Sorting {

  /** Ascending order of `key` along the sequence. */
  ghost predicate Ascending<T>(s: seq<T>, key: T -> real) {
    forall i, j :: 0 <= i < j < |s| ==> key(s[i]) <= key(s[j])
  }

  /** Non-increasing order of `key` along the sequence (ORDER BY key DESC). */
  ghost predicate Descending<T>(s: seq<T>, key: T -> real) {
    forall i, j :: 0 <= i < j < |s| ==> key(s[i]) >= key(s[j])
  }

  /** Inserts x in front of the first element whose key is not smaller. */
  function Insert<T>(x: T, s: seq<T>, key: T -> real): (r: seq<T>)
    ensures multiset(r) == multiset(s) + multiset{x}
  {
    if s == [] || key(x) <= key(s[0]) then [x] + s
    else
      assert s == [s[0]] + s[1..];
      [s[0]] + Insert(x, s[1..], key)
  }

  lemma InsertMembers<T>(x: T, s: seq<T>, key: T -> real, y: T)
    requires y in Insert(x, s, key)
    ensures y == x || y in s
  {
    assert y in multiset(Insert(x, s, key));
  }

  /** Inserting into an ascending sequence keeps it ascending. */
  lemma {:induction false} InsertAscending<T>(x: T, s: seq<T>, key: T -> real)
    requires Ascending(s, key)
    ensures Ascending(Insert(x, s, key), key)
  {
    if s != [] && key(x) > key(s[0]) {
      var rest := Insert(x, s[1..], key);
      InsertAscending(x, s[1..], key);
      forall y | y in rest ensures key(s[0]) <= key(y) {
        InsertMembers(x, s[1..], key, y);
        if y != x {
          var k :| 0 <= k < |s[1..]| && s[1..][k] == y;
          assert s[k + 1] == y;
        }
      }
      var r := [s[0]] + rest;
      assert Insert(x, s, key) == r;
      forall i, j | 0 <= i < j < |r| ensures key(r[i]) <= key(r[j]) {
        if i > 0 {
          assert r[i] == rest[i - 1] && r[j] == rest[j - 1];
        } else {
          assert r[j] in rest;
        }
      }
    }
  }

  /** Insertion sort by ascending key. */
  function Sort<T>(s: seq<T>, key: T -> real): (r: seq<T>)
    ensures multiset(r) == multiset(s)
    ensures Ascending(r, key)
  {
    if s == [] then []
    else
      assert s == [s[0]] + s[1..];
      var sorted := Sort(s[1..], key);
      InsertAscending(s[0], sorted, key);
      Insert(s[0], sorted, key)
  }

  /** Sort by descending key: ascending in the negated key. */
  function SortDescending<T>(s: seq<T>, key: T -> real): (r: seq<T>)
    ensures multiset(r) == multiset(s)
    ensures Descending(r, key)
  {
    var r := Sort(s, x => -key(x));
    assert forall i, j :: 0 <= i < j < |r| ==> -key(r[i]) <= -key(r[j]);
    r
  }

  /** The first k elements of a descending sequence are each at least as large as every later one. */
  lemma PrefixDominates<T>(s: seq<T>, key: T -> real, k: nat, a: T, b: T)
    requires Descending(s, key) && k <= |s|
    requires a in s[..k] && b in s[k..]
    ensures key(a) >= key(b)
  {
    var i :| 0 <= i < k && s[..k][i] == a;
    var j :| 0 <= j < |s| - k && s[k..][j] == b;
    assert s[i] == a && s[k + j] == b;
  }
}
