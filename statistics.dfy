/**
 * statistics.median and statistics.mean over a list of durations, as the timing
 * harness uses them: both raise StatisticsError on an empty list.
 */
module Statistics {
  import opened Wrappers
  import opened PyValue
  import opened Sorting

  function Id(x: real): real { x }

  function Sum(s: seq<real>): real {
    if s == [] then 0.0 else Sum(s[..|s| - 1]) + s[|s| - 1]
  }

  /** The smallest element. */
  function Min(s: seq<real>): (m: real)
    requires |s| > 0
    ensures m in s && forall i :: 0 <= i < |s| ==> m <= s[i]
  {
    if |s| == 1 then s[0]
    else
      var m := Min(s[1..]);
      assert forall i :: 1 <= i < |s| ==> s[i] == s[1..][i - 1];
      if s[0] <= m then s[0] else m
  }

  /** The largest element. */
  function Max(s: seq<real>): (m: real)
    requires |s| > 0
    ensures m in s && forall i :: 0 <= i < |s| ==> s[i] <= m
  {
    if |s| == 1 then s[0]
    else
      var m := Max(s[1..]);
      assert forall i :: 1 <= i < |s| ==> s[i] == s[1..][i - 1];
      if s[0] >= m then s[0] else m
  }

  /** statistics.mean */
  function Mean(s: seq<real>): (m: real)
    requires |s| > 0
    ensures Min(s) <= m <= Max(s)
  {
    var lo, hi := Min(s), Max(s);
    SumBounds(s, lo, hi);
    DivideBounds(Sum(s), |s| as real, lo, hi);
    Sum(s) / (|s| as real)
  }

  lemma DivideBounds(a: real, n: real, lo: real, hi: real)
    requires n > 0.0 && n * lo <= a <= n * hi
    ensures lo <= a / n <= hi
  {
    assert (a / n) * n == a;
  }

  /** A sum of n elements lying in [lo, hi] lies in [n*lo, n*hi]. */
  lemma {:induction false} SumBounds(s: seq<real>, lo: real, hi: real)
    requires forall i :: 0 <= i < |s| ==> lo <= s[i] <= hi
    ensures (|s| as real) * lo <= Sum(s) <= (|s| as real) * hi
  {
    if s != [] {
      var init := s[..|s| - 1];
      SumBounds(init, lo, hi);
      var n := |init| as real;
      assert lo <= s[|s| - 1] <= hi;
      assert (|s| as real) * lo == n * lo + lo;
      assert (|s| as real) * hi == n * hi + hi;
    }
  }

  /** Every element of the sorted data is one of the data. */
  lemma SortedElement(s: seq<real>, k: nat)
    requires k < |s|
    ensures |Sort(s, Id)| == |s| && Sort(s, Id)[k] in s
  {
    var sorted := Sort(s, Id);
    assert |sorted| == |multiset(sorted)| == |multiset(s)| == |s|;
    assert sorted[k] in multiset(sorted);
  }

  /** Data in ascending order, compared directly. */
  ghost predicate Ordered(s: seq<real>) {
    forall i, j :: 0 <= i < j < |s| ==> s[i] <= s[j]
  }

  lemma OrderedOfSorted(s: seq<real>)
    ensures Ordered(Sort(s, Id))
  {
    var r := Sort(s, Id);
    assert forall i, j :: 0 <= i < j < |r| ==> Id(r[i]) <= Id(r[j]);
  }

  lemma HeadIsLeast(b: seq<real>, x: real)
    requires Ordered(b) && x in b
    ensures b[0] <= x
  {
  }

  lemma SplitHead(a: seq<real>)
    requires a != []
    ensures multiset(a[1..]) == multiset(a) - multiset{a[0]}
  {
    assert a == [a[0]] + a[1..];
  }

  lemma SameHead(a: seq<real>, b: seq<real>)
    requires a != [] && Ordered(a) && Ordered(b) && multiset(a) == multiset(b)
    ensures b != [] && a[0] == b[0]
  {
    assert a[0] in multiset(b);
    assert b[0] in multiset(a);
    HeadIsLeast(b, a[0]);
    HeadIsLeast(a, b[0]);
  }

  /** Two ascending orderings of the same data are equal: the median does not depend on
      how the data were sorted. */
  lemma {:induction false} OrderedUnique(a: seq<real>, b: seq<real>)
    requires Ordered(a) && Ordered(b) && multiset(a) == multiset(b)
    ensures a == b
  {
    if a == [] {
      assert |b| == |multiset(b)| == 0;
    } else {
      SameHead(a, b);
      SplitHead(a);
      SplitHead(b);
      OrderedUnique(a[1..], b[1..]);
      assert a == [a[0]] + a[1..];
      assert b == [b[0]] + b[1..];
    }
  }

  /** statistics.median: the middle element of the sorted data, or the average of the
      two middle elements when their number is even. */
  function Median(s: seq<real>): (m: real)
    requires |s| > 0
    ensures Min(s) <= m <= Max(s)
    ensures |s| % 2 == 1 ==> m in s
  {
    var sorted := Sort(s, Id);
    var n := |s|;
    SortedElement(s, n / 2);
    if n % 2 == 1 then sorted[n / 2]
    else
      SortedElement(s, n / 2 - 1);
      (sorted[n / 2 - 1] + sorted[n / 2]) / 2.0
  }

  /** The median of data already in ascending order is read off its middle. */
  lemma MedianOfAscending(s: seq<real>)
    requires |s| > 0 && Ordered(s)
    ensures |s| % 2 == 1 ==> Median(s) == s[|s| / 2]
    ensures |s| % 2 == 0 ==> Median(s) == (s[|s| / 2 - 1] + s[|s| / 2]) / 2.0
  {
    OrderedOfSorted(s);
    OrderedUnique(Sort(s, Id), s);
  }

  /** Positive durations have a positive median. */
  lemma MedianPositive(s: seq<real>)
    requires |s| > 0 && forall i :: 0 <= i < |s| ==> s[i] > 0.0
    ensures Median(s) > 0.0
  {
    var m := Min(s);
    var k :| 0 <= k < |s| && s[k] == m;
  }

  /** The reduction the harness applies: median or mean, StatisticsError when no run was timed. */
  function Reduce(times: seq<real>, useMedian: bool): (r: Result<real, Exception>)
    ensures r.Err? <==> times == []
    ensures r.Ok? ==> Min(times) <= r.value <= Max(times)
  {
    if times == [] then Err(StatisticsError)
    else if useMedian then Ok(Median(times))
    else Ok(Mean(times))
  }

  /** The median of any ordering of the data is read off the ascending ordering t. */
  lemma MedianOfPermutation(s: seq<real>, t: seq<real>)
    requires |s| > 0 && multiset(s) == multiset(t) && Ordered(t)
    ensures |t| == |s|
    ensures |s| % 2 == 1 ==> Median(s) == t[|s| / 2]
    ensures |s| % 2 == 0 ==> Median(s) == (t[|s| / 2 - 1] + t[|s| / 2]) / 2.0
  {
    assert |t| == |multiset(t)| == |multiset(s)| == |s|;
    OrderedOfSorted(s);
    OrderedUnique(Sort(s, Id), t);
  }

  lemma ThreePermuted(s: seq<real>)
    requires |s| == 3
    ensures multiset(s) == multiset([s[1], s[2], s[0]])
  {
    var a, b, c := [s[0]], [s[1]], [s[2]];
    assert s == a + b + c;
    assert [s[1], s[2], s[0]] == b + c + a;
    assert multiset(s) == multiset(a) + multiset(b) + multiset(c);
    assert multiset(b + c + a) == multiset(b) + multiset(c) + multiset(a);
  }

  lemma FourPermuted(s: seq<real>)
    requires |s| == 4
    ensures multiset(s) == multiset([s[1], s[3], s[2], s[0]])
  {
    var a, b, c, d := [s[0]], [s[1]], [s[2]], [s[3]];
    assert s == a + b + c + d;
    assert [s[1], s[3], s[2], s[0]] == b + d + c + a;
    assert multiset(s) == multiset(a) + multiset(b) + multiset(c) + multiset(d);
    assert multiset(b + d + c + a) == multiset(b) + multiset(d) + multiset(c) + multiset(a);
  }

  /** Three runs whose slowest came first (say 9, 1 and 2 seconds): the median is the
      middle duration (2 for that example). */
  lemma ThreeRunsMedian(s: seq<real>)
    requires |s| == 3 && s[1] <= s[2] <= s[0]
    ensures Reduce(s, true) == Ok(s[2])
  {
    var t := [s[1], s[2], s[0]];
    ThreePermuted(s);
    assert Ordered(t);
    MedianOfPermutation(s, t);
  }

  /** The mean of three runs is their average (4 for 9, 1 and 2 seconds). */
  lemma ThreeRunsMean(s: seq<real>)
    requires |s| == 3
    ensures Reduce(s, false) == Ok((s[0] + s[1] + s[2]) / 3.0)
  {
    SumOfThree(s);
  }

  lemma SumOfThree(s: seq<real>)
    requires |s| == 3
    ensures Sum(s) == s[0] + s[1] + s[2]
  {
    var init := s[..2];
    assert init[..1][..0] == [];
    assert Sum(init[..1]) == s[0];
    assert Sum(init) == s[0] + s[1];
  }

  /** Four runs: the median averages the two middle durations of the sorted data. */
  lemma FourRunsMedian(s: seq<real>)
    requires |s| == 4 && s[1] <= s[3] <= s[2] <= s[0]
    ensures Median(s) == (s[3] + s[2]) / 2.0
  {
    var t := [s[1], s[3], s[2], s[0]];
    FourPermuted(s);
    assert Ordered(t);
    MedianOfPermutation(s, t);
  }
}
