/** Keeping the results a partial step gives for the elements of a sequence, in order,
    and the positions they come from. */
module Filtering {
  import opened Wrappers

  /** The values f gives for the elements of xs, in order, skipping the elements it
      gives None for. */
  function Collect<T, U>(xs: seq<T>, f: T -> Option<U>): (ys: seq<U>)
    ensures |ys| <= |xs|
  {
    if xs == [] then []
    else
      var init := Collect(xs[..|xs| - 1], f);
      match f(xs[|xs| - 1])
      case Some(y) => init + [y]
      case None => init
  }

  /** The positions, in increasing order, of exactly the elements f gives a value for. */
  function Kept<T, U>(xs: seq<T>, f: T -> Option<U>): (ix: seq<nat>)
    ensures forall k :: 0 <= k < |ix| ==> ix[k] < |xs| && f(xs[ix[k]]).Some?
    ensures forall k, l :: 0 <= k < l < |ix| ==> ix[k] < ix[l]
    ensures forall i :: 0 <= i < |xs| && f(xs[i]).Some? ==> i in ix
  {
    if xs == [] then []
    else
      var prefix := xs[..|xs| - 1];
      var init := Kept(prefix, f);
      assert forall i :: 0 <= i < |prefix| ==> prefix[i] == xs[i];
      if f(xs[|xs| - 1]).Some? then init + [|xs| - 1] else init
  }

  /** Value k collected is the value of the k-th kept element. */
  lemma {:induction false} CollectByIndex<T, U>(xs: seq<T>, f: T -> Option<U>)
    ensures |Collect(xs, f)| == |Kept(xs, f)|
    ensures forall k :: 0 <= k < |Collect(xs, f)| ==> f(xs[Kept(xs, f)[k]]) == Some(Collect(xs, f)[k])
  {
    if xs != [] {
      var prefix := xs[..|xs| - 1];
      CollectByIndex(prefix, f);
      var ix, ys := Kept(xs, f), Collect(xs, f);
      var ix0, ys0 := Kept(prefix, f), Collect(prefix, f);
      forall k | 0 <= k < |ys0|
        ensures f(xs[ix[k]]) == Some(ys[k])
      {
        assert ix[k] == ix0[k] && ys[k] == ys0[k];
        assert xs[ix0[k]] == prefix[ix0[k]];
      }
    }
  }
}
