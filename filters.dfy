/**
 * The list comprehension `[f(x) for x in xs if keep(x)]`, used by the
 * pipeline wherever it filters a list and reshapes what it keeps, with the
 * facts that make it a filter: what it returns is, in order, the image of
 * exactly the elements that pass.
 */
module Filters {

  /** `[f(x) for x in xs if keep(x)]`. */
  function FilterMap<T, U>(xs: seq<T>, keep: T -> bool, f: T -> U): (r: seq<U>)
    ensures |r| <= |xs|
  {
    if xs == [] then []
    else FilterMap(xs[..|xs| - 1], keep, f) + (if keep(xs[|xs| - 1]) then [f(xs[|xs| - 1])] else [])
  }

  /** The indices of the elements of `xs` that pass `keep`, in increasing order. */
  function KeptIndices<T>(xs: seq<T>, keep: T -> bool): (r: seq<nat>)
    ensures forall k :: 0 <= k < |r| ==> r[k] < |xs|
  {
    if xs == [] then []
    else KeptIndices(xs[..|xs| - 1], keep) + (if keep(xs[|xs| - 1]) then [|xs| - 1] else [])
  }

  /** The k-th element of the result is the image of the k-th passing element. */
  lemma {:induction false} FilterMapAt<T, U>(xs: seq<T>, keep: T -> bool, f: T -> U)
    ensures |KeptIndices(xs, keep)| == |FilterMap(xs, keep, f)|
    ensures forall k :: 0 <= k < |KeptIndices(xs, keep)| ==>
      keep(xs[KeptIndices(xs, keep)[k]]) && FilterMap(xs, keep, f)[k] == f(xs[KeptIndices(xs, keep)[k]])
    decreases |xs|
  {
    if xs != [] {
      var init := xs[..|xs| - 1];
      FilterMapAt(init, keep, f);
      assert forall j :: 0 <= j < |init| ==> init[j] == xs[j];
    }
  }

  /** The passing elements are taken in the order they come, each once. */
  lemma {:induction false} KeptIndicesIncrease<T>(xs: seq<T>, keep: T -> bool)
    ensures forall a, b :: 0 <= a < b < |KeptIndices(xs, keep)| ==> KeptIndices(xs, keep)[a] < KeptIndices(xs, keep)[b]
    decreases |xs|
  {
    if xs != [] {
      KeptIndicesIncrease(xs[..|xs| - 1], keep);
    }
  }

  /** No passing element is left out. */
  lemma {:induction false} KeptIndicesComplete<T>(xs: seq<T>, keep: T -> bool)
    ensures forall j :: 0 <= j < |xs| && keep(xs[j]) ==> j in KeptIndices(xs, keep)
    decreases |xs|
  {
    if xs != [] {
      var init := xs[..|xs| - 1];
      KeptIndicesComplete(init, keep);
      assert forall j :: 0 <= j < |init| ==> init[j] == xs[j];
    }
  }

  /** Filtering a concatenation filters each part. */
  lemma {:induction false} FilterMapAppend<T, U>(xs: seq<T>, ys: seq<T>, keep: T -> bool, f: T -> U)
    ensures FilterMap(xs + ys, keep, f) == FilterMap(xs, keep, f) + FilterMap(ys, keep, f)
    decreases |ys|
  {
    if ys == [] {
      assert xs + ys == xs;
    } else {
      var ys' := ys[..|ys| - 1];
      assert (xs + ys)[..|xs + ys| - 1] == xs + ys';
      FilterMapAppend(xs, ys', keep, f);
    }
  }

  /** The filter of `[x] + xs`. */
  lemma FilterMapCons<T, U>(x: T, xs: seq<T>, keep: T -> bool, f: T -> U)
    ensures FilterMap([x] + xs, keep, f) == (if keep(x) then [f(x)] else []) + FilterMap(xs, keep, f)
  {
    FilterMapAppend([x], xs, keep, f);
    assert [x][..0] == [];
  }
}
