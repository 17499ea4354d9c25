/** The inside/outside split that the animation draws: selecting the points
    whose colour flag is true (inside the circle) or false (outside). */
module Partition {

  /** Number of `true` flags in `c`: the count of points inside the circle. */
  function CountTrue(c: seq<bool>): (r: nat)
    ensures r <= |c|
  {
    if c == [] then 0
    else CountTrue(c[..|c| - 1]) + (if c[|c| - 1] then 1 else 0)
  }

  /** The positions of `c` holding `b`, in ascending order: the comprehension
      `[i for i, inside in enumerate(colors) if inside == b]`. */
  function IndicesWhere(c: seq<bool>, b: bool): (r: seq<nat>)
    ensures forall j :: 0 <= j < |r| ==> r[j] < |c| && c[r[j]] == b
  {
    if c == [] then []
    else
      var front := IndicesWhere(c[..|c| - 1], b);
      assert forall j :: 0 <= j < |front| ==> c[..|c| - 1][front[j]] == c[front[j]];
      front + (if c[|c| - 1] == b then [|c| - 1] else [])
  }

  /** The selected positions are strictly increasing (the order of `c` is
      kept) and every position holding `b` is selected. */
  lemma {:induction false} IndicesWhereSpec(c: seq<bool>, b: bool)
    ensures forall j, k :: 0 <= j < k < |IndicesWhere(c, b)| ==> IndicesWhere(c, b)[j] < IndicesWhere(c, b)[k]
    ensures forall i :: 0 <= i < |c| && c[i] == b ==> i in IndicesWhere(c, b)
  {
    if c != [] {
      var c' := c[..|c| - 1];
      IndicesWhereSpec(c', b);
      assert forall i :: 0 <= i < |c'| ==> c'[i] == c[i];
    }
  }

  /** The elements of `xs` at the positions `idx`, in the order of `idx`:
      the comprehension `[points_x[i] for i in indices]`. */
  function Pick<T>(xs: seq<T>, idx: seq<nat>): (r: seq<T>)
    requires forall j :: 0 <= j < |idx| ==> idx[j] < |xs|
  {
    seq(|idx|, j requires 0 <= j < |idx| => xs[idx[j]])
  }

  /** Reference definition of the selection: the elements of `xs` whose flag
      in `c` is `b`, kept in their original order. */
  function Filter<T>(xs: seq<T>, c: seq<bool>, b: bool): (r: seq<T>)
    requires |xs| == |c|
    ensures |r| <= |xs|
  {
    if xs == [] then []
    else
      Filter(xs[..|xs| - 1], c[..|c| - 1], b)
      + (if c[|c| - 1] == b then [xs[|xs| - 1]] else [])
  }

  /** Picking the positions selected by the comprehension is the
      order-preserving filter of `xs` by its flags. */
  lemma {:induction false} PickIndicesIsFilter<T>(xs: seq<T>, c: seq<bool>, b: bool)
    requires |xs| == |c|
    ensures Pick(xs, IndicesWhere(c, b)) == Filter(xs, c, b)
  {
    if xs != [] {
      var n := |xs|;
      var xs', c' := xs[..n - 1], c[..n - 1];
      PickIndicesIsFilter(xs', c', b);
      var front := IndicesWhere(c', b);
      var tail: seq<nat> := if c[n - 1] == b then [n - 1] else [];
      PickAppend(xs, front, tail);
      PickPrefix(xs, front, n - 1);
    }
  }

  /** Picking along a concatenation of index lists concatenates the picks. */
  lemma PickAppend<T>(xs: seq<T>, a: seq<nat>, b: seq<nat>)
    requires forall j :: 0 <= j < |a| ==> a[j] < |xs|
    requires forall j :: 0 <= j < |b| ==> b[j] < |xs|
    ensures Pick(xs, a + b) == Pick(xs, a) + Pick(xs, b)
  {
  }

  /** Indices below `m` pick the same elements from `xs` and from `xs[..m]`. */
  lemma PickPrefix<T>(xs: seq<T>, idx: seq<nat>, m: nat)
    requires m <= |xs|
    requires forall j :: 0 <= j < |idx| ==> idx[j] < m
    ensures Pick(xs, idx) == Pick(xs[..m], idx)
  {
  }

  /** The inside and outside selections are as long as the counts of true
      and false flags. */
  lemma {:induction false} FilterLengths<T>(xs: seq<T>, c: seq<bool>)
    requires |xs| == |c|
    ensures |Filter(xs, c, true)| == CountTrue(c)
    ensures |Filter(xs, c, false)| == |xs| - CountTrue(c)
  {
    if xs != [] {
      FilterLengths(xs[..|xs| - 1], c[..|c| - 1]);
    }
  }

  /** Together the inside and outside selections hold every element of `xs`
      exactly once. */
  lemma {:induction false} FilterPartition<T>(xs: seq<T>, c: seq<bool>)
    requires |xs| == |c|
    ensures multiset(Filter(xs, c, true)) + multiset(Filter(xs, c, false)) == multiset(xs)
  {
    if xs != [] {
      FilterPartition(xs[..|xs| - 1], c[..|c| - 1]);
      assert xs == xs[..|xs| - 1] + [xs[|xs| - 1]];
    }
  }

  /** There are as many inside indices as true flags, and the inside and
      outside index lists together cover every position. */
  lemma {:induction false} IndicesWhereCount(c: seq<bool>)
    ensures |IndicesWhere(c, true)| == CountTrue(c)
    ensures |IndicesWhere(c, true)| + |IndicesWhere(c, false)| == |c|
  {
    if c != [] {
      IndicesWhereCount(c[..|c| - 1]);
    }
  }
}
