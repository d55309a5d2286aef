/** `Array.prototype.filter` and the order-preservation it promises. */
module Seqs {

  /** `a` is obtained from `b` by deleting elements, keeping the order. */
  predicate IsSubsequence<T(==)>(a: seq<T>, b: seq<T>)
    decreases |b|
  {
    if |a| == 0 then true
    else if |b| == 0 then false
    else if a[0] == b[0] then IsSubsequence(a[1..], b[1..])
    else IsSubsequence(a, b[1..])
  }

  /** The elements of `xs` that satisfy `keep`, each as often as it occurs,
      in their original order. */
  function Filter<T(==,!new)>(xs: seq<T>, keep: T -> bool): (ys: seq<T>)
    ensures forall y | y in ys :: y in xs && keep(y)
    ensures forall x | x in xs && keep(x) :: x in ys
    ensures IsSubsequence(ys, xs)
    ensures forall v :: multiset(ys)[v] == if keep(v) then multiset(xs)[v] else 0
    ensures |ys| <= |xs|
  {
    if |xs| == 0 then []
    else
      assert xs == [xs[0]] + xs[1..];
      if keep(xs[0]) then [xs[0]] + Filter(xs[1..], keep)
      else
        var rest := Filter(xs[1..], keep);
        SubsequenceOfTail(rest, xs);
        rest
  }

  /** A subsequence of the tail is a subsequence of the whole. */
  lemma {:induction false} SubsequenceOfTail<T>(a: seq<T>, b: seq<T>)
    requires |b| > 0 && IsSubsequence(a, b[1..])
    ensures IsSubsequence(a, b)
    decreases |b|
  {
    if |a| > 0 && a[0] == b[0] {
      SubsequenceDropsHead(a, b[1..]);
      SubsequenceOfTail(a[1..], b[1..]);
    }
  }

  /** Dropping the head of a non-empty subsequence keeps it a subsequence of
      what follows its first match. */
  lemma {:induction false} SubsequenceDropsHead<T>(a: seq<T>, b: seq<T>)
    requires |a| > 0 && IsSubsequence(a, b)
    ensures |b| > 0 && IsSubsequence(a[1..], b[1..])
    decreases |b|
  {
    if a[0] != b[0] {
      SubsequenceDropsHead(a, b[1..]);
      SubsequenceOfTail(a[1..], b[1..]);
    }
  }

  /** Filtering keeps the relative order of any two kept elements: the
      kept elements of a split list are the kept elements of each half. */
  lemma {:induction false} FilterDistributes<T(!new)>(xs: seq<T>, zs: seq<T>, keep: T -> bool)
    ensures Filter(xs + zs, keep) == Filter(xs, keep) + Filter(zs, keep)
  {
    if |xs| == 0 {
      assert xs + zs == zs;
    } else {
      assert (xs + zs)[1..] == xs[1..] + zs;
      FilterDistributes(xs[1..], zs, keep);
    }
  }
}
