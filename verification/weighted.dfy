/** The cumulative-weight walk both weighted choices of the personality
    engine perform: visit the weights in order, add each to a running sum,
    and stop at the first position whose running sum reaches the draw. */
module Weighted {
  import opened Wrappers

  /** The sum of the first `n` weights. */
  function PrefixSum(ws: seq<real>, n: nat): real
    requires n <= |ws|
  {
    if n == 0 then 0.0 else PrefixSum(ws, n - 1) + ws[n - 1]
  }

  function Sum(ws: seq<real>): real
  {
    PrefixSum(ws, |ws|)
  }

  /** The running sum once position `t` has been added. */
  function Cumulative(ws: seq<real>, t: nat): real
    requires t < |ws|
  {
    PrefixSum(ws, t + 1)
  }

  /** Position `j` is where a walk that started at `from` stops for draw `r`. */
  ghost predicate StopsAt(ws: seq<real>, r: real, from: nat, j: nat)
  {
    && from <= j < |ws|
    && r <= Cumulative(ws, j)
    && forall t :: from <= t < j ==> Cumulative(ws, t) < r
  }

  /** No position at or after `from` reaches the draw. */
  ghost predicate NeverReaches(ws: seq<real>, r: real, from: nat)
    requires from <= |ws|
  {
    forall t :: from <= t < |ws| ==> Cumulative(ws, t) < r
  }

  /** The loop body of the walk, resumed at position `i` with running sum
      `acc`; `None` when the loop ends without a match. */
  function Walk(ws: seq<real>, r: real, i: nat, acc: real): (res: Option<nat>)
    requires i <= |ws| && acc == PrefixSum(ws, i)
    ensures res.Some? ==> StopsAt(ws, r, i, res.value)
    ensures res.None? ==> NeverReaches(ws, r, i)
    decreases |ws| - i
  {
    if i == |ws| then None
    else
      var acc' := acc + ws[i];
      if r <= acc' then Some(i) else Walk(ws, r, i + 1, acc')
  }

  /** The position a draw selects, or `None` when no running sum reaches it. */
  function FirstReaching(ws: seq<real>, r: real): (res: Option<nat>)
    ensures res.Some? ==> StopsAt(ws, r, 0, res.value)
    ensures res.None? ==> NeverReaches(ws, r, 0)
  {
    Walk(ws, r, 0, 0.0)
  }

  /** The first position satisfying the walk's stop condition is unique, so
      the walk's answer is the only one possible. */
  lemma StopIsUnique(ws: seq<real>, r: real, j: nat, j': nat)
    requires StopsAt(ws, r, 0, j) && StopsAt(ws, r, 0, j')
    ensures j == j'
  {
  }

  /** Non-negative weights give a non-decreasing running sum. */
  lemma {:induction false} PrefixSumMonotone(ws: seq<real>, m: nat, n: nat)
    requires m <= n <= |ws|
    requires forall i :: 0 <= i < |ws| ==> 0.0 <= ws[i]
    ensures PrefixSum(ws, m) <= PrefixSum(ws, n)
    decreases n - m
  {
    if m < n {
      PrefixSumMonotone(ws, m, n - 1);
    }
  }

  /** If the total reaches the draw, the walk always stops somewhere. */
  lemma TotalReachedMeansMatch(ws: seq<real>, r: real)
    requires |ws| > 0 && r <= Sum(ws)
    ensures FirstReaching(ws, r).Some?
  {
    assert Cumulative(ws, |ws| - 1) == Sum(ws);
  }

  /** For a positive draw, a position whose weight is zero is never the
      answer: its running sum equals the one before it. */
  lemma ZeroWeightNeverChosen(ws: seq<real>, r: real)
    requires 0.0 < r
    requires FirstReaching(ws, r).Some?
    ensures ws[FirstReaching(ws, r).value] != 0.0
  {
    var j := FirstReaching(ws, r).value;
    if j > 0 {
      assert Cumulative(ws, j - 1) == PrefixSum(ws, j);
    }
  }

  /** Dividing every weight by the same total divides every running sum by
      it, so the normalised walk compares `r` against `PrefixSum / total`. */
  lemma {:induction false} NormalisedPrefixSum(ws: seq<real>, ns: seq<real>, total: real, n: nat)
    requires total != 0.0 && |ns| == |ws| && n <= |ws|
    requires forall i :: 0 <= i < |ws| ==> ns[i] == ws[i] / total
    ensures PrefixSum(ns, n) == PrefixSum(ws, n) / total
  {
    if n > 0 {
      NormalisedPrefixSum(ws, ns, total, n - 1);
    }
  }

  lemma SumOfFive(ws: seq<real>)
    requires |ws| == 5
    ensures Sum(ws) == ws[0] + ws[1] + ws[2] + ws[3] + ws[4]
  {
    assert PrefixSum(ws, 1) == ws[0];
    assert PrefixSum(ws, 2) == ws[0] + ws[1];
    assert PrefixSum(ws, 3) == ws[0] + ws[1] + ws[2];
    assert PrefixSum(ws, 4) == ws[0] + ws[1] + ws[2] + ws[3];
  }

  lemma SumOfSeven(ws: seq<real>)
    requires |ws| == 7
    ensures Sum(ws) == ws[0] + ws[1] + ws[2] + ws[3] + ws[4] + ws[5] + ws[6]
  {
    assert PrefixSum(ws, 1) == ws[0];
    assert PrefixSum(ws, 2) == ws[0] + ws[1];
    assert PrefixSum(ws, 3) == ws[0] + ws[1] + ws[2];
    assert PrefixSum(ws, 4) == ws[0] + ws[1] + ws[2] + ws[3];
    assert PrefixSum(ws, 5) == ws[0] + ws[1] + ws[2] + ws[3] + ws[4];
    assert PrefixSum(ws, 6) == ws[0] + ws[1] + ws[2] + ws[3] + ws[4] + ws[5];
  }
}
