/** Uniform random draws. Every `Math.random()` call of the source becomes an
    explicit `real` parameter in [0, 1); this module holds the two ways the
    source turns such a draw into an integer. */
module Draws {

  predicate IsDraw(r: real)
  {
    0.0 <= r < 1.0
  }

  /** `Math.floor(r * n)`: a uniformly chosen index into a list of `n` items. */
  function Index(r: real, n: nat): (i: nat)
    requires IsDraw(r) && n > 0
    ensures i < n
  {
    FloorOfScaled(r, n);
    (r * n as real).Floor
  }

  /** `Math.floor(r * (hi - lo + 1)) + lo`: a uniform integer in [lo, hi]. */
  function Between(r: real, lo: int, hi: int): (v: int)
    requires IsDraw(r) && lo <= hi
    ensures lo <= v <= hi
  {
    lo + Index(r, hi - lo + 1)
  }

  lemma FloorOfScaled(r: real, n: nat)
    requires IsDraw(r) && n > 0
    ensures 0 <= (r * n as real).Floor < n
  {
    assert r * n as real < n as real by {
      assert (1.0 - r) * n as real > 0.0;
    }
  }

  /** Every index is hit by some draw: the start of its slice of [0, 1). */
  lemma IndexReachesEvery(k: nat, n: nat)
    requires k < n
    ensures IsDraw(k as real / n as real) && Index(k as real / n as real, n) == k
  {
    var r := k as real / n as real;
    assert r * n as real == k as real;
  }
}
