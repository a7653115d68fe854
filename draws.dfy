/** Values drawn from `Math.random()`, which the model receives as parameters. */
module Draws {

  /** A draw lies in the half-open interval [0, 1). */
  predicate IsDraw(r: real) {
    0.0 <= r < 1.0
  }

  /** `Math.floor(r * n)`: the index of the one of `n` equal-width slices of
      [0, 1) that holds `r`, so every index is equally likely. */
  function Bucket(r: real, n: nat): (k: nat)
    requires IsDraw(r) && n > 0
    ensures k < n
    ensures k as real <= r * n as real < k as real + 1.0
  {
    assert r * n as real < n as real by {
      assert (1.0 - r) * n as real > 0.0;
    }
    (r * n as real).Floor
  }
}
