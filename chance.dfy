/**
 * The games draw all their randomness from `Math.random()`, a real in [0, 1).
 * Here every draw is an input: a caller-supplied real `u` with `IsDraw(u)`.
 * This module holds the two ways the games turn a draw into a value.
 */
module Chance {

  /** A value `Math.random()` can return. */
  predicate IsDraw(u: real) {
    0.0 <= u < 1.0
  }

  predicate AllDraws(us: seq<real>) {
    forall k :: 0 <= k < |us| ==> IsDraw(us[k])
  }

  /** `Math.floor(Math.random() * n)`: an index into a collection of `n` things. */
  function Pick(u: real, n: nat): (j: nat)
    requires IsDraw(u) && n > 0
    ensures j < n
  {
    var scaled := u * (n as real);
    assert 0.0 <= scaled < n as real by {
      assert u * (n as real) < 1.0 * (n as real);
    }
    scaled.Floor
  }

  /** The real `Math.floor` for non-negative arguments, as an integer. */
  function Floor(v: real): (r: int)
    ensures r as real <= v < r as real + 1.0
  {
    v.Floor
  }

  /** `Math.round`: halves round up. */
  function Round(v: real): (r: int)
    ensures v - 0.5 < r as real <= v + 0.5
  {
    (v + 0.5).Floor
  }
}
