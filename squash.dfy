// The clamped logistic shared by the windowed and the pair kernels.
//
// The kernels call the C library's `exp`; the model takes it as a parameter
// of type ExpFn, about which nothing is known except that it is positive.

module Squash {

  /** Stand-in for `exp`: any real function whose values are all positive. */
  type ExpFn = f: real -> real | forall x :: f(x) > 0.0 witness (x: real) => 1.0

  /**
   * The squashing step of both kernels: the score is clamped to 1 above 16,
   * to 0 below -16, and is `1 / (1 + exp(x))` in between, which is the
   * logistic of `-x` (so the function jumps at both clamps).
   */
  function Logistic(exp: ExpFn, x: real): (r: real)
    ensures 0.0 <= r <= 1.0
    ensures x > 16.0 ==> r == 1.0
    ensures x < -16.0 ==> r == 0.0
    ensures -16.0 <= x <= 16.0 ==> 0.0 < r < 1.0 && r * (1.0 + exp(x)) == 1.0
  {
    if x > 16.0 then 1.0
    else if x < -16.0 then 0.0
    else 1.0 / (1.0 + exp(x))
  }

  /**
   * The middle branch decreases where `exp` increases, while the clamps go
   * the other way: at 16 the value is below one half, just above it is 1.
   * (Any `exp` with `exp(16) > 1`, as the real one has, shows the jump.)
   */
  lemma LogisticJumpsAtUpperClamp(exp: ExpFn)
    requires exp(16.0) > 1.0
    ensures Logistic(exp, 16.0) < 0.5
    ensures Logistic(exp, 16.5) == 1.0
  {
    var e := exp(16.0);
    assert Logistic(exp, 16.0) * (1.0 + e) == 1.0;
  }

  /** Symmetrically, at -16 the value is above one half, just below it is 0. */
  lemma LogisticJumpsAtLowerClamp(exp: ExpFn)
    requires exp(-16.0) < 1.0
    ensures Logistic(exp, -16.0) > 0.5
    ensures Logistic(exp, -16.5) == 0.0
  {
    var e := exp(-16.0);
    assert Logistic(exp, -16.0) * (1.0 + e) == 1.0;
  }
}
