/**
 * The scalar helpers at the top of the LSTM layer: the logistic sigmoid,
 * the clamped hyperbolic tangent, and their derivatives expressed in terms
 * of the activated value. Arithmetic is over `real`; the exponential is an
 * abstract total function that is positive everywhere and one at zero.
 */
module Activations {

  /** The two facts about the exponential the layer relies on: positive everywhere, and one at zero. */
  ghost predicate IsExponential(f: real -> real)
  {
    (forall x :: f(x) > 0.0) && f(0.0) == 1.0
  }

  /** An exponential function: positive everywhere, and `exp(0) == 1`. */
  type Exponential = f: real -> real | IsExponential(f)
    witness (x: real) => 1.0

  function Abs(x: real): (a: real)
    ensures a >= 0.0 && (a == x || a == -x)
  {
    if x < 0.0 then -x else x
  }

  /** `sigmoid(x) = 1 / (1 + exp(-x))`, which lies strictly between 0 and 1. */
  function Sigmoid(exp: Exponential, x: real): (s: real)
    ensures 0.0 < s < 1.0
  {
    var e := exp(-x);
    assert e > 0.0;
    1.0 / (1.0 + e)
  }

  /** `sigmoid_diff(g) = g * (1 - g)`: positive and at most 1/4 for a gate value in (0, 1). */
  function SigmoidDiff(g: real): (d: real)
    ensures 0.0 < g < 1.0 ==> 0.0 < d <= 0.25
  {
    assert 0.25 - g * (1.0 - g) == (g - 0.5) * (g - 0.5);
    g * (1.0 - g)
  }

  /**
   * The stable tanh: exactly 1 for `x >= 5`, exactly -1 for `x <= -5`, and
   * `(exp(2x) - 1) / (exp(2x) + 1)` in between, which lies strictly inside
   * (-1, 1). The clamp is decided by `|x| < 5`.
   */
  function Tanh(exp: Exponential, x: real): (t: real)
    ensures x >= 5.0 ==> t == 1.0
    ensures x <= -5.0 ==> t == -1.0
    ensures -1.0 <= t <= 1.0
    ensures -1.0 < t < 1.0 <==> Abs(x) < 5.0
  {
    var e := exp(2.0 * x);
    if Abs(x) < 5.0 then
      TanhRatioBounds(e);
      (e - 1.0) / (e + 1.0)
    else if x > 0.0 then 1.0 else -1.0
  }

  lemma TanhRatioBounds(e: real)
    requires e > 0.0
    ensures -1.0 < (e - 1.0) / (e + 1.0) < 1.0
  {
    var t := (e - 1.0) / (e + 1.0);
    assert t * (e + 1.0) == e - 1.0;
    assert (t - 1.0) * (e + 1.0) == -2.0;
    assert (t + 1.0) * (e + 1.0) == 2.0 * e;
  }

  /** `tanh_diff(v) = 1 - v * v`: between 0 and 1 for a value in [-1, 1]. */
  function TanhDiff(v: real): (d: real)
    ensures -1.0 <= v <= 1.0 ==> 0.0 <= d <= 1.0
  {
    assert -1.0 <= v <= 1.0 ==> 0.0 <= v * v <= 1.0 by {
      if -1.0 <= v <= 1.0 {
        if v >= 0.0 { assert v * v <= v * 1.0; } else { assert v * v <= (-v) * 1.0; }
      }
    }
    1.0 - v * v
  }

  /** At zero the gates open half-way and the candidate value is zero. */
  lemma ActivationsAtZero(exp: Exponential)
    ensures Sigmoid(exp, 0.0) == 0.5
    ensures Tanh(exp, 0.0) == 0.0
  {
    assert -0.0 == 0.0 && 2.0 * 0.0 == 0.0;
    assert exp(0.0) == 1.0;
  }

  /**
   * The sigmoid derivative taken from the stored output equals the closed
   * form `exp(-x) / (1 + exp(-x))^2` at the pre-activation x.
   */
  lemma SigmoidDiffOfOutput(exp: Exponential, x: real)
    ensures SigmoidDiff(Sigmoid(exp, x)) == exp(-x) / ((1.0 + exp(-x)) * (1.0 + exp(-x)))
  {
    var e := exp(-x);
    assert e > 0.0;
    var s := Sigmoid(exp, x);
    assert s * (1.0 + e) == 1.0;
    assert (1.0 - s) * (1.0 + e) == e;
    assert s * (1.0 - s) * ((1.0 + e) * (1.0 + e)) == e;
  }

  /**
   * The tanh derivative taken from the stored output equals the closed form
   * `4 exp(2x) / (exp(2x) + 1)^2` inside the clamp, and 0 on the clamped
   * branches, where the function is constant.
   */
  lemma TanhDiffOfOutput(exp: Exponential, x: real)
    ensures Abs(x) < 5.0 ==>
      TanhDiff(Tanh(exp, x)) == 4.0 * exp(2.0 * x) / ((exp(2.0 * x) + 1.0) * (exp(2.0 * x) + 1.0))
    ensures Abs(x) >= 5.0 ==> TanhDiff(Tanh(exp, x)) == 0.0
  {
    var e := exp(2.0 * x);
    assert e > 0.0;
    if Abs(x) < 5.0 {
      var t := Tanh(exp, x);
      assert t * (e + 1.0) == e - 1.0;
      assert (1.0 - t * t) * ((e + 1.0) * (e + 1.0)) == (e + 1.0) * (e + 1.0) - (e - 1.0) * (e - 1.0);
    }
  }

  /**
   * Inside the clamp, tanh agrees with the sigmoid form `2 sigmoid(2x) - 1`,
   * for any exponential with `exp(-2x) * exp(2x) == 1`.
   */
  lemma TanhViaSigmoid(exp: Exponential, x: real)
    requires Abs(x) < 5.0
    requires exp(-(2.0 * x)) * exp(2.0 * x) == 1.0
    ensures Tanh(exp, x) == 2.0 * Sigmoid(exp, 2.0 * x) - 1.0
  {
    var e, f := exp(2.0 * x), exp(-(2.0 * x));
    assert e > 0.0 && f > 0.0;
    var s := Sigmoid(exp, 2.0 * x);
    assert s * (1.0 + f) == 1.0;
    assert e * f == 1.0;
    assert s * (e + 1.0) == e by {
      assert e + 1.0 == e + e * f;
      assert s * (e + e * f) == e * (s * (1.0 + f));
    }
    var t := Tanh(exp, x);
    assert t * (e + 1.0) == e - 1.0;
    assert (2.0 * s - 1.0) * (e + 1.0) == e - 1.0;
  }
}
