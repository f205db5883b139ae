/**
 * The activation functions of the neural-network layers. Each is a single conditional or
 * arithmetic formula; `exp` is not interpreted and is passed in by the caller.
 */
module Activations {

  /** The default slope of `LeakyRelu` and scale of `Elu` on the non-positive side. */
  const DefaultAlpha: real := 0.01

  /**
   * The logistic sigmoid, clamped: exactly 1 from 100 up, exactly 0 from -100 down, and
   * `1 / (1 + exp(-x))` in between, which lies strictly between 0 and 1 because `exp` is positive.
   */
  function Sigmoid(x: real, exp: real -> real): (r: real)
    requires exp(-x) > 0.0
    ensures 0.0 <= r <= 1.0
    ensures x >= 100.0 ==> r == 1.0
    ensures x <= -100.0 ==> r == 0.0
    ensures -100.0 < x < 100.0 ==> 0.0 < r < 1.0
  {
    if x >= 100.0 then 1.0
    else if x <= -100.0 then 0.0
    else 1.0 / (1.0 + exp(-x))
  }

  lemma MulNonNegative(a: real, b: real)
    requires 0.0 <= a && 0.0 <= b
    ensures 0.0 <= a * b
  {
  }

  /**
   * The sigmoid's derivative, written in terms of the sigmoid's output `s`: `s * (1 - s)`.
   * On the sigmoid's range it lies in `[0, 1/4]` and it vanishes at both saturation values.
   */
  function SigmoidDerivative(s: real): (d: real)
    ensures 0.0 <= s <= 1.0 ==> 0.0 <= d <= 0.25
    ensures s == 0.0 || s == 1.0 ==> d == 0.0
  {
    assert s * (1.0 - s) == 0.25 - (s - 0.5) * (s - 0.5);
    assert 0.0 <= s <= 1.0 ==> 0.0 <= s * (1.0 - s) by {
      if 0.0 <= s <= 1.0 { MulNonNegative(s, 1.0 - s); }
    }
    s * (1.0 - s)
  }

  /** Past the clamp the sigmoid is saturated: its derivative there is exactly zero. */
  lemma SigmoidSaturates(x: real, exp: real -> real)
    requires exp(-x) > 0.0
    requires x >= 100.0 || x <= -100.0
    ensures SigmoidDerivative(Sigmoid(x, exp)) == 0.0
  {
  }

  /**
   * The derivative of tanh in terms of tanh's output `t`: `1 - t^2`. On tanh's range
   * `[-1, 1]` it lies in `[0, 1]`, and it vanishes at the saturation values `-1` and `1`.
   */
  function TanhDerivative(t: real): (d: real)
    ensures -1.0 <= t <= 1.0 ==> 0.0 <= d <= 1.0
    ensures t == 1.0 || t == -1.0 ==> d == 0.0
  {
    assert -1.0 <= t <= 1.0 ==> t * t <= 1.0 by {
      if -1.0 <= t <= 1.0 {
        if t >= 0.0 { assert t * t <= t * 1.0; } else { assert t * t <= (-t) * 1.0; }
      }
    }
    1.0 - t * t
  }

  /** `max(0, x)`: never negative, `x` itself on the positive side and 0 elsewhere. */
  function Relu(x: real): (r: real)
    ensures r >= 0.0 && r >= x
    ensures x > 0.0 ==> r == x
    ensures x <= 0.0 ==> r == 0.0
  {
    if 0.0 >= x then 0.0 else x
  }

  /** 1 on the positive side, 0 elsewhere. */
  function ReluDerivative(x: real): (d: real)
    ensures d == 0.0 || d == 1.0
    ensures d == 1.0 <==> x > 0.0
  {
    if x > 0.0 then 1.0 else 0.0
  }

  /** `x` on the positive side, `alpha * x` elsewhere. */
  function LeakyRelu(x: real, alpha: real := DefaultAlpha): (r: real)
    ensures x > 0.0 ==> r == x
    ensures x <= 0.0 ==> r == alpha * x
    ensures 0.0 <= alpha <= 1.0 ==> r >= x * alpha && (x <= 0.0 ==> x <= r <= 0.0)
  {
    assert 0.0 <= alpha && x <= 0.0 ==> alpha * x <= 0.0 by {
      if 0.0 <= alpha && x <= 0.0 { assert alpha * (-x) >= 0.0; }
    }
    if x > 0.0 then x else alpha * x
  }

  /** 1 on the positive side, `alpha` elsewhere. */
  function LeakyReluDerivative(x: real, alpha: real := DefaultAlpha): (d: real)
    ensures x > 0.0 ==> d == 1.0
    ensures x <= 0.0 ==> d == alpha
  {
    if x > 0.0 then 1.0 else alpha
  }

  /** `x` on the positive side, `alpha * (exp(x) - 1)` elsewhere. */
  function Elu(x: real, exp: real -> real, alpha: real := DefaultAlpha): (r: real)
    ensures x > 0.0 ==> r == x
  {
    if x > 0.0 then x else alpha * (exp(x) - 1.0)
  }

  /** 1 on the positive side, `alpha * exp(x)` elsewhere. */
  function EluDerivative(x: real, exp: real -> real, alpha: real := DefaultAlpha): (d: real)
    ensures x > 0.0 ==> d == 1.0
  {
    if x > 0.0 then 1.0 else alpha * exp(x)
  }

  /** On the non-positive side the ELU derivative is the ELU value shifted up by `alpha`. */
  lemma EluDerivativeFromValue(x: real, exp: real -> real, alpha: real)
    requires x <= 0.0
    ensures EluDerivative(x, exp, alpha) == Elu(x, exp, alpha) + alpha
  {
  }

  /** A leaky ReLU with slope 0 is the ReLU. */
  lemma LeakyReluGeneralisesRelu(x: real)
    ensures LeakyRelu(x, 0.0) == Relu(x)
  {
  }

  /**
   * The derivatives are the slopes of the piecewise-linear activations: between two points
   * on the same side of 0, the change of the function is the derivative times the change of
   * the argument.
   */
  lemma {:induction false} PiecewiseLinearSlopes(x: real, z: real, alpha: real)
    requires (x > 0.0 && z > 0.0) || (x <= 0.0 && z <= 0.0)
    ensures Relu(z) - Relu(x) == ReluDerivative(x) * (z - x)
    ensures LeakyRelu(z, alpha) - LeakyRelu(x, alpha) == LeakyReluDerivative(x, alpha) * (z - x)
  {
    if x <= 0.0 {
      assert LeakyRelu(z, alpha) - LeakyRelu(x, alpha) == alpha * z - alpha * x == alpha * (z - x);
    }
  }

  /** With a non-negative slope the leaky ReLU is monotone. */
  lemma LeakyReluMonotone(x: real, z: real, alpha: real)
    requires x <= z && 0.0 <= alpha <= 1.0
    ensures LeakyRelu(x, alpha) <= LeakyRelu(z, alpha)
  {
    if z <= 0.0 {
      assert alpha * (z - x) >= 0.0;
    } else if x <= 0.0 {
      assert alpha * x <= 0.0;
    }
  }
}
