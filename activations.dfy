/** The activation functions of a layer and their derivatives
    (neural_network/NeuralLayer.py:61-84). Each derivative takes the
    activation's OUTPUT y, not its input. The exponential that the forward
    sigmoid needs is supplied by the caller; the forward tanh is not modelled. */
module Activations {

  /** Bound of the clip applied to the sigmoid's input before the exponential. */
  const ClipBound: real := 500.0

  /** activation_linear: the identity, every input is its own output. */
  function Linear(x: real): (y: real)
    ensures y == x
  {
    x
  }

  /** activation_linear_deriv: the constant 1. */
  function LinearDeriv(y: real): (d: real)
    ensures d == 1.0
  {
    1.0
  }

  /** The clip step of activation_sigmoid: every input lands in
      [-500, 500], inputs already there are unchanged, and inputs beyond a
      bound are sent to that bound. */
  function Clip(x: real): (r: real)
    ensures -ClipBound <= r <= ClipBound
    ensures -ClipBound <= x <= ClipBound ==> r == x
    ensures x > ClipBound ==> r == ClipBound
    ensures x < -ClipBound ==> r == -ClipBound
  {
    if x < -ClipBound then -ClipBound else if x > ClipBound then ClipBound else x
  }

  /** activation_sigmoid, with the exponential given as `exp`: the input is
      clipped, then 1 / (1 + exp(-x)). When the exponential is positive the
      result lies strictly between 0 and 1. */
  function Sigmoid(exp: real -> real, x: real): (y: real)
    requires exp(-Clip(x)) > 0.0
    ensures 0.0 < y < 1.0
  {
    1.0 / (1.0 + exp(-Clip(x)))
  }

  /** activation_sigmoid_deriv: (1 - y) * y, which lies in [0, 1/4] for a
      sigmoid output y in [0, 1]. */
  function SigmoidDeriv(y: real): (d: real)
    ensures 0.0 <= y <= 1.0 ==> 0.0 <= d <= 0.25
  {
    assert 0.25 - (1.0 - y) * y == (y - 0.5) * (y - 0.5);
    SquareNonNegative(y - 0.5);
    ProductNonNegative(1.0 - y, y);
    (1.0 - y) * y
  }

  /** activation_tanh_deriv: 1 - y^2, which lies in [0, 1] for a tanh output
      y in [-1, 1]. */
  function TanhDeriv(y: real): (d: real)
    ensures -1.0 <= y <= 1.0 ==> 0.0 <= d <= 1.0
  {
    SquareNonNegative(y);
    assert 1.0 - y * y == (1.0 - y) * (1.0 + y);
    ProductNonNegative(1.0 - y, 1.0 + y);
    1.0 - y * y
  }

  lemma ProductNonNegative(a: real, b: real)
    ensures a >= 0.0 && b >= 0.0 ==> a * b >= 0.0
  {
  }

  lemma SquareNonNegative(a: real)
    ensures a * a >= 0.0
  {
    if a < 0.0 {
      ProductNonNegative(-a, -a);
    }
  }

  /** The output-space derivative of the sigmoid equals its input-space
      derivative e / (1 + e)^2, where e = exp(-x) after clipping. */
  lemma SigmoidDerivMatchesInputSpace(exp: real -> real, x: real)
    requires exp(-Clip(x)) > 0.0
    ensures var e := exp(-Clip(x));
            SigmoidDeriv(Sigmoid(exp, x)) == e / ((1.0 + e) * (1.0 + e))
  {
    var e := exp(-Clip(x));
    var y := Sigmoid(exp, x);
    assert y * (1.0 + e) == 1.0;
    assert 1.0 - y == e * y;
    calc {
      SigmoidDeriv(y);
      (1.0 - y) * y;
      e * y * y;
      e / ((1.0 + e) * (1.0 + e));
    }
  }

  /** With t = exp(-2x), tanh(x) = (1 - t) / (1 + t); its output-space
      derivative 1 - y^2 equals its input-space derivative 4t / (1 + t)^2. */
  lemma TanhDerivMatchesInputSpace(t: real)
    requires t > 0.0
    ensures TanhDeriv((1.0 - t) / (1.0 + t)) == 4.0 * t / ((1.0 + t) * (1.0 + t))
  {
    var y := (1.0 - t) / (1.0 + t);
    var u := 1.0 / (1.0 + t);
    assert y == (1.0 - t) * u;
    assert u * (1.0 + t) == 1.0;
    assert 1.0 - y == 2.0 * t * u;
    assert 1.0 + y == 2.0 * u;
    calc {
      TanhDeriv(y);
      1.0 - y * y;
      (1.0 - y) * (1.0 + y);
      4.0 * t * u * u;
      4.0 * t / ((1.0 + t) * (1.0 + t));
    }
  }
}
