/** Model of neural/TransferFunction.go: the step transfer function and the three
    derivative functions. The logistic and hyperbolic-tangent transfer functions
    themselves are transcendental; the network takes its transfer function as a
    parameter of type `real -> real` instead. */
module Transfer {

  /** Step function: 1 for every non-negative input (0 included), 0 below. */
  function HeavisideTransfer(d: real): (r: real)
    ensures r == 0.0 || r == 1.0
    ensures r == 1.0 <==> d >= 0.0
  {
    if d >= 0.0 then 1.0 else 0.0
  }

  /** The step derivative is the constant 1, kept only so that gradients flow. */
  function HeavisideTransferDerivative(d: real): (r: real)
    ensures r == 1.0
  {
    1.0
  }

  /** The sigmoid derivative is also the constant 1 in this code base, not s(1 - s). */
  function SigmoidTransferDerivative(d: real): (r: real)
    ensures r == 1.0
  {
    1.0
  }

  /** 1 - d^2, applied by the network to the post-activation value d = tanh(x). */
  function HyperbolicTransferDerivative(d: real): (r: real)
    ensures r <= 1.0
  {
    1.0 - d * d
  }

  /** On outputs of tanh, which lie in [-1, 1], the derivative lies in [0, 1]. */
  lemma {:induction false} HyperbolicDerivativeOnActivations(d: real)
    requires -1.0 <= d <= 1.0
    ensures 0.0 <= HyperbolicTransferDerivative(d) <= 1.0
  {
    if d >= 0.0 {
      assert d * d <= 1.0 * d;
    } else {
      assert d * d <= (-1.0) * d;
    }
  }
}
