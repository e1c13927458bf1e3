/** The ReLU and LeakyReLU activations of core/layers.py and the Activation base they
    share: the forward pass applies `func` to every entry and remembers the inputs, the
    backward pass multiplies the gradient entrywise by `derivative_func` of those inputs.
    Both are elementwise, so a tensor of any shape is modelled by the sequence of its
    entries. */
module ActivationLayer {
  import opened Tensors
  import opened LinAlg
  import opened Wrappers

  /** Which activation: ReLU, or LeakyReLU with its `slope`. */
  datatype ActKind = ReLU | LeakyReLU(slope: real)

  /** `func` on one entry: `np.maximum(x, 0.0)` for ReLU; for LeakyReLU the negative
      entries are multiplied by the slope. */
  function Func(k: ActKind, x: real): real
  {
    match k
    case ReLU => if x > 0.0 then x else 0.0
    case LeakyReLU(slope) => if x < 0.0 then x * slope else x
  }

  /** `derivative_func` on one entry: `x > 0.0` (as 1 or 0) for ReLU; for LeakyReLU the
      slope at negative entries and 1 elsewhere. */
  function Derivative(k: ActKind, x: real): real
  {
    match k
    case ReLU => if x > 0.0 then 1.0 else 0.0
    case LeakyReLU(slope) => if x < 0.0 then slope else 1.0
  }

  /** Activation.forward on the entries of a tensor. */
  function ActForward(k: ActKind, x: Vec): (y: Vec)
    ensures |y| == |x|
  {
    seq(|x|, i requires 0 <= i < |x| => Func(k, x[i]))
  }

  /** Activation.backward: `derivative_func(inputs) * grad`. */
  function ActBackward(k: ActKind, inputs: Vec, grad: Vec): (d: Vec)
    requires |grad| == |inputs|
    ensures |d| == |inputs|
  {
    Hadamard(seq(|inputs|, i requires 0 <= i < |inputs| => Derivative(k, inputs[i])), grad)
  }

  // ---------------------------------------------------------------------------
  // Properties of one entry

  /** Both activations are piecewise linear through the origin: the output is the
      derivative times the input. */
  lemma FuncIsDerivativeTimesInput(k: ActKind, x: real)
    ensures Func(k, x) == Derivative(k, x) * x
  {
  }

  /** `derivative_func` is the derivative of `func` away from 0: on the side of 0 that x
      is on, `func` moves by exactly the derivative times the step. */
  lemma DerivativeExact(k: ActKind, x: real, h: real)
    requires (x > 0.0 && x + h > 0.0) || (x < 0.0 && x + h < 0.0)
    ensures Func(k, x + h) == Func(k, x) + Derivative(k, x) * h
  {
  }

  /** ReLU outputs are never negative, and applying ReLU twice is applying it once. */
  lemma ReLUProperties(x: real)
    ensures Func(ReLU, x) >= 0.0
    ensures Func(ReLU, Func(ReLU, x)) == Func(ReLU, x)
  {
  }

  /** With a positive slope LeakyReLU keeps the sign of the input, is strictly
      increasing, and is undone by LeakyReLU with the reciprocal slope. */
  lemma LeakyReLUProperties(slope: real, x: real, y: real)
    requires slope > 0.0
    ensures Func(LeakyReLU(slope), x) < 0.0 <==> x < 0.0
    ensures x < y ==> Func(LeakyReLU(slope), x) < Func(LeakyReLU(slope), y)
    ensures Func(LeakyReLU(1.0 / slope), Func(LeakyReLU(slope), x)) == x
  {
  }

  // ---------------------------------------------------------------------------
  // The backward pass is the gradient of the forward pass

  /** For inputs x with no zero entry, and a step dx that moves no entry across 0,
      <grad, forward(x + dx)> == <grad, forward(x)> + <backward(x, grad), dx>. */
  lemma {:induction false} ActGradient(k: ActKind, x: Vec, dx: Vec, grad: Vec)
    requires |dx| == |x| && |grad| == |x|
    requires forall i :: 0 <= i < |x| ==>
      (x[i] > 0.0 && x[i] + dx[i] > 0.0) || (x[i] < 0.0 && x[i] + dx[i] < 0.0)
    ensures Dot(grad, ActForward(k, VecAdd(x, dx)))
         == Dot(grad, ActForward(k, x)) + Dot(ActBackward(k, x, grad), dx)
  {
    var der := seq(|x|, i requires 0 <= i < |x| => Derivative(k, x[i]));
    var step := Hadamard(der, dx);
    forall i | 0 <= i < |x|
      ensures ActForward(k, VecAdd(x, dx))[i] == VecAdd(ActForward(k, x), step)[i]
    {
      DerivativeExact(k, x[i], dx[i]);
    }
    assert ActForward(k, VecAdd(x, dx)) == VecAdd(ActForward(k, x), step);
    DotAddRight(grad, ActForward(k, x), step);
    DotHadamard(grad, der, dx);
  }

  /** ReLU's backward pass lets the gradient through exactly where the input was
      positive; LeakyReLU's scales it by the slope where the input was negative. */
  lemma ActBackwardEntries(k: ActKind, inputs: Vec, grad: Vec)
    requires |grad| == |inputs|
    ensures forall i :: 0 <= i < |inputs| ==>
      ActBackward(k, inputs, grad)[i] == match k
        case ReLU => if inputs[i] > 0.0 then grad[i] else 0.0
        case LeakyReLU(slope) => if inputs[i] < 0.0 then slope * grad[i] else grad[i]
  {
  }

  // ---------------------------------------------------------------------------
  // The layer object

  class Activation {
    const kind: ActKind
    /** `self.inputs`, remembered by the forward pass. */
    var inputs: Option<Vec>

    /** ReLU.__init__ and LeakyReLU.__init__ (whose slope defaults to 0.2 in the source). */
    constructor (kind: ActKind)
      ensures this.kind == kind && inputs == None
    {
      this.kind := kind;
      inputs := None;
    }

    /** Activation.forward: the inputs are remembered and `func` applied to them. */
    method Forward(x: Vec) returns (out: Vec)
      modifies this
      ensures inputs == Some(x)
      ensures out == ActForward(kind, x)
    {
      inputs := Some(x);
      out := ActForward(kind, x);
    }

    /** Activation.backward; ActGradient says what it computes. */
    method Backward(grad: Vec) returns (dIn: Vec)
      requires inputs.Some? && |grad| == |inputs.value|
      ensures dIn == ActBackward(kind, inputs.value, grad)
    {
      dIn := ActBackward(kind, inputs.value, grad);
    }
  }
}
