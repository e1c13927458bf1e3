/** The Dense layer of core/layers.py: `inputs @ w + b` forward, and a backward pass
    whose three gradients are proved to be the adjoints (transposes) of the forward
    pass's derivative in the input, the weights and the bias. */
module DenseLayer {
  import opened Tensors
  import opened LinAlg
  import opened Wrappers

  /** Entrywise sum of two matrices of the same shape. */
  function MatAdd(A: Mat, B: Mat): (r: Mat)
    requires |A| == |B| && forall i :: 0 <= i < |A| ==> |A[i]| == |B[i]|
    ensures |r| == |A| && forall i :: 0 <= i < |r| ==> |r[i]| == |A[i]|
  {
    seq(|A|, i requires 0 <= i < |A| => VecAdd(A[i], B[i]))
  }

  /** The outer product of u and g: row k is u[k] * g. */
  function Outer(u: Vec, g: Vec): (r: Mat)
    ensures IsMat(r, |u|, |g|)
  {
    seq(|u|, k requires 0 <= k < |u| => Scale(u[k], g))
  }

  lemma {:induction false} DotColAddLeft(u: Vec, v: Vec, w: Mat, o: nat)
    requires |u| == |v| == |w|
    ensures DotCol(VecAdd(u, v), w, o) == DotCol(u, w, o) + DotCol(v, w, o)
  {
    if |u| > 0 {
      var m := |u| - 1;
      assert VecAdd(u, v)[..m] == VecAdd(u[..m], v[..m]);
      DotColAddLeft(u[..m], v[..m], w[..m], o);
    }
  }

  lemma {:induction false} DotColAddRight(u: Vec, w1: Mat, w2: Mat, o: nat)
    requires |u| == |w1| == |w2| && forall k :: 0 <= k < |w1| ==> |w1[k]| == |w2[k]|
    ensures DotCol(u, MatAdd(w1, w2), o) == DotCol(u, w1, o) + DotCol(u, w2, o)
  {
    if |u| > 0 {
      var m := |u| - 1;
      assert MatAdd(w1, w2)[..m] == MatAdd(w1[..m], w2[..m]);
      DotColAddRight(u[..m], w1[..m], w2[..m], o);
      assert At(MatAdd(w1, w2)[m], o) == At(w1[m], o) + At(w2[m], o);
    }
  }

  /** Σ_r Σ_c A[r][c] * B[r][c]: the inner product of two matrices of the same shape. */
  function Frobenius(A: Mat, B: Mat): real
    requires |A| == |B| && forall r :: 0 <= r < |A| ==> |A[r]| == |B[r]|
  {
    if |A| == 0 then 0.0
    else Frobenius(A[..|A| - 1], B[..|B| - 1]) + Dot(A[|A| - 1], B[|B| - 1])
  }

  lemma {:induction false} FrobeniusAddRight(G: Mat, A: Mat, B: Mat)
    requires |G| == |A| == |B|
    requires forall r :: 0 <= r < |G| ==> |G[r]| == |A[r]| == |B[r]|
    ensures Frobenius(G, MatAdd(A, B)) == Frobenius(G, A) + Frobenius(G, B)
  {
    if |G| > 0 {
      var m := |G| - 1;
      assert MatAdd(A, B)[..m] == MatAdd(A[..m], B[..m]);
      FrobeniusAddRight(G[..m], A[..m], B[..m]);
      DotAddRight(G[m], A[m], B[m]);
    }
  }

  lemma {:induction false} FrobeniusAddLeft(A: Mat, B: Mat, G: Mat)
    requires |G| == |A| == |B|
    requires forall r :: 0 <= r < |G| ==> |G[r]| == |A[r]| == |B[r]|
    ensures Frobenius(MatAdd(A, B), G) == Frobenius(A, G) + Frobenius(B, G)
  {
    if |G| > 0 {
      var m := |G| - 1;
      assert MatAdd(A, B)[..m] == MatAdd(A[..m], B[..m]);
      FrobeniusAddLeft(A[..m], B[..m], G[..m]);
      DotAddLeft(A[m], B[m], G[m]);
    }
  }

  /** <u ⊗ g, D> == u · (g @ D.T). */
  lemma {:induction false} OuterFrobenius(u: Vec, g: Vec, D: Mat)
    requires IsMat(D, |u|, |g|)
    ensures Frobenius(Outer(u, g), D) == Dot(u, TimesTranspose(g, D))
  {
    if |u| > 0 {
      var m := |u| - 1;
      assert Outer(u, g)[..m] == Outer(u[..m], g);
      assert TimesTranspose(g, D)[..m] == TimesTranspose(g, D[..m]);
      OuterFrobenius(u[..m], g, D[..m]);
      DotComm(Scale(u[m], g), D[m]);
      DotScaleRight(D[m], u[m], g);
      DotComm(D[m], g);
    }
  }

  // ---------------------------------------------------------------------------
  // The layer as values

  /** Row u of a matrix times the matrix w: entry o is Σ_k u[k] * w[k][o]. */
  function RowTimes(u: Vec, w: Mat, cols: nat): (r: Vec)
    requires |u| == |w|
    ensures |r| == cols
  {
    seq(cols, o requires 0 <= o < cols => DotCol(u, w, o))
  }

  /** The row vector b repeated for each of `rows` rows, as numpy broadcasts `+ b`. */
  function Rows(b: Vec, rows: nat): (r: Mat)
    ensures IsMat(r, rows, |b|)
  {
    seq(rows, _ => b)
  }

  /** `inputs @ w + b`: every row of x times w, plus b. */
  function DenseForward(x: Mat, w: Mat, b: Vec): (y: Mat)
    requires forall r :: 0 <= r < |x| ==> |x[r]| == |w|
    ensures IsMat(y, |x|, |b|)
  {
    seq(|x|, r requires 0 <= r < |x| => VecAdd(MatMul(x, w, |b|)[r], b))
  }

  /** `grads["w"] = inputs.T @ grad`. */
  function DenseWeightGrad(x: Mat, grad: Mat, numIn: nat, numOut: nat): (dw: Mat)
    requires |x| == |grad|
    ensures IsMat(dw, numIn, numOut)
  {
    TransposeTimes(x, grad, numIn, numOut)
  }

  /** `grads["b"] = np.sum(grad, axis=0)`. */
  function DenseBiasGrad(grad: Mat, numOut: nat): (db: Vec)
    ensures |db| == numOut
  {
    seq(numOut, o requires 0 <= o < numOut => ColSum(grad, o))
  }

  /** `grad @ w.T`: row r is grad[r] times w transposed. */
  function DenseInputGrad(grad: Mat, w: Mat): (dx: Mat)
    requires forall r, k :: 0 <= r < |grad| && 0 <= k < |w| ==> |w[k]| == |grad[r]|
    ensures |dx| == |grad| && forall r :: 0 <= r < |dx| ==> |dx[r]| == |w|
  {
    seq(|grad|, r requires 0 <= r < |grad| => TimesTranspose(grad[r], w))
  }

  // ---------------------------------------------------------------------------
  // The backward pass is the transpose of the forward pass

  /** For one row: g · (u @ w) == (g @ w.T) · u. */
  lemma {:induction false} RowTimesAdjoint(g: Vec, u: Vec, w: Mat)
    requires |u| == |w| && forall k :: 0 <= k < |w| ==> |w[k]| == |g|
    ensures Dot(g, RowTimes(u, w, |g|)) == Dot(TimesTranspose(g, w), u)
  {
    var cols := |g|;
    if |u| == 0 {
      DotZeroRight(g, RowTimes(u, w, cols));
    } else {
      var m := |u| - 1;
      RowTimesAdjoint(g, u[..m], w[..m]);
      forall o | 0 <= o < cols
        ensures RowTimes(u, w, cols)[o]
             == VecAdd(RowTimes(u[..m], w[..m], cols), Scale(u[m], w[m]))[o]
      {
        assert Scale(u[m], w[m])[o] == u[m] * w[m][o];
      }
      assert RowTimes(u, w, cols) == VecAdd(RowTimes(u[..m], w[..m], cols), Scale(u[m], w[m]));
      DotAddRight(g, RowTimes(u[..m], w[..m], cols), Scale(u[m], w[m]));
      DotScaleRight(g, u[m], w[m]);
      assert TimesTranspose(g, w)[..m] == TimesTranspose(g, w[..m]);
    }
  }

  /** The input gradient is the adjoint of dx ↦ dx @ w:
      <grad, dx @ w> == <grad @ w.T, dx>. */
  lemma {:induction false} DenseInputAdjoint(grad: Mat, dx: Mat, w: Mat, numIn: nat, numOut: nat)
    requires IsMat(grad, |grad|, numOut) && IsMat(dx, |grad|, numIn) && IsMat(w, numIn, numOut)
    ensures Frobenius(grad, MatMul(dx, w, numOut)) == Frobenius(DenseInputGrad(grad, w), dx)
  {
    if |grad| > 0 {
      var m := |grad| - 1;
      DenseInputAdjoint(grad[..m], dx[..m], w, numIn, numOut);
      assert MatMul(dx, w, numOut)[..m] == MatMul(dx[..m], w, numOut);
      assert DenseInputGrad(grad, w)[..m] == DenseInputGrad(grad[..m], w);
      assert MatMul(dx, w, numOut)[m] == RowTimes(dx[m], w, numOut);
      RowTimesAdjoint(grad[m], dx[m], w);
    }
  }

  /** For one row: g · (u @ D) == <u ⊗ g, D>. */
  lemma OuterRowTimes(u: Vec, g: Vec, D: Mat)
    requires IsMat(D, |u|, |g|)
    ensures Dot(g, RowTimes(u, D, |g|)) == Frobenius(Outer(u, g), D)
  {
    RowTimesAdjoint(g, u, D);
    DotComm(TimesTranspose(g, D), u);
    OuterFrobenius(u, g, D);
  }

  /** Peeling the last row of the batch off `inputs.T @ grad` leaves its outer product. */
  lemma WeightGradSplit(x: Mat, grad: Mat, numIn: nat, numOut: nat)
    requires IsMat(x, |x|, numIn) && IsMat(grad, |x|, numOut) && |x| > 0
    ensures DenseWeightGrad(x, grad, numIn, numOut)
         == MatAdd(DenseWeightGrad(x[..|x| - 1], grad[..|x| - 1], numIn, numOut), Outer(x[|x| - 1], grad[|x| - 1]))
  {
    var m := |x| - 1;
    var prev, outer := DenseWeightGrad(x[..m], grad[..m], numIn, numOut), Outer(x[m], grad[m]);
    forall k | 0 <= k < numIn
      ensures DenseWeightGrad(x, grad, numIn, numOut)[k] == MatAdd(prev, outer)[k]
    {
      forall o | 0 <= o < numOut
        ensures DenseWeightGrad(x, grad, numIn, numOut)[k][o] == MatAdd(prev, outer)[k][o]
      {
        assert outer[k][o] == x[m][k] * grad[m][o];
      }
    }
  }

  /** The weight gradient is the adjoint of dw ↦ x @ dw:
      <grad, x @ dw> == <x.T @ grad, dw>. */
  lemma {:induction false} DenseWeightAdjoint(x: Mat, grad: Mat, dw: Mat, numIn: nat, numOut: nat)
    requires IsMat(x, |x|, numIn) && IsMat(grad, |x|, numOut) && IsMat(dw, numIn, numOut)
    ensures Frobenius(grad, MatMul(x, dw, numOut)) == Frobenius(DenseWeightGrad(x, grad, numIn, numOut), dw)
  {
    if |x| == 0 {
      ZeroFrobenius(DenseWeightGrad(x, grad, numIn, numOut), dw);
    } else {
      var m := |x| - 1;
      DenseWeightAdjoint(x[..m], grad[..m], dw, numIn, numOut);
      assert MatMul(x, dw, numOut)[..m] == MatMul(x[..m], dw, numOut);
      assert MatMul(x, dw, numOut)[m] == RowTimes(x[m], dw, numOut);
      var prev, outer := DenseWeightGrad(x[..m], grad[..m], numIn, numOut), Outer(x[m], grad[m]);
      WeightGradSplit(x, grad, numIn, numOut);
      FrobeniusAddLeft(prev, outer, dw);
      OuterRowTimes(x[m], grad[m], dw);
    }
  }

  lemma {:induction false} ZeroFrobenius(Z: Mat, D: Mat)
    requires |Z| == |D| && forall r :: 0 <= r < |Z| ==> |Z[r]| == |D[r]|
    requires forall r, c :: 0 <= r < |Z| && 0 <= c < |Z[r]| ==> Z[r][c] == 0.0
    ensures Frobenius(Z, D) == 0.0
  {
    if |Z| > 0 {
      var m := |Z| - 1;
      ZeroFrobenius(Z[..m], D[..m]);
      DotComm(Z[m], D[m]);
      DotZeroRight(D[m], Z[m]);
    }
  }

  /** The bias gradient is the adjoint of db ↦ db broadcast over the rows:
      <grad, rows of db> == (column sums of grad) · db. */
  lemma {:induction false} DenseBiasAdjoint(grad: Mat, db: Vec)
    requires IsMat(grad, |grad|, |db|)
    ensures Frobenius(grad, Rows(db, |grad|)) == Dot(DenseBiasGrad(grad, |db|), db)
  {
    var numOut := |db|;
    if |grad| == 0 {
      DotComm(DenseBiasGrad(grad, numOut), db);
      DotZeroRight(db, DenseBiasGrad(grad, numOut));
    } else {
      var m := |grad| - 1;
      DenseBiasAdjoint(grad[..m], db);
      assert Rows(db, |grad|)[..m] == Rows(db, m);
      var prev := DenseBiasGrad(grad[..m], numOut);
      forall o | 0 <= o < numOut
        ensures DenseBiasGrad(grad, numOut)[o] == VecAdd(prev, grad[m])[o]
      {
        assert grad[..m] == grad[..|grad| - 1];
      }
      assert DenseBiasGrad(grad, numOut) == VecAdd(prev, grad[m]);
      DotAddLeft(prev, grad[m], db);
    }
  }

  // ---------------------------------------------------------------------------
  // What the backward pass computes: the change of <grad, forward> in each argument

  lemma {:induction false} DenseForwardInputShift(x: Mat, dx: Mat, w: Mat, b: Vec)
    requires IsMat(x, |x|, |w|) && IsMat(dx, |x|, |w|)
    ensures DenseForward(MatAdd(x, dx), w, b) == MatAdd(DenseForward(x, w, b), MatMul(dx, w, |b|))
  {
    var lhs, rhs := DenseForward(MatAdd(x, dx), w, b), MatAdd(DenseForward(x, w, b), MatMul(dx, w, |b|));
    forall r | 0 <= r < |x|
      ensures lhs[r] == rhs[r]
    {
      forall o | 0 <= o < |b|
        ensures lhs[r][o] == rhs[r][o]
      {
        DotColAddLeft(x[r], dx[r], w, o);
      }
    }
  }

  lemma {:induction false} DenseForwardWeightShift(x: Mat, w: Mat, dw: Mat, b: Vec)
    requires IsMat(x, |x|, |w|) && IsMat(w, |w|, |b|) && IsMat(dw, |w|, |b|)
    ensures DenseForward(x, MatAdd(w, dw), b) == MatAdd(DenseForward(x, w, b), MatMul(x, dw, |b|))
  {
    var lhs, rhs := DenseForward(x, MatAdd(w, dw), b), MatAdd(DenseForward(x, w, b), MatMul(x, dw, |b|));
    forall r | 0 <= r < |x|
      ensures lhs[r] == rhs[r]
    {
      forall o | 0 <= o < |b|
        ensures lhs[r][o] == rhs[r][o]
      {
        DotColAddRight(x[r], w, dw, o);
      }
    }
  }

  lemma {:induction false} DenseForwardBiasShift(x: Mat, w: Mat, b: Vec, db: Vec)
    requires IsMat(x, |x|, |w|) && |db| == |b|
    ensures DenseForward(x, w, VecAdd(b, db)) == MatAdd(DenseForward(x, w, b), Rows(db, |x|))
  {
    var lhs, rhs := DenseForward(x, w, VecAdd(b, db)), MatAdd(DenseForward(x, w, b), Rows(db, |x|));
    forall r | 0 <= r < |x|
      ensures lhs[r] == rhs[r]
    {
      assert MatMul(x, w, |VecAdd(b, db)|) == MatMul(x, w, |b|);
    }
  }

  /** The input gradient `grad @ w.T` is the gradient of <grad, forward> in the inputs:
      moving the inputs by dx moves it by exactly <grad @ w.T, dx> (the layer is affine). */
  lemma DenseInputGradient(x: Mat, dx: Mat, w: Mat, b: Vec, grad: Mat)
    requires IsMat(x, |x|, |w|) && IsMat(dx, |x|, |w|) && IsMat(w, |w|, |b|) && IsMat(grad, |x|, |b|)
    ensures Frobenius(grad, DenseForward(MatAdd(x, dx), w, b))
         == Frobenius(grad, DenseForward(x, w, b)) + Frobenius(DenseInputGrad(grad, w), dx)
  {
    DenseForwardInputShift(x, dx, w, b);
    FrobeniusAddRight(grad, DenseForward(x, w, b), MatMul(dx, w, |b|));
    DenseInputAdjoint(grad, dx, w, |w|, |b|);
  }

  /** The weight gradient `inputs.T @ grad` is the gradient of <grad, forward> in w. */
  lemma DenseWeightGradient(x: Mat, w: Mat, dw: Mat, b: Vec, grad: Mat)
    requires IsMat(x, |x|, |w|) && IsMat(w, |w|, |b|) && IsMat(dw, |w|, |b|) && IsMat(grad, |x|, |b|)
    ensures Frobenius(grad, DenseForward(x, MatAdd(w, dw), b))
         == Frobenius(grad, DenseForward(x, w, b)) + Frobenius(DenseWeightGrad(x, grad, |w|, |b|), dw)
  {
    DenseForwardWeightShift(x, w, dw, b);
    FrobeniusAddRight(grad, DenseForward(x, w, b), MatMul(x, dw, |b|));
    DenseWeightAdjoint(x, grad, dw, |w|, |b|);
  }

  /** The bias gradient `np.sum(grad, axis=0)` is the gradient of <grad, forward> in b. */
  lemma DenseBiasGradient(x: Mat, w: Mat, b: Vec, db: Vec, grad: Mat)
    requires IsMat(x, |x|, |w|) && |db| == |b| && IsMat(grad, |x|, |b|)
    ensures Frobenius(grad, DenseForward(x, w, VecAdd(b, db)))
         == Frobenius(grad, DenseForward(x, w, b)) + Dot(DenseBiasGrad(grad, |b|), db)
  {
    DenseForwardBiasShift(x, w, b, db);
    FrobeniusAddRight(grad, DenseForward(x, w, b), Rows(db, |x|));
    DenseBiasAdjoint(grad, db);
  }

  // ---------------------------------------------------------------------------
  // The layer object

  class Dense {
    /** `num_out`. */
    const numOut: nat
    /** What `initializers["w"]` returns for the shape [n, num_out], for every n. */
    const wInit: nat -> Mat
    /** What `initializers["b"]` returns for the shape [1, num_out], as a row vector. */
    const bInit: Vec

    /** `shapes["w"][0]`: the input size, unknown until the parameters are created. */
    var numIn: Option<nat>
    var isInit: bool
    /** `params["w"]` and `params["b"]`. */
    var w: Mat
    var b: Vec
    /** `self.inputs`, the batch the last forward pass saw. */
    var inputs: Option<Mat>
    /** `grads["w"]` and `grads["b"]`. */
    var gradW: Mat
    var gradB: Vec

    ghost predicate Valid()
      reads this
    {
      && (forall n: nat :: IsMat(wInit(n), n, numOut))
      && |bInit| == numOut
      && (isInit ==> numIn.Some? && IsMat(w, numIn.value, numOut) && |b| == numOut)
      && (inputs.Some? ==> isInit && IsMat(inputs.value, |inputs.value|, numIn.value))
    }

    /** Dense.__init__: the parameters are created at once when `num_in` is given, and
        by the first forward pass otherwise. */
    constructor (numOut: nat, numIn: Option<nat>, wInit: nat -> Mat, bInit: Vec)
      requires forall n: nat :: IsMat(wInit(n), n, numOut)
      requires |bInit| == numOut
      ensures Valid()
      ensures this.numOut == numOut && this.wInit == wInit && this.bInit == bInit
      ensures isInit == numIn.Some? && this.numIn == numIn && inputs == None
      ensures numIn.Some? ==> w == wInit(numIn.value) && b == bInit
    {
      this.numOut, this.wInit, this.bInit := numOut, wInit, bInit;
      this.numIn := None;
      isInit := false;
      w, b := [], [];
      inputs := None;
      gradW, gradB := [], [];
      new;
      if numIn.Some? {
        InitParameters(numIn.value);
      }
    }

    /** Dense._init_parameters: records the input size and creates both parameters. */
    method InitParameters(inputSize: nat)
      requires Valid() && inputs == None
      modifies this
      ensures Valid() && isInit
      ensures numIn == Some(inputSize) && w == wInit(inputSize) && b == bInit
      ensures inputs == old(inputs) && gradW == old(gradW) && gradB == old(gradB)
    {
      numIn := Some(inputSize);
      w := wInit(inputSize);
      b := bInit;
      isInit := true;
    }

    /** The batches Dense.forward runs on: non-empty, rectangular, and as wide as the
        weights once they exist. */
    ghost predicate Accepts(x: Mat)
      reads this
    {
      && Valid()
      && |x| >= 1 && IsMat(x, |x|, |x[0]|)
      && (isInit ==> numIn == Some(|x[0]|))
    }

    /** Dense.forward: lazy initialisation from the width of the batch, then
        `inputs @ w + b`, keeping the batch for the backward pass. */
    method Forward(x: Mat) returns (out: Mat)
      requires Accepts(x)
      modifies this
      ensures Valid() && isInit && inputs == Some(x)
      ensures old(isInit) ==> w == old(w) && b == old(b) && numIn == old(numIn)
      ensures !old(isInit) ==> w == wInit(|x[0]|) && b == bInit && numIn == Some(|x[0]|)
      ensures out == DenseForward(x, w, b)
      ensures gradW == old(gradW) && gradB == old(gradB)
    {
      if !isInit {
        InitParameters(|x[0]|);
      }
      inputs := Some(x);
      out := DenseForward(x, w, b);
    }

    /** Dense.backward: the weight and bias gradients are stored, the input gradient
        returned; DenseInputGradient, DenseWeightGradient and DenseBiasGradient say
        they are the gradients of <grad, forward>. */
    method Backward(grad: Mat) returns (dIn: Mat)
      requires Valid() && inputs.Some? && IsMat(grad, |inputs.value|, numOut)
      modifies this
      ensures Valid()
      ensures w == old(w) && b == old(b) && inputs == old(inputs) && numIn == old(numIn)
      ensures isInit == old(isInit)
      ensures gradW == DenseWeightGrad(inputs.value, grad, numIn.value, numOut)
      ensures gradB == DenseBiasGrad(grad, numOut)
      ensures dIn == DenseInputGrad(grad, w)
    {
      gradW := DenseWeightGrad(inputs.value, grad, numIn.value, numOut);
      gradB := DenseBiasGrad(grad, numOut);
      dIn := DenseInputGrad(grad, w);
    }
  }
}
