/** The Flatten layer of core/layers.py: each image of a batch raveled in row-major
    order into one row, and the gradient reshaped back to the remembered input shape. */
module FlattenLayer {
  import opened Arith
  import opened Tensors
  import opened Wrappers

  /** `inputs.ravel().reshape(inputs.shape[0], -1)`: row n is image n raveled. */
  function FlattenRows(x: Tensor4): (r: Mat)
    ensures |r| == |x|
  {
    seq(|x|, n requires 0 <= n < |x| => Flatten3(x[n]))
  }

  /** `grad.reshape(input_shape)` for a gradient with one row of h * w * c entries per
      image. */
  function UnflattenRows(grad: Mat, h: nat, w: nat, c: nat): (t: Tensor4)
    requires IsMat(grad, |grad|, h * w * c)
    ensures Is4(t, |grad|, h, w, c)
  {
    seq(|grad|, n requires 0 <= n < |grad| => Unflatten3(grad[n], h, w, c))
  }

  /** Reshaping a raveled sequence back and raveling it again gives the sequence. */
  lemma FlattenUnflatten3<T>(s: seq<T>, na: nat, nb: nat, nc: nat)
    requires |s| == na * nb * nc
    ensures Flatten3(Unflatten3(s, na, nb, nc)) == s
  {
    var t := Unflatten3(s, na, nb, nc);
    Flatten3Length(t, nb, nc);
    forall k | 0 <= k < |s|
      ensures Flatten3(t)[k] == s[k]
    {
      var ab, c := Unflat(k, na * nb, nc);
      var a, b := Unflat(ab, na, nb);
      assert Flat3(a, b, c, nb, nc) == k;
      Flatten3Index(t, nb, nc, a, b, c);
    }
  }

  /** The flattened batch has one row of h * w * c entries per image, and entry
      (n, p, q, ch) of the input sits at column (p * w + q) * c + ch of row n. */
  lemma FlattenRowsShape(x: Tensor4, h: nat, w: nat, c: nat)
    requires Is4(x, |x|, h, w, c)
    ensures IsMat(FlattenRows(x), |x|, h * w * c)
    ensures forall n, p, q, ch :: 0 <= n < |x| && 0 <= p < h && 0 <= q < w && 0 <= ch < c ==>
      Flat3(p, q, ch, w, c) < h * w * c && FlattenRows(x)[n][Flat3(p, q, ch, w, c)] == x[n][p][q][ch]
  {
    forall n | 0 <= n < |x|
      ensures |FlattenRows(x)[n]| == h * w * c
    {
      Flatten3Length(x[n], w, c);
    }
    forall n, p, q, ch | 0 <= n < |x| && 0 <= p < h && 0 <= q < w && 0 <= ch < c
      ensures Flat3(p, q, ch, w, c) < h * w * c && FlattenRows(x)[n][Flat3(p, q, ch, w, c)] == x[n][p][q][ch]
    {
      Flatten3Length(x[n], w, c);
      Flatten3Index(x[n], w, c, p, q, ch);
    }
  }

  /** Backward after forward: the reshaped flat batch is the batch. */
  lemma UnflattenFlattenRows(x: Tensor4, h: nat, w: nat, c: nat)
    requires Is4(x, |x|, h, w, c)
    ensures IsMat(FlattenRows(x), |x|, h * w * c)
    ensures UnflattenRows(FlattenRows(x), h, w, c) == x
  {
    FlattenRowsShape(x, h, w, c);
    forall n | 0 <= n < |x|
      ensures UnflattenRows(FlattenRows(x), h, w, c)[n] == x[n]
    {
      UnflattenFlatten3(x[n], w, c);
    }
  }

  /** Forward after backward: raveling a reshaped gradient gives the gradient back. */
  lemma FlattenUnflattenRows(grad: Mat, h: nat, w: nat, c: nat)
    requires IsMat(grad, |grad|, h * w * c)
    ensures FlattenRows(UnflattenRows(grad, h, w, c)) == grad
  {
    forall n | 0 <= n < |grad|
      ensures FlattenRows(UnflattenRows(grad, h, w, c))[n] == grad[n]
    {
      FlattenUnflatten3(grad[n], h, w, c);
    }
  }

  class Flatten {
    /** `self.input_shape`, the (batch, height, width, channels) shape recorded by the
        forward pass. */
    var inputShape: Option<(nat, nat, nat, nat)>

    /** Flatten.__init__. */
    constructor ()
      ensures inputShape == None
    {
      inputShape := None;
    }

    /** Flatten.forward on a batch of images: the shape is remembered and every image
        raveled into one row. */
    method Forward(x: Tensor4) returns (out: Mat)
      requires |x| >= 1 && |x[0]| >= 1 && |x[0][0]| >= 1
      requires Is4(x, |x|, |x[0]|, |x[0][0]|, |x[0][0][0]|)
      modifies this
      ensures inputShape == Some((|x|, |x[0]|, |x[0][0]|, |x[0][0][0]|))
      ensures out == FlattenRows(x)
    {
      inputShape := Some((|x|, |x[0]|, |x[0][0]|, |x[0][0][0]|));
      out := FlattenRows(x);
    }

    /** Flatten.backward: the gradient reshaped to the remembered input shape. */
    method Backward(grad: Mat) returns (dIn: Tensor4)
      requires inputShape.Some?
      requires var (n, h, w, c) := inputShape.value; IsMat(grad, n, h * w * c)
      ensures var (_, h, w, c) := inputShape.value; dIn == UnflattenRows(grad, h, w, c)
    {
      var (_, h, w, c) := inputShape.value;
      dIn := UnflattenRows(grad, h, w, c);
    }
  }
}
