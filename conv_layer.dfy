/** The Conv2D layer object of core/layers.py: its configuration, its lazily
    initialised parameters, the cache its forward pass leaves for the backward pass,
    and the two passes written as the loops of the source, each proved to compute the
    value-level definitions of ConvSpec and ConvGrad. */
module ConvLayer {
  import opened Arith
  import opened Tensors
  import opened Padding
  import opened ConvSpec
  import opened ConvGrad
  import opened Wrappers

  /** The part of `self.cache` that carries data: the geometry entries, `X_matrix` and
      `W_matrix`. */
  datatype ConvCache = ConvCache(geom: ConvGeom, X: Mat, Wm: Mat)

  /** The gather loop of Conv2D.forward: for each window position (row, col) of
      range(0, padded_h - k_h + 1, s_h) x range(0, padded_w - k_w + 1, s_w), the window
      of every image laid out as one row of ker_len entries. */
  method GatherPatches(padded: Tensor4, g: ConvGeom) returns (patches: seq<seq<Mat>>)
    requires GeomOk(g) && Is4(padded, g.inN, g.padH, g.padW, g.inC)
    ensures patches == Patches(padded, g)
  {
    ghost var P := Patches(padded, g);
    patches := [];
    var i := 0;
    while i * g.sH <= g.padH - g.kH
      invariant i <= g.outH
      invariant patches == P[..i]
      decreases g.outH - i
    {
      WindowFits(g.padH, g.kH, g.sH, i);
      var rowPatches: seq<Mat> := [];
      var j := 0;
      while j * g.sW <= g.padW - g.kW
        invariant j <= g.outW
        invariant rowPatches == P[i][..j]
        decreases g.outW - j
      {
        WindowFits(g.padW, g.kW, g.sW, j);
        assert P[i][j] == PatchRows(padded, g, i * g.sH, j * g.sW);
        rowPatches := rowPatches + [PatchRows(padded, g, i * g.sH, j * g.sW)];
        j := j + 1;
      }
      WindowFits(g.padW, g.kW, g.sW, j);
      assert rowPatches == P[i];
      patches := patches + [rowPatches];
      i := i + 1;
    }
    WindowFits(g.padH, g.kH, g.sH, i);
    assert patches == P;
  }

  /** The scatter loop of Conv2D.backward: `d_in[:, row:row+k_h, col:col+k_w, :] += patch`
      for every window, in the order of the two loops, on a zero buffer of the padded
      shape. */
  method ScatterGrads(dX: Tensor4, g: ConvGeom) returns (d: Tensor4)
    requires GeomOk(g) && Is4(dX, g.inN, g.outH, g.outW, KerLen(g))
    ensures d == Scattered(dX, g, g.outH, 0)
  {
    d := Zeros4(g.inN, g.padH, g.padW, g.inC);
    var i := 0;
    while i * g.sH <= g.padH - g.kH
      invariant i <= g.outH
      invariant d == Scattered(dX, g, i, 0)
      decreases g.outH - i
    {
      WindowFits(g.padH, g.kH, g.sH, i);
      var j := 0;
      while j * g.sW <= g.padW - g.kW
        invariant j <= g.outW
        invariant d == Scattered(dX, g, i, j)
        decreases g.outW - j
      {
        WindowFits(g.padW, g.kW, g.sW, j);
        d := AddBlock(d, PatchBlock(dX, g, i, j), g, i * g.sH, j * g.sW);
        j := j + 1;
      }
      WindowFits(g.padW, g.kW, g.sW, j);
      i := i + 1;
    }
    WindowFits(g.padH, g.kH, g.sH, i);
  }

  class Conv2D {
    /** `kernel` = (kH, kW, kIn, kOut) and `stride` = (sH, sW). */
    const kH: nat
    const kW: nat
    const kIn: nat
    const kOut: nat
    const sH: nat
    const sW: nat
    /** `padding_mode`. */
    const mode: string
    /** What `initializers["w"](kernel)` and `initializers["b"](kernel[-1])` return. */
    const wInit: Tensor4
    const bInit: Vec

    var isInit: bool
    /** `params["w"]` and `params["b"]`. */
    var w: Tensor4
    var b: Vec
    var cache: Option<ConvCache>
    /** `grads["w"]` and `grads["b"]`. */
    var gradW: Tensor4
    var gradB: Vec

    /** The cache Conv2D.forward writes fits this layer's kernel and stride. */
    predicate CacheFits(c: ConvCache)
      reads this
    {
      var g := c.geom;
      && GeomOk(g)
      && g.kH == kH && g.kW == kW && g.sH == sH && g.sW == sW && g.inC == kIn && g.outC == kOut
      && IsMat(c.X, g.inN * g.outH * g.outW, KerLen(g))
      && IsMat(c.Wm, KerLen(g), g.outC)
    }

    predicate Valid()
      reads this
    {
      && kH >= 1 && kW >= 1 && sH >= 1 && sW >= 1 && IsConvMode(mode)
      && Is4(wInit, kH, kW, kIn, kOut) && |bInit| == kOut
      && (isInit ==> Is4(w, kH, kW, kIn, kOut) && |b| == kOut)
      && (cache.Some? ==> isInit && CacheFits(cache.value))
    }

    constructor (kH: nat, kW: nat, kIn: nat, kOut: nat, sH: nat, sW: nat, mode: string,
                 wInit: Tensor4, bInit: Vec)
      requires kH >= 1 && kW >= 1 && sH >= 1 && sW >= 1 && IsConvMode(mode)
      requires Is4(wInit, kH, kW, kIn, kOut) && |bInit| == kOut
      ensures Valid()
      ensures this.kH == kH && this.kW == kW && this.kIn == kIn && this.kOut == kOut
      ensures this.sH == sH && this.sW == sW && this.mode == mode
      ensures this.wInit == wInit && this.bInit == bInit
      ensures !isInit && cache == None
    {
      this.kH, this.kW, this.kIn, this.kOut := kH, kW, kIn, kOut;
      this.sH, this.sW, this.mode := sH, sW, mode;
      this.wInit, this.bInit := wInit, bInit;
      isInit := false;
      w, b := [], [];
      cache := None;
      gradW, gradB := [], [];
    }

    /** Conv2D._init_parameters. */
    method InitParameters()
      requires Valid()
      modifies this
      ensures Valid() && isInit
      ensures w == wInit && b == bInit
      ensures cache == old(cache) && gradW == old(gradW) && gradB == old(gradB)
    {
      w := wInit;
      b := bInit;
      isInit := true;
    }

    /** The inputs Conv2D.forward runs on: a non-empty batch of non-empty images with
        kIn channels, large enough once padded to hold one kernel window. */
    predicate Accepts(x: Tensor4)
      reads this
    {
      && Valid()
      && |x| >= 1 && |x[0]| >= 1 && |x[0][0]| >= 1
      && Is4(x, |x|, |x[0]|, |x[0][0]|, kIn)
      && var p := GetPadding(kH, kW, mode).value;
      && |x[0]| + p.top + p.bottom >= kH
      && |x[0][0]| + p.left + p.right >= kW
    }

    /** The geometry Conv2D.forward computes for input x and caches. */
    function InputGeom(x: Tensor4): ConvGeom
      reads this
      requires Accepts(x)
    {
      MakeGeom(|x|, |x[0]|, |x[0][0]|, kIn, kH, kW, sH, sW, kOut, mode)
    }

    /** Conv2D.forward: lazy initialisation, edge padding, the im2col gather loop, the
        matrix product and the bias. */
    method Forward(x: Tensor4) returns (out: Tensor4)
      requires Accepts(x)
      modifies this
      ensures Valid() && isInit
      ensures old(isInit) ==> w == old(w) && b == old(b)
      ensures !old(isInit) ==> w == wInit && b == bInit
      ensures var g := old(InputGeom(x));
        && ConvInputs(x, w, b, g)
        && cache == Some(ConvCache(g, ForwardMatrix(x, g), KernelMatrix(w)))
        && out == ConvForward(x, w, b, g)
      ensures gradW == old(gradW) && gradB == old(gradB)
    {
      if !isInit {
        InitParameters();
      }
      var g := MakeGeom(|x|, |x[0]|, |x[0][0]|, kIn, kH, kW, sH, sW, kOut, mode);
      var padded := PaddedInput(x, g);
      var patches := GatherPatches(padded, g);
      var X := Im2Col(patches, g);
      KernelMatrixShape(w, g);
      var Wm := KernelMatrix(w);
      cache := Some(ConvCache(g, X, Wm));
      out := ForwardOutputs(X, Wm, b, g);
    }

    /** Conv2D.backward: the parameter gradients from the cached matrices, then the
        gradient of every receptive field added into a zero buffer of the padded shape,
        window by window, and the padding cut off. */
    method Backward(grad: Tensor4) returns (dIn: Tensor4)
      requires Valid() && cache.Some?
      requires Is4(grad, cache.value.geom.inN, cache.value.geom.outH, cache.value.geom.outW, kOut)
      modifies this
      ensures Valid()
      ensures var c := old(cache.value);
        && gradW == WeightGrad(c.X, grad, c.geom)
        && gradB == BiasGrad(grad, c.geom)
        && dIn == InputGrad(PatchGrads(grad, c.Wm, c.geom), c.geom)
      ensures isInit == old(isInit) && w == old(w) && b == old(b) && cache == old(cache)
    {
      var c := cache.value;
      var g := c.geom;
      var d := ScatterGrads(PatchGrads(grad, c.Wm, g), g);
      gradW := WeightGrad(c.X, grad, g);
      gradB := BiasGrad(grad, g);
      dIn := Crop(d, g.pad, g.inN, g.padH, g.padW, g.inC);
    }
  }
}
