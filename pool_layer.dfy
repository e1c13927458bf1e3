/** The MaxPool2D layer object of core/layers.py: its configuration, the cache its
    forward pass leaves for the backward pass, and the two passes written as the loops
    of the source, each proved to compute the value-level definitions of PoolSpec. */
module PoolLayer {
  import opened Arith
  import opened Tensors
  import opened PoolSpec
  import opened Wrappers

  /** The part of `self.cache` the backward pass reads: the sizes and `max_pos`. */
  datatype PoolCache = PoolCache(geom: PoolGeom, maxPos: seq<seq<seq<seq<nat>>>>)

  /** The window loop of MaxPool2D.forward: for `col in range(0, pad_h, s_h)` and
      `row in range(0, pad_w, s_w)`, the max and first arg-max of every window, appended
      to `patches_list` and `max_pos_list`. */
  method PoolWindows(padded: Tensor4, g: PoolGeom) returns (patchesList: seq<Mat>, maxPosList: seq<seq<seq<nat>>>)
    requires PoolGeomOk(g) && Is4(padded, g.inN, g.padH, g.padW, g.inC)
    ensures patchesList == WindowList(padded, g)
    ensures maxPosList == ArgMaxList(padded, g)
  {
    ghost var L, M := WindowList(padded, g), ArgMaxList(padded, g);
    patchesList, maxPosList := [], [];
    var i := 0;
    LoopBounds(g, i, 0);
    while WinRow(g, i) < g.padH
      invariant i <= g.outH
      invariant WinRow(g, i) < g.padH <==> i < g.outH
      invariant Flat2(i, 0, g.outW) <= |L|
      invariant patchesList == L[..Flat2(i, 0, g.outW)]
      invariant maxPosList == M[..Flat2(i, 0, g.outW)]
      decreases g.outH - i
    {
      var j := 0;
      LoopBounds(g, i, j);
      while WinCol(g, j) < g.padW
        invariant j <= g.outW
        invariant WinCol(g, j) < g.padW <==> j < g.outW
        invariant Flat2(i, j, g.outW) <= |L|
        invariant patchesList == L[..Flat2(i, j, g.outW)]
        invariant maxPosList == M[..Flat2(i, j, g.outW)]
        decreases g.outW - j
      {
        ListsSnoc(padded, g, i, j);
        patchesList := patchesList + [WindowMax(padded, g, i, j)];
        maxPosList := maxPosList + [WindowArgMax(padded, g, i, j)];
        j := j + 1;
        LoopBounds(g, i, j);
      }
      NextRow(i, g.outW);
      i := i + 1;
      LoopBounds(g, i, 0);
    }
    assert Flat2(i, 0, g.outW) == |L|;
  }

  /** The write loop of MaxPool2D.backward: for every window, in the order of the two
      loops, `d_in[:, col:col+pool_h, row:row+pool_w, :] = region` on a zero buffer of the
      padded shape. */
  method RouteGrads(grad: Tensor4, mp: seq<seq<seq<seq<nat>>>>, g: PoolGeom) returns (d: Tensor4)
    requires PoolBackOk(g)
    ensures d == PoolBackward(grad, mp, g)
  {
    d := Zeros4(g.inN, g.padH, g.padW, g.inC);
    var i := 0;
    LoopBounds(g, i, 0);
    while WinRow(g, i) < g.padH
      invariant i <= g.outH
      invariant WinRow(g, i) < g.padH <==> i < g.outH
      invariant d == PoolScattered(grad, mp, g, i, 0)
      decreases g.outH - i
    {
      var j := 0;
      LoopBounds(g, i, j);
      while WinCol(g, j) < g.padW
        invariant j <= g.outW
        invariant WinCol(g, j) < g.padW <==> j < g.outW
        invariant d == PoolScattered(grad, mp, g, i, j)
        decreases g.outW - j
      {
        FullWindows(g, i, j);
        var region := Region(grad, mp, g, i, j);
        d := AssignBlock(d, region, g, WinRow(g, i), WinCol(g, j));
        j := j + 1;
        LoopBounds(g, i, j);
      }
      i := i + 1;
      LoopBounds(g, i, 0);
    }
  }

  class MaxPool2D {
    /** `pool_size` = (pH, pW) and `stride` = (sH, sW). */
    const pH: nat
    const pW: nat
    const sH: nat
    const sW: nat
    /** `padding_mode`. */
    const mode: string

    var cache: Option<PoolCache>

    /** The cache MaxPool2D.forward writes fits this layer's pool and stride. */
    predicate CacheFits(c: PoolCache)
      reads this
    {
      var g := c.geom;
      && PoolGeomOk(g)
      && g.pH == pH && g.pW == pW && g.sH == sH && g.sW == sW
      && Is4(c.maxPos, g.inN, g.outH, g.outW, g.inC)
    }

    predicate Valid()
      reads this
    {
      && pH >= 1 && pW >= 1 && sH >= 1 && sW >= 1 && IsPoolMode(mode)
      && (cache.Some? ==> CacheFits(cache.value))
    }

    /** MaxPool2D.__init__: two pool sizes, two strides, and a mode that is "VALID" or
        "SAME". */
    constructor (pH: nat, pW: nat, sH: nat, sW: nat, mode: string)
      requires pH >= 1 && pW >= 1 && sH >= 1 && sW >= 1 && IsPoolMode(mode)
      ensures Valid()
      ensures this.pH == pH && this.pW == pW && this.sH == sH && this.sW == sW && this.mode == mode
      ensures cache == None
    {
      this.pH, this.pW, this.sH, this.sW, this.mode := pH, pW, sH, sW, mode;
      cache := None;
    }

    /** The geometry MaxPool2D.forward computes for an input of x's shape. */
    function InputGeom(x: Tensor4): (g: PoolGeom)
      reads this
      requires Valid() && |x| >= 1 && |x[0]| >= 1 && |x[0][0]| >= 1
      ensures g.inN == |x| && g.inH == |x[0]| && g.inW == |x[0][0]| && g.inC == |x[0][0][0]|
      ensures g.pH == pH && g.pW == pW && g.sH == sH && g.sW == sW
      ensures g.pad == PoolPadding(|x[0]|, |x[0][0]|, pH, pW, sH, sW, mode)
    {
      MakePoolGeom(|x|, |x[0]|, |x[0][0]|, |x[0][0][0]|, pH, pW, sH, sW, mode)
    }

    /** The inputs MaxPool2D.forward runs on: a non-empty batch of non-empty images whose
        padded sizes the strides divide. */
    predicate Accepts(x: Tensor4)
      reads this
    {
      && Valid()
      && |x| >= 1 && |x[0]| >= 1 && |x[0][0]| >= 1
      && Is4(x, |x|, |x[0]|, |x[0][0]|, |x[0][0][0]|)
      && PoolGeomOk(InputGeom(x))
    }

    /** MaxPool2D.forward: zero padding, the window loop, and the regrouping of the two
        lists into the outputs and `max_pos`, which is cached. */
    method Forward(x: Tensor4) returns (out: Tensor4)
      requires Accepts(x)
      modifies this
      ensures Valid()
      ensures var g := old(InputGeom(x));
        && cache == Some(PoolCache(g, PoolMaxPos(x, g)))
        && out == PoolOutputs(x, g)
    {
      var g := MakePoolGeom(|x|, |x[0]|, |x[0][0]|, |x[0][0][0]|, pH, pW, sH, sW, mode);
      var padded := PaddedPool(x, g);
      var patchesList, maxPosList := PoolWindows(padded, g);
      out := Regroup(patchesList, g.inN, g.outH, g.outW, g.inC);
      var maxPos := Regroup(maxPosList, g.inN, g.outH, g.outW, g.inC);
      cache := Some(PoolCache(g, maxPos));
    }

    /** MaxPool2D.backward: every window's gradient routed to its arg-max cell and
        written into a zero buffer of the padded shape. It runs only when the pool is no
        larger than the stride, so that every window lies inside the padded image. */
    method Backward(grad: Tensor4) returns (dIn: Tensor4)
      requires Valid() && cache.Some? && PoolBackOk(cache.value.geom)
      requires Is4(grad, cache.value.geom.inN, cache.value.geom.outH, cache.value.geom.outW, cache.value.geom.inC)
      ensures dIn == PoolBackward(grad, cache.value.maxPos, cache.value.geom)
    {
      var c := cache.value;
      dIn := RouteGrads(grad, c.maxPos, c.geom);
    }
  }
}
