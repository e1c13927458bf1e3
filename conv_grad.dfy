/** What Conv2D.backward computes (core/layers.py:161-187), stated on values: the
    parameter gradients from the cached matrices, the gradient of every flattened
    receptive field, the scatter-accumulate of those into a zero buffer of the padded
    shape in the order of the two loops, and the final crop, each with the closed form
    it amounts to. */
module ConvGrad {
  import opened Arith
  import opened Tensors
  import opened Padding
  import opened ConvSpec

  // ---------------------------------------------------------------------------
  // Parameter gradients

  /** `grad.reshape((-1, out_c))`: one row per (image, output row, output column). */
  function GradMatrix(grad: Tensor4, g: ConvGeom): (G: Mat)
    requires Is4(grad, g.inN, g.outH, g.outW, g.outC)
    ensures IsMat(G, g.inN * g.outH * g.outW, g.outC)
  {
    Is4Rows(grad, g.inN, g.outH, g.outW, g.outC);
    Flatten3Length(grad, g.outH, g.outW);
    Flatten3Rows(grad, g.outC);
    Flatten3(grad)
  }

  /** `(X_matrix.T @ grad.reshape((-1, out_c))).reshape(kernel shape)`. */
  function WeightGrad(X: Mat, grad: Tensor4, g: ConvGeom): (dw: Tensor4)
    requires |X| == g.inN * g.outH * g.outW && Is4(grad, g.inN, g.outH, g.outW, g.outC)
    ensures Is4(dw, g.kH, g.kW, g.inC, g.outC)
  {
    var M := TransposeTimes(X, GradMatrix(grad, g), KerLen(g), g.outC);
    var t := Unflatten3(M, g.kH, g.kW, g.inC);
    assert Is4(t, g.kH, g.kW, g.inC, g.outC) by {
      forall a, b, c | 0 <= a < g.kH && 0 <= b < g.kW && 0 <= c < g.inC
        ensures |t[a][b][c]| == g.outC
      {
        Flat3Bound(a, b, c, g.kH, g.kW, g.inC);
      }
    }
    t
  }

  /** `np.sum(grad, axis=(0, 1, 2))`: column sums of the reshaped gradient. */
  function BiasGrad(grad: Tensor4, g: ConvGeom): (db: Vec)
    requires Is4(grad, g.inN, g.outH, g.outW, g.outC)
    ensures |db| == g.outC
  {
    seq(g.outC, o requires 0 <= o < g.outC => ColSum(GradMatrix(grad, g), o))
  }

  /** One product padded[n][i*s_h+a][j*s_w+b][c] * grad[n][i][j][o]. */
  function WeightGradTerm(padded: Tensor4, grad: Tensor4, g: ConvGeom, a: nat, b: nat, c: nat, o: nat,
                          n: nat, i: nat, j: nat): real
    requires GeomOk(g) && Is4(padded, g.inN, g.padH, g.padW, g.inC)
    requires Is4(grad, g.inN, g.outH, g.outW, g.outC)
    requires a < g.kH && b < g.kW && c < g.inC && o < g.outC
    requires n < g.inN && i < g.outH && j < g.outW
  {
    WindowInside(g, i, j);
    assert Is3(padded[n], g.padH, g.padW, g.inC) && IsMat(padded[n][i * g.sH + a], g.padW, g.inC);
    assert Is3(grad[n], g.outH, g.outW, g.outC) && IsMat(grad[n][i], g.outW, g.outC);
    padded[n][i * g.sH + a][j * g.sW + b][c] * grad[n][i][j][o]
  }

  /** Those products over every image and output position. */
  function WeightGradTerms(padded: Tensor4, grad: Tensor4, g: ConvGeom, a: nat, b: nat, c: nat, o: nat)
    : (T: seq<seq<seq<real>>>)
    requires GeomOk(g) && Is4(padded, g.inN, g.padH, g.padW, g.inC)
    requires Is4(grad, g.inN, g.outH, g.outW, g.outC)
    requires a < g.kH && b < g.kW && c < g.inC && o < g.outC
    ensures Is3(T, g.inN, g.outH, g.outW)
  {
    seq(g.inN, n requires 0 <= n < g.inN =>
      seq(g.outH, i requires 0 <= i < g.outH =>
        seq(g.outW, j requires 0 <= j < g.outW => WeightGradTerm(padded, grad, g, a, b, c, o, n, i, j))))
  }

  /** The gradient entry grad[n][i][j][o]. */
  function BiasGradTerm(grad: Tensor4, g: ConvGeom, o: nat, n: nat, i: nat, j: nat): real
    requires Is4(grad, g.inN, g.outH, g.outW, g.outC) && o < g.outC
    requires n < g.inN && i < g.outH && j < g.outW
  {
    assert Is3(grad[n], g.outH, g.outW, g.outC) && IsMat(grad[n][i], g.outW, g.outC);
    grad[n][i][j][o]
  }

  /** The gradient entries of one output channel. */
  function BiasGradTerms(grad: Tensor4, g: ConvGeom, o: nat): (T: seq<seq<seq<real>>>)
    requires Is4(grad, g.inN, g.outH, g.outW, g.outC) && o < g.outC
    ensures Is3(T, g.inN, g.outH, g.outW)
  {
    seq(g.inN, n requires 0 <= n < g.inN =>
      seq(g.outH, i requires 0 <= i < g.outH =>
        seq(g.outW, j requires 0 <= j < g.outW => BiasGradTerm(grad, g, o, n, i, j))))
  }

  /** The im2col matrix is the flattening of the patches taken image by image. */
  lemma ForwardMatrixFlat(x: Tensor4, g: ConvGeom)
    requires GeomOk(g) && Is4(x, g.inN, g.inH, g.inW, g.inC)
    ensures ForwardMatrix(x, g) == Flatten3(PatchesByImage(Patches(PaddedInput(x, g), g), g))
  {
  }

  /** Column k of the patch of image n at output position (i, j), k being the flat kernel
      index of (a, b, c), is the padded input under kernel tap (a, b), channel c. */
  lemma PatchEntry(padded: Tensor4, g: ConvGeom, n: nat, i: nat, j: nat, a: nat, b: nat, c: nat)
    requires GeomOk(g) && Is4(padded, g.inN, g.padH, g.padW, g.inC)
    requires n < g.inN && i < g.outH && j < g.outW && a < g.kH && b < g.kW && c < g.inC
    ensures i * g.sH + a < g.padH && j * g.sW + b < g.padW
    ensures At(PatchesByImage(Patches(padded, g), g)[n][i][j], Flat3(a, b, c, g.kW, g.inC))
         == padded[n][i * g.sH + a][j * g.sW + b][c]
  {
    PatchesAt(padded, g, i, j, n);
    FlatWindowAt(padded[n], g, i * g.sH, j * g.sW, a, b, c);
    assert PatchesByImage(Patches(padded, g), g)[n][i][j] == Patches(padded, g)[i][j][n];
  }

  lemma WeightGradTermAt(padded: Tensor4, grad: Tensor4, g: ConvGeom, a: nat, b: nat, c: nat, o: nat,
                         n: nat, i: nat, j: nat)
    requires GeomOk(g) && Is4(padded, g.inN, g.padH, g.padW, g.inC)
    requires Is4(grad, g.inN, g.outH, g.outW, g.outC)
    requires a < g.kH && b < g.kW && c < g.inC && o < g.outC
    requires n < g.inN && i < g.outH && j < g.outW
    ensures WeightGradTerms(padded, grad, g, a, b, c, o)[n][i][j]
         == At(PatchesByImage(Patches(padded, g), g)[n][i][j], Flat3(a, b, c, g.kW, g.inC)) * At(grad[n][i][j], o)
  {
    PatchEntry(padded, g, n, i, j, a, b, c);
    assert Is3(grad[n], g.outH, g.outW, g.outC) && IsMat(grad[n][i], g.outW, g.outC);
  }

  /** The terms of WeightGradTerms are the products that column k of X_matrix and column o
      of the reshaped gradient contribute, k being the flat kernel index of (a, b, c). */
  lemma WeightGradTermsMatch(padded: Tensor4, grad: Tensor4, g: ConvGeom, a: nat, b: nat, c: nat, o: nat)
    requires GeomOk(g) && Is4(padded, g.inN, g.padH, g.padW, g.inC)
    requires Is4(grad, g.inN, g.outH, g.outW, g.outC)
    requires a < g.kH && b < g.kW && c < g.inC && o < g.outC
    ensures var P := PatchesByImage(Patches(padded, g), g);
      var T := WeightGradTerms(padded, grad, g, a, b, c, o);
      && SameShape3(P, grad) && SameShape3(P, T)
      && ColDotTerms(P, Flat3(a, b, c, g.kW, g.inC), grad, o, T)
  {
    var P := PatchesByImage(Patches(padded, g), g);
    var T := WeightGradTerms(padded, grad, g, a, b, c, o);
    assert SameShape3(P, grad) && SameShape3(P, T) by {
      Is4Rows(grad, g.inN, g.outH, g.outW, g.outC);
    }
    var k := Flat3(a, b, c, g.kW, g.inC);
    assert ColDotTerms(P, k, grad, o, T) by {
      forall n, i, j | 0 <= n < |T| && 0 <= i < |T[n]| && 0 <= j < |T[n][i]|
        ensures T[n][i][j] == At(P[n][i][j], k) * At(grad[n][i][j], o)
      {
        WeightGradTermAt(padded, grad, g, a, b, c, o, n, i, j);
      }
    }
  }

  /** d_w[a][b][c][o] is the sum over every image and output position of the padded input
      under kernel tap (a, b), channel c, times the output gradient of channel o. */
  lemma WeightGradAt(x: Tensor4, grad: Tensor4, g: ConvGeom, a: nat, b: nat, c: nat, o: nat)
    requires GeomOk(g) && Is4(x, g.inN, g.inH, g.inW, g.inC)
    requires Is4(grad, g.inN, g.outH, g.outW, g.outC)
    requires a < g.kH && b < g.kW && c < g.inC && o < g.outC
    ensures WeightGrad(ForwardMatrix(x, g), grad, g)[a][b][c][o]
         == Sum3(WeightGradTerms(PaddedInput(x, g), grad, g, a, b, c, o))
  {
    var X := ForwardMatrix(x, g);
    var k := Flat3(a, b, c, g.kW, g.inC);
    Flat3Bound(a, b, c, g.kH, g.kW, g.inC);
    var M := TransposeTimes(X, GradMatrix(grad, g), KerLen(g), g.outC);
    assert WeightGrad(X, grad, g)[a][b][c][o] == M[k][o] == ColDot(X, k, GradMatrix(grad, g), o);
    ForwardMatrixFlat(x, g);
    WeightGradTermsMatch(PaddedInput(x, g), grad, g, a, b, c, o);
    ColDotFlatten3(PatchesByImage(Patches(PaddedInput(x, g), g), g), k, grad, o,
                   WeightGradTerms(PaddedInput(x, g), grad, g, a, b, c, o));
  }

  /** d_b[o] is the sum of the output gradient of channel o over every image and output
      position. */
  lemma BiasGradAt(grad: Tensor4, g: ConvGeom, o: nat)
    requires Is4(grad, g.inN, g.outH, g.outW, g.outC) && o < g.outC
    ensures BiasGrad(grad, g)[o] == Sum3(BiasGradTerms(grad, g, o))
  {
    var T := BiasGradTerms(grad, g, o);
    Is4Rows(grad, g.inN, g.outH, g.outW, g.outC);
    assert SameShape3(grad, T);
    ColSumFlatten3(grad, o, T);
  }

  // ---------------------------------------------------------------------------
  // Input gradient

  /** `d_X_matrix = grad @ W_matrix.T`: for every image and output position, the gradient
      of its flattened receptive field. */
  function PatchGrads(grad: Tensor4, Wm: Mat, g: ConvGeom): (dX: Tensor4)
    requires Is4(grad, g.inN, g.outH, g.outW, g.outC) && IsMat(Wm, KerLen(g), g.outC)
    ensures Is4(dX, g.inN, g.outH, g.outW, KerLen(g))
  {
    Is4Rows(grad, g.inN, g.outH, g.outW, g.outC);
    seq(g.inN, n requires 0 <= n < g.inN =>
      seq(g.outH, i requires 0 <= i < g.outH =>
        seq(g.outW, j requires 0 <= j < g.outW =>
          TimesTranspose(grad[n][i][j], Wm))))
  }

  /** `d_X_matrix[:, i, j, :].reshape((in_n, k_h, k_w, in_c))`. */
  function PatchBlock(dX: Tensor4, g: ConvGeom, i: nat, j: nat): (blk: Tensor4)
    requires Is4(dX, g.inN, g.outH, g.outW, KerLen(g)) && i < g.outH && j < g.outW
    ensures Is4(blk, g.inN, g.kH, g.kW, g.inC)
  {
    seq(g.inN, n requires 0 <= n < g.inN =>
      assert Is3(dX[n], g.outH, g.outW, KerLen(g)) && IsMat(dX[n][i], g.outW, KerLen(g));
      Unflatten3(dX[n][i][j], g.kH, g.kW, g.inC))
  }

  /** Pixel (p, q) of image n after `d[:, row:row+k_h, col:col+k_w, :] += blk`. */
  function AddBlockPixel(d: Tensor4, blk: Tensor4, g: ConvGeom, row: nat, col: nat, n: nat, p: nat, q: nat): (v: Vec)
    requires Is4(d, g.inN, g.padH, g.padW, g.inC) && Is4(blk, g.inN, g.kH, g.kW, g.inC)
    requires n < g.inN && p < g.padH && q < g.padW
    ensures |v| == g.inC
  {
    assert Is3(d[n], g.padH, g.padW, g.inC) && IsMat(d[n][p], g.padW, g.inC);
    if Covers(row, col, g.kH, g.kW, p, q) then
      assert Is3(blk[n], g.kH, g.kW, g.inC) && IsMat(blk[n][p - row], g.kW, g.inC);
      VecAdd(d[n][p][q], blk[n][p - row][q - col])
    else d[n][p][q]
  }

  /** `d[:, row:row+k_h, col:col+k_w, :] += blk`. */
  function AddBlock(d: Tensor4, blk: Tensor4, g: ConvGeom, row: nat, col: nat): (r: Tensor4)
    requires Is4(d, g.inN, g.padH, g.padW, g.inC) && Is4(blk, g.inN, g.kH, g.kW, g.inC)
    requires row + g.kH <= g.padH && col + g.kW <= g.padW
    ensures Is4(r, g.inN, g.padH, g.padW, g.inC)
  {
    seq(g.inN, n requires 0 <= n < g.inN =>
      seq(g.padH, p requires 0 <= p < g.padH =>
        seq(g.padW, q requires 0 <= q < g.padW => AddBlockPixel(d, blk, g, row, col, n, p, q))))
  }

  /** The block is added onto the pixels the window covers; all other pixels keep their
      value. */
  lemma AddBlockAt(d: Tensor4, blk: Tensor4, g: ConvGeom, row: nat, col: nat, n: nat, p: nat, q: nat, c: nat)
    requires Is4(d, g.inN, g.padH, g.padW, g.inC) && Is4(blk, g.inN, g.kH, g.kW, g.inC)
    requires row + g.kH <= g.padH && col + g.kW <= g.padW
    requires n < g.inN && p < g.padH && q < g.padW && c < g.inC
    ensures At4(AddBlock(d, blk, g, row, col), n, p, q, c)
         == At4(d, n, p, q, c) + (if Covers(row, col, g.kH, g.kW, p, q) then At4(blk, n, p - row, q - col, c) else 0.0)
  {
    assert AddBlock(d, blk, g, row, col)[n][p][q] == AddBlockPixel(d, blk, g, row, col, n, p, q);
    assert Is3(d[n], g.padH, g.padW, g.inC) && IsMat(d[n][p], g.padW, g.inC);
    if Covers(row, col, g.kH, g.kW, p, q) {
      assert Is3(blk[n], g.kH, g.kW, g.inC) && IsMat(blk[n][p - row], g.kW, g.inC);
    }
  }

  /** d_in after the windows of output rows 0 .. i-1, and of columns 0 .. j-1 of row i,
      have been added in, in the order of the two loops of Conv2D.backward. */
  function Scattered(dX: Tensor4, g: ConvGeom, i: nat, j: nat): (d: Tensor4)
    requires GeomOk(g) && Is4(dX, g.inN, g.outH, g.outW, KerLen(g))
    requires i <= g.outH && j <= g.outW && (i == g.outH ==> j == 0)
    ensures Is4(d, g.inN, g.padH, g.padW, g.inC)
    decreases i, j
  {
    if j == 0 then
      if i == 0 then Zeros4(g.inN, g.padH, g.padW, g.inC) else Scattered(dX, g, i - 1, g.outW)
    else
      WindowInside(g, i, j - 1);
      AddBlock(Scattered(dX, g, i, j - 1), PatchBlock(dX, g, i, j - 1), g, i * g.sH, (j - 1) * g.sW)
  }

  /** `d_in[:, pad[0]:padded_h-pad[1], pad[2]:padded_w-pad[3], :]` once every window has
      been added in. */
  function InputGrad(dX: Tensor4, g: ConvGeom): (dx: Tensor4)
    requires GeomOk(g) && Is4(dX, g.inN, g.outH, g.outW, KerLen(g))
    ensures Is4(dx, g.inN, g.inH, g.inW, g.inC)
  {
    Crop(Scattered(dX, g, g.outH, 0), g.pad, g.inN, g.padH, g.padW, g.inC)
  }

  /** What window (i, j) adds to channel c of padded pixel (p, q) of image n: its block
      at the kernel tap over (p, q), or 0 when the window does not cover the pixel. */
  function CoverTerm(dX: Tensor4, g: ConvGeom, n: nat, p: nat, q: nat, c: nat, i: nat, j: nat): real
    requires Is4(dX, g.inN, g.outH, g.outW, KerLen(g)) && i < g.outH && j < g.outW
  {
    if Covers(i * g.sH, j * g.sW, g.kH, g.kW, p, q)
    then At4(PatchBlock(dX, g, i, j), n, p - i * g.sH, q - j * g.sW, c)
    else 0.0
  }

  /** The cover terms of one pixel for every output position. */
  function CoverTerms(dX: Tensor4, g: ConvGeom, n: nat, p: nat, q: nat, c: nat): (T: seq<seq<real>>)
    requires Is4(dX, g.inN, g.outH, g.outW, KerLen(g))
    ensures IsMat(T, g.outH, g.outW)
  {
    seq(g.outH, i requires 0 <= i < g.outH =>
      seq(g.outW, j requires 0 <= j < g.outW => CoverTerm(dX, g, n, p, q, c, i, j)))
  }

  /** Adding in window (i, j) changes a padded pixel by that window's cover term. */
  lemma AddedBlockAt(dX: Tensor4, g: ConvGeom, i: nat, j: nat, n: nat, p: nat, q: nat, c: nat)
    requires GeomOk(g) && Is4(dX, g.inN, g.outH, g.outW, KerLen(g))
    requires i < g.outH && j < g.outW && n < g.inN && p < g.padH && q < g.padW && c < g.inC
    ensures At4(Scattered(dX, g, i, j + 1), n, p, q, c)
         == At4(Scattered(dX, g, i, j), n, p, q, c) + CoverTerm(dX, g, n, p, q, c, i, j)
  {
    WindowInside(g, i, j);
    var row, col := i * g.sH, j * g.sW;
    var blk := PatchBlock(dX, g, i, j);
    assert Scattered(dX, g, i, j + 1) == AddBlock(Scattered(dX, g, i, j), blk, g, row, col);
    AddBlockAt(Scattered(dX, g, i, j), blk, g, row, col, n, p, q, c);
    assert At4(Scattered(dX, g, i, j + 1), n, p, q, c) == At4(AddBlock(Scattered(dX, g, i, j), blk, g, row, col), n, p, q, c);
    assert CoverTerm(dX, g, n, p, q, c, i, j) == if Covers(row, col, g.kH, g.kW, p, q) then At4(blk, n, p - row, q - col, c) else 0.0;
  }

  /** The scatter-accumulate in closed form: after any prefix of the two loops, a padded
      pixel holds the sum of the cover terms of the windows added so far. Windows that
      overlap add up; none overwrites another. */
  lemma {:induction false} ScatteredAt(dX: Tensor4, g: ConvGeom, i: nat, j: nat, n: nat, p: nat, q: nat, c: nat)
    requires GeomOk(g) && Is4(dX, g.inN, g.outH, g.outW, KerLen(g))
    requires i <= g.outH && j <= g.outW && (i == g.outH ==> j == 0)
    requires n < g.inN && p < g.padH && q < g.padW && c < g.inC
    ensures At4(Scattered(dX, g, i, j), n, p, q, c)
         == Sum2(CoverTerms(dX, g, n, p, q, c)[..i])
          + (if i < g.outH then Sum1(CoverTerms(dX, g, n, p, q, c)[i][..j]) else 0.0)
    decreases i, j
  {
    var T := CoverTerms(dX, g, n, p, q, c);
    if j == 0 {
      if i > 0 {
        ScatteredAt(dX, g, i - 1, g.outW, n, p, q, c);
        assert T[i - 1][..g.outW] == T[i - 1];
        Sum2PrefixStep(T, i);
        if i < g.outH {
          assert T[i][..0] == [];
        }
      }
    } else {
      ScatteredAt(dX, g, i, j - 1, n, p, q, c);
      AddedBlockAt(dX, g, i, j - 1, n, p, q, c);
      assert T[i][j - 1] == CoverTerm(dX, g, n, p, q, c, i, j - 1);
      Sum1PrefixStep(T[i], j);
    }
  }

  /** For channel c of padded pixel (p, q) of image n and output position (i, j): the
      output gradient of (i, j) times the kernel weights of the tap over (p, q), summed
      over the output channels, or 0 when window (i, j) does not cover the pixel. */
  function InputGradTerm(grad: Tensor4, w: Tensor4, g: ConvGeom, n: nat, p: nat, q: nat, c: nat, i: nat, j: nat): real
    requires Is4(grad, g.inN, g.outH, g.outW, g.outC) && Is4(w, g.kH, g.kW, g.inC, g.outC)
    requires n < g.inN && c < g.inC && i < g.outH && j < g.outW
  {
    if Covers(i * g.sH, j * g.sW, g.kH, g.kW, p, q) then
      assert Is3(grad[n], g.outH, g.outW, g.outC) && IsMat(grad[n][i], g.outW, g.outC);
      assert Is3(w[p - i * g.sH], g.kW, g.inC, g.outC) && IsMat(w[p - i * g.sH][q - j * g.sW], g.inC, g.outC);
      Dot(grad[n][i][j], w[p - i * g.sH][q - j * g.sW][c])
    else 0.0
  }

  /** The input-gradient terms of one pixel for every output position. */
  function InputGradTerms(grad: Tensor4, w: Tensor4, g: ConvGeom, n: nat, p: nat, q: nat, c: nat)
    : (T: seq<seq<real>>)
    requires Is4(grad, g.inN, g.outH, g.outW, g.outC) && Is4(w, g.kH, g.kW, g.inC, g.outC)
    requires n < g.inN && c < g.inC
    ensures IsMat(T, g.outH, g.outW)
  {
    seq(g.outH, i requires 0 <= i < g.outH =>
      seq(g.outW, j requires 0 <= j < g.outW => InputGradTerm(grad, w, g, n, p, q, c, i, j)))
  }

  /** Entry (a, b, c) of the block of image n at output position (i, j) is the output
      gradient of that position dotted with the kernel weights of tap (a, b), channel c. */
  lemma PatchGradBlockAt(grad: Tensor4, w: Tensor4, g: ConvGeom, n: nat, i: nat, j: nat, a: nat, b: nat, c: nat)
    requires Is4(grad, g.inN, g.outH, g.outW, g.outC) && Is4(w, g.kH, g.kW, g.inC, g.outC)
    requires n < g.inN && i < g.outH && j < g.outW && a < g.kH && b < g.kW && c < g.inC
    ensures IsMat(KernelMatrix(w), KerLen(g), g.outC)
    ensures |grad[n][i][j]| == |w[a][b][c]|
    ensures At4(PatchBlock(PatchGrads(grad, KernelMatrix(w), g), g, i, j), n, a, b, c)
         == Dot(grad[n][i][j], w[a][b][c])
  {
    KernelMatrixShape(w, g);
    var dX := PatchGrads(grad, KernelMatrix(w), g);
    Is4Rows(grad, g.inN, g.outH, g.outW, g.outC);
    Is4Rows(w, g.kH, g.kW, g.inC, g.outC);
    var k := Flat3(a, b, c, g.kW, g.inC);
    Flat3Bound(a, b, c, g.kH, g.kW, g.inC);
    Flatten3Index(w, g.kW, g.inC, a, b, c);
    assert |dX[n][i][j]| == KerLen(g);
    assert PatchBlock(dX, g, i, j)[n] == Unflatten3(dX[n][i][j], g.kH, g.kW, g.inC);
    assert PatchBlock(dX, g, i, j)[n][a][b][c] == dX[n][i][j][k];
  }

  /** With d_X_matrix = grad @ W_matrix.T, every cover term is the output gradient dotted
      with the kernel weights of the tap over the pixel. */
  lemma CoverTermsAdjoint(grad: Tensor4, w: Tensor4, g: ConvGeom, n: nat, p: nat, q: nat, c: nat)
    requires GeomOk(g) && Is4(grad, g.inN, g.outH, g.outW, g.outC) && Is4(w, g.kH, g.kW, g.inC, g.outC)
    requires n < g.inN && c < g.inC
    ensures IsMat(KernelMatrix(w), KerLen(g), g.outC)
    ensures CoverTerms(PatchGrads(grad, KernelMatrix(w), g), g, n, p, q, c) == InputGradTerms(grad, w, g, n, p, q, c)
  {
    KernelMatrixShape(w, g);
    var T := CoverTerms(PatchGrads(grad, KernelMatrix(w), g), g, n, p, q, c);
    var U := InputGradTerms(grad, w, g, n, p, q, c);
    forall i, j | 0 <= i < g.outH && 0 <= j < g.outW ensures T[i][j] == U[i][j] {
      if Covers(i * g.sH, j * g.sW, g.kH, g.kW, p, q) {
        PatchGradBlockAt(grad, w, g, n, i, j, p - i * g.sH, q - j * g.sW, c);
      }
    }
    assert forall i | 0 <= i < g.outH :: T[i] == U[i];
  }

  /** The fully scattered padded gradient at one entry is the sum of what every window
      covering that entry contributes. */
  lemma ScatteredSum(dX: Tensor4, g: ConvGeom, n: nat, p: nat, q: nat, c: nat)
    requires GeomOk(g) && Is4(dX, g.inN, g.outH, g.outW, KerLen(g))
    requires n < g.inN && p < g.padH && q < g.padW && c < g.inC
    ensures At4(Scattered(dX, g, g.outH, 0), n, p, q, c) == Sum2(CoverTerms(dX, g, n, p, q, c))
  {
    ScatteredAt(dX, g, g.outH, 0, n, p, q, c);
    var T := CoverTerms(dX, g, n, p, q, c);
    assert T[..g.outH] == T;
  }

  /** Cutting the cached padding off a buffer of the padded shape. */
  lemma CropPadded(d: Tensor4, g: ConvGeom, n: nat, y: nat, z: nat, c: nat)
    requires GeomOk(g) && Is4(d, g.inN, g.padH, g.padW, g.inC)
    requires n < g.inN && y < g.inH && z < g.inW && c < g.inC
    ensures Crop(d, g.pad, g.inN, g.padH, g.padW, g.inC)[n][y][z][c] == At4(d, n, y + g.pad.top, z + g.pad.left, c)
  {
    CropAt(d, g.pad, g.inN, g.padH, g.padW, g.inC, n, y, z, c);
  }

  /** Entry (y, z) of d_in sums what every window covering padded pixel
      (y + top, z + left) contributes to it. */
  lemma InputGradSum(dX: Tensor4, g: ConvGeom, n: nat, y: nat, z: nat, c: nat)
    requires GeomOk(g) && Is4(dX, g.inN, g.outH, g.outW, KerLen(g))
    requires n < g.inN && y < g.inH && z < g.inW && c < g.inC
    ensures InputGrad(dX, g)[n][y][z][c] == Sum2(CoverTerms(dX, g, n, y + g.pad.top, z + g.pad.left, c))
  {
    var v := Sum2(CoverTerms(dX, g, n, y + g.pad.top, z + g.pad.left, c));
    assert At4(Scattered(dX, g, g.outH, 0), n, y + g.pad.top, z + g.pad.left, c) == v by {
      ScatteredSum(dX, g, n, y + g.pad.top, z + g.pad.left, c);
    }
    CropPadded(Scattered(dX, g, g.outH, 0), g, n, y, z, c);
  }

  /** Every input pixel's gradient is the sum, over the output positions whose window
      covers its padded position, of the output gradient dotted with the kernel weights
      of the tap over it. */
  lemma InputGradAt(grad: Tensor4, w: Tensor4, g: ConvGeom, n: nat, y: nat, z: nat, c: nat)
    requires GeomOk(g) && Is4(grad, g.inN, g.outH, g.outW, g.outC) && Is4(w, g.kH, g.kW, g.inC, g.outC)
    requires n < g.inN && y < g.inH && z < g.inW && c < g.inC
    ensures IsMat(KernelMatrix(w), KerLen(g), g.outC)
    ensures InputGrad(PatchGrads(grad, KernelMatrix(w), g), g)[n][y][z][c]
         == Sum2(InputGradTerms(grad, w, g, n, y + g.pad.top, z + g.pad.left, c))
  {
    KernelMatrixShape(w, g);
    var dX := PatchGrads(grad, KernelMatrix(w), g);
    var p, q := y + g.pad.top, z + g.pad.left;
    var v := Sum2(InputGradTerms(grad, w, g, n, p, q, c));
    assert Sum2(CoverTerms(dX, g, n, p, q, c)) == v by {
      CoverTermsAdjoint(grad, w, g, n, p, q, c);
    }
    InputGradSum(dX, g, n, y, z, c);
  }
}
