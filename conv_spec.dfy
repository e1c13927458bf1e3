/** What Conv2D computes (core/layers.py, class Conv2D), stated on values: its
    padding rule, its output size, the im2col gather of the forward pass, and the
    parameter and input gradients of the backward pass, each with the closed form
    it amounts to. */
module ConvSpec {
  import opened Arith
  import opened Tensors
  import opened Padding
  import opened Wrappers

  // ---------------------------------------------------------------------------
  // Padding (Conv2D._get_padding)

  predicate IsConvMode(mode: string)
  {
    mode == "FULL" || mode == "VALID" || mode == "SAME"
  }

  /** One axis of SAME padding: k - 1 pixels in all, the odd one on the trailing side. */
  predicate SameSplit(lead: nat, trail: nat, k: nat)
  {
    && lead + trail == k - 1
    && (trail == lead + 1 <==> k % 2 == 0)
    && (trail == lead <==> k % 2 == 1)
  }

  function SamePad(kh: nat, kw: nat): (p: Pad4)
    requires kh >= 1 && kw >= 1
  {
    var base := Pad4((kh - 1) / 2, (kh - 1) / 2, (kw - 1) / 2, (kw - 1) / 2);
    var p1 := if kh % 2 == 0 then base.(bottom := base.bottom + 1) else base;
    if kw % 2 == 0 then p1.(right := p1.right + 1) else p1
  }

  /** Conv2D._get_padding as written: FULL yields the list [kh-1, kw-1, kh-1, kw-1],
      read by the caller as (top, bottom, left, right). An unknown mode yields None. */
  function GetPaddingAsWritten(kh: nat, kw: nat, mode: string): (r: Option<Pad4>)
    requires kh >= 1 && kw >= 1
    ensures r.Some? <==> IsConvMode(mode)
    ensures mode == "FULL" ==>
      r.Some? && (r.value.top == r.value.bottom == r.value.left == r.value.right <==> kh == kw)
    ensures mode != "FULL" ==> r == GetPadding(kh, kw, mode)
  {
    if mode == "FULL" then Some(Pad4(kh - 1, kw - 1, kh - 1, kw - 1))
    else if mode == "VALID" then Some(Pad4(0, 0, 0, 0))
    else if mode == "SAME" then Some(SamePad(kh, kw))
    else None
  }

  /** Conv2D._get_padding with FULL giving kh - 1 rows above and below and kw - 1
      columns left and right, as its docstring describes. */
  function GetPadding(kh: nat, kw: nat, mode: string): (r: Option<Pad4>)
    requires kh >= 1 && kw >= 1
    ensures r.Some? <==> IsConvMode(mode)
    ensures mode == "FULL" ==> r == Some(Pad4(kh - 1, kh - 1, kw - 1, kw - 1))
    ensures mode == "VALID" ==> r == Some(Pad4(0, 0, 0, 0))
    ensures mode == "SAME" ==> r.Some? && SameSplit(r.value.top, r.value.bottom, kh)
                                      && SameSplit(r.value.left, r.value.right, kw)
  {
    if mode == "FULL" then Some(Pad4(kh - 1, kh - 1, kw - 1, kw - 1))
    else if mode == "VALID" then Some(Pad4(0, 0, 0, 0))
    else if mode == "SAME" then Some(SamePad(kh, kw))
    else None
  }

  // ---------------------------------------------------------------------------
  // Output size

  /** out = int((padded - k) / s + 1) of layers.py, for padded >= k. */
  function ConvOutSize(padded: nat, k: nat, s: nat): nat
    requires s >= 1 && k <= padded
  {
    (padded - k) / s + 1
  }

  /** The window starting at i * s fits in the padded axis exactly when i < out: out is
      the number of positions that range(0, padded - k + 1, s) produces. */
  lemma {:induction false} WindowFits(padded: nat, k: nat, s: nat, i: nat)
    requires s >= 1 && k <= padded
    ensures i * s + k <= padded <==> i < ConvOutSize(padded, k, s)
  {
    StepsBelow(i, padded - k, s);
  }

  /** SAME with stride 1 keeps the spatial size of the input. */
  lemma SameStrideOneKeepsSize(inH: nat, inW: nat, kh: nat, kw: nat)
    requires inH >= 1 && inW >= 1 && kh >= 1 && kw >= 1
    ensures var p := GetPadding(kh, kw, "SAME").value;
      && ConvOutSize(inH + p.top + p.bottom, kh, 1) == inH
      && ConvOutSize(inW + p.left + p.right, kw, 1) == inW
  {
  }

  /** VALID keeps only the windows that lie wholly inside the input. */
  lemma ValidOutSize(inH: nat, inW: nat, kh: nat, kw: nat, sh: nat, sw: nat)
    requires kh >= 1 && kw >= 1 && sh >= 1 && sw >= 1 && kh <= inH && kw <= inW
    ensures var p := GetPadding(kh, kw, "VALID").value;
      && ConvOutSize(inH + p.top + p.bottom, kh, sh) == (inH - kh) / sh + 1
      && ConvOutSize(inW + p.left + p.right, kw, sw) == (inW - kw) / sw + 1
  {
  }

  /** FULL with stride 1 gives the largest map: every placement that overlaps the input. */
  lemma FullStrideOneSize(inH: nat, inW: nat, kh: nat, kw: nat)
    requires inH >= 1 && inW >= 1 && kh >= 1 && kw >= 1
    ensures var p := GetPadding(kh, kw, "FULL").value;
      && ConvOutSize(inH + p.top + p.bottom, kh, 1) == inH + kh - 1
      && ConvOutSize(inW + p.left + p.right, kw, 1) == inW + kw - 1
  {
  }

  /** The padding as written and the corrected padding agree exactly when the mode is
      not FULL or the kernel is square; only there does a layer built on either differ. */
  lemma PaddingRulesAgree(kh: nat, kw: nat, mode: string)
    requires kh >= 1 && kw >= 1
    ensures GetPaddingAsWritten(kh, kw, mode) == GetPadding(kh, kw, mode) <==> mode != "FULL" || kh == kw
  {
  }

  /** With a 3x1 kernel on a 5x5 input, FULL padding as written yields a 5x7 map where
      the full convolution is 7x5. */
  lemma FullPaddingAsWrittenCounterexample()
    ensures GetPaddingAsWritten(3, 1, "FULL") == Some(Pad4(2, 0, 2, 0))
    ensures var p := GetPaddingAsWritten(3, 1, "FULL").value;
      ConvOutSize(5 + p.top + p.bottom, 3, 1) == 5 && ConvOutSize(5 + p.left + p.right, 1, 1) == 7
    ensures var p := GetPadding(3, 1, "FULL").value;
      ConvOutSize(5 + p.top + p.bottom, 3, 1) == 7 && ConvOutSize(5 + p.left + p.right, 1, 1) == 5
  {
  }

  // ---------------------------------------------------------------------------
  // Geometry: the sizes Conv2D.forward computes and caches

  /** The bookkeeping entries of Conv2D's cache: in_n, in_img_size, kernel_size,
      stride, pad, pad_img_size and out_img_size. */
  datatype ConvGeom = ConvGeom(
    inN: nat, inH: nat, inW: nat, inC: nat,
    kH: nat, kW: nat, sH: nat, sW: nat,
    pad: Pad4, padH: nat, padW: nat,
    outH: nat, outW: nat, outC: nat)

  predicate GeomOk(g: ConvGeom)
  {
    && g.kH >= 1 && g.kW >= 1 && g.sH >= 1 && g.sW >= 1
    && g.inH >= 1 && g.inW >= 1
    && g.padH == g.inH + g.pad.top + g.pad.bottom
    && g.padW == g.inW + g.pad.left + g.pad.right
    && g.kH <= g.padH && g.kW <= g.padW
    && g.outH == ConvOutSize(g.padH, g.kH, g.sH)
    && g.outW == ConvOutSize(g.padW, g.kW, g.sW)
  }

  /** ker_len: the length of one flattened receptive field. */
  function KerLen(g: ConvGeom): nat
  {
    g.kH * g.kW * g.inC
  }

  /** The receptive field of output (i, j) does not run past the padded image. */
  lemma {:induction false} WindowInside(g: ConvGeom, i: nat, j: nat)
    requires GeomOk(g) && i < g.outH && j < g.outW
    ensures i * g.sH + g.kH <= g.padH && j * g.sW + g.kW <= g.padW
  {
    WindowFits(g.padH, g.kH, g.sH, i);
    WindowFits(g.padW, g.kW, g.sW, j);
  }

  // ---------------------------------------------------------------------------
  // Forward: im2col gather and product

  /** padded[n, row:row+kh, col:col+kw, :] for one image n. */
  function Window(img: Tensor3, row: nat, col: nat, kh: nat, kw: nat): Tensor3
    requires row + kh <= |img| && forall y :: 0 <= y < |img| ==> col + kw <= |img[y]|
  {
    seq(kh, a requires 0 <= a < kh => img[row + a][col .. col + kw])
  }

  lemma WindowShape(img: Tensor3, h: nat, w: nat, c: nat, row: nat, col: nat, kh: nat, kw: nat)
    requires Is3(img, h, w, c) && row + kh <= h && col + kw <= w
    ensures Is3(Window(img, row, col, kh, kw), kh, kw, c)
  {
    var win := Window(img, row, col, kh, kw);
    forall a | 0 <= a < kh ensures IsMat(win[a], kw, c) {
      assert IsMat(img[row + a], w, c);
    }
  }

  /** The receptive field at (row, col) of one padded image, flattened in (a, b, c) order. */
  function FlatWindow(img: Tensor3, g: ConvGeom, row: nat, col: nat): (v: Vec)
    requires Is3(img, g.padH, g.padW, g.inC)
    requires row + g.kH <= g.padH && col + g.kW <= g.padW
    ensures |v| == KerLen(g)
  {
    assert forall y :: 0 <= y < |img| ==> col + g.kW <= |img[y]| by {
      forall y | 0 <= y < |img| ensures col + g.kW <= |img[y]| {
        assert IsMat(img[y], g.padW, g.inC);
      }
    }
    WindowShape(img, g.padH, g.padW, g.inC, row, col, g.kH, g.kW);
    Flatten3Length(Window(img, row, col, g.kH, g.kW), g.kW, g.inC);
    Flatten3(Window(img, row, col, g.kH, g.kW))
  }

  /** `patch.reshape(-1, ker_len)`: one flattened receptive field per image of the batch. */
  function PatchRows(padded: Tensor4, g: ConvGeom, row: nat, col: nat): (r: Mat)
    requires Is4(padded, g.inN, g.padH, g.padW, g.inC)
    requires row + g.kH <= g.padH && col + g.kW <= g.padW
    ensures IsMat(r, g.inN, KerLen(g))
  {
    seq(g.inN, n requires 0 <= n < g.inN => FlatWindow(padded[n], g, row, col))
  }

  /** Some nest indexed [output row][output column][image] of rows of length ker_len. */
  predicate PatchesShape(patches: seq<seq<Mat>>, g: ConvGeom)
  {
    && Is3(patches, g.outH, g.outW, g.inN)
    && forall i, j, n :: 0 <= i < g.outH && 0 <= j < g.outW && 0 <= n < g.inN ==>
         |patches[i][j][n]| == KerLen(g)
  }

  /** All patches, indexed [output row][output column][image], as the nested lists
      `patches` / `row_patches` of Conv2D.forward hold them. */
  function Patches(padded: Tensor4, g: ConvGeom): (r: seq<seq<Mat>>)
    requires GeomOk(g) && Is4(padded, g.inN, g.padH, g.padW, g.inC)
    ensures PatchesShape(r, g)
  {
    var r := seq(g.outH, i requires 0 <= i < g.outH =>
      seq(g.outW, j requires 0 <= j < g.outW =>
        WindowInside(g, i, j);
        PatchRows(padded, g, i * g.sH, j * g.sW)));
    assert forall i, j :: 0 <= i < g.outH && 0 <= j < g.outW ==> IsMat(r[i][j], g.inN, KerLen(g));
    r
  }

  /** The patches reordered to (image, output row, output column), one per row. */
  function PatchesByImage(patches: seq<seq<Mat>>, g: ConvGeom): (t: seq<seq<seq<Vec>>>)
    requires Is3(patches, g.outH, g.outW, g.inN)
    ensures Is3(t, g.inN, g.outH, g.outW)
  {
    seq(g.inN, n requires 0 <= n < g.inN =>
      seq(g.outH, i requires 0 <= i < g.outH =>
        seq(g.outW, j requires 0 <= j < g.outW =>
          assert IsMat(patches[i], g.outW, g.inN);
          patches[i][j][n])))
  }

  /** `X_matrix = patches.transpose([2, 0, 1, 3]).reshape((-1, ker_len))`. */
  function Im2Col(patches: seq<seq<Mat>>, g: ConvGeom): (X: Mat)
    requires PatchesShape(patches, g)
    ensures IsMat(X, g.inN * g.outH * g.outW, KerLen(g))
  {
    var t := PatchesByImage(patches, g);
    Flatten3Length(t, g.outH, g.outW);
    assert forall a, b, c :: 0 <= a < |t| && 0 <= b < |t[a]| && 0 <= c < |t[a][b]| ==> |t[a][b][c]| == KerLen(g);
    Flatten3Rows(t, KerLen(g));
    Flatten3(t)
  }

  /** `W_matrix = kernel.reshape((ker_len, -1))`. */
  function KernelMatrix(w: Tensor4): Mat
  {
    Flatten3(w)
  }

  /** `t + b`, b broadcast over the batch and spatial axes. */
  function AddBias(t: Tensor4, b: Vec, n: nat, h: nat, w: nat): (r: Tensor4)
    requires Is4(t, n, h, w, |b|)
    ensures Is4(r, n, h, w, |b|)
  {
    seq(n, i requires 0 <= i < n =>
      seq(h, y requires 0 <= y < h =>
        seq(w, z requires 0 <= z < w =>
          seq(|b|, o requires 0 <= o < |b| => At(t[i][y][z], o) + b[o]))))
  }

  /** `(X_matrix @ W_matrix).reshape((in_n, out_h, out_w, out_c)) + b`. */
  function ForwardOutputs(X: Mat, Wm: Mat, b: Vec, g: ConvGeom): (r: Tensor4)
    requires |X| == g.inN * g.outH * g.outW && |b| == g.outC
    requires forall k :: 0 <= k < |X| ==> |X[k]| == |Wm|
    ensures Is4(r, g.inN, g.outH, g.outW, g.outC)
  {
    var M := MatMul(X, Wm, g.outC);
    var t := Unflatten3(M, g.inN, g.outH, g.outW);
    assert Is4(t, g.inN, g.outH, g.outW, g.outC) by {
      forall n, i, j | 0 <= n < g.inN && 0 <= i < g.outH && 0 <= j < g.outW
        ensures |t[n][i][j]| == g.outC
      {
        Flat3Bound(n, i, j, g.inN, g.outH, g.outW);
      }
    }
    AddBias(t, b, g.inN, g.outH, g.outW)
  }

  /** The geometry Conv2D.forward derives from the input shape, the kernel, the stride
      and the (corrected) padding rule. */
  function MakeGeom(inN: nat, inH: nat, inW: nat, inC: nat, kH: nat, kW: nat, sH: nat, sW: nat,
                    outC: nat, mode: string): (g: ConvGeom)
    requires kH >= 1 && kW >= 1 && sH >= 1 && sW >= 1 && IsConvMode(mode)
    requires inH + GetPadding(kH, kW, mode).value.top + GetPadding(kH, kW, mode).value.bottom >= kH
    requires inW + GetPadding(kH, kW, mode).value.left + GetPadding(kH, kW, mode).value.right >= kW
    ensures g.inN == inN && g.inH == inH && g.inW == inW && g.inC == inC
    ensures g.kH == kH && g.kW == kW && g.sH == sH && g.sW == sW && g.outC == outC
    ensures g.pad == GetPadding(kH, kW, mode).value
    ensures inH >= 1 && inW >= 1 ==> GeomOk(g)
  {
    var p := GetPadding(kH, kW, mode).value;
    var padH, padW := inH + p.top + p.bottom, inW + p.left + p.right;
    ConvGeom(inN, inH, inW, inC, kH, kW, sH, sW, p, padH, padW,
             ConvOutSize(padH, kH, sH), ConvOutSize(padW, kW, sW), outC)
  }

  /** What Conv2D.forward needs of its input and parameters: an input of the cached
      shape, a kernel of shape (kH, kW, inC, outC) and one bias per output channel. */
  predicate ConvInputs(x: Tensor4, w: Tensor4, b: Vec, g: ConvGeom)
  {
    && GeomOk(g)
    && Is4(x, g.inN, g.inH, g.inW, g.inC)
    && Is4(w, g.kH, g.kW, g.inC, g.outC)
    && |b| == g.outC
  }

  /** `np.pad(inputs, pad_width, mode="edge")` with the cached padding. */
  function PaddedInput(x: Tensor4, g: ConvGeom): (r: Tensor4)
    requires GeomOk(g) && Is4(x, g.inN, g.inH, g.inW, g.inC)
    ensures Is4(r, g.inN, g.padH, g.padW, g.inC)
  {
    EdgePad(x, g.pad, g.inN, g.inH, g.inW, g.inC)
  }

  lemma KernelMatrixShape(w: Tensor4, g: ConvGeom)
    requires Is4(w, g.kH, g.kW, g.inC, g.outC)
    ensures IsMat(KernelMatrix(w), KerLen(g), g.outC)
  {
    assert Is3(w, g.kH, g.kW, g.inC) by {
      forall a | 0 <= a < g.kH ensures IsMat(w[a], g.kW, g.inC) {
        assert Is3(w[a], g.kW, g.inC, g.outC);
      }
    }
    Flatten3Length(w, g.kW, g.inC);
    assert forall a, b, c :: 0 <= a < |w| && 0 <= b < |w[a]| && 0 <= c < |w[a][b]| ==> |w[a][b][c]| == g.outC by {
      forall a, b, c | 0 <= a < |w| && 0 <= b < |w[a]| && 0 <= c < |w[a][b]| ensures |w[a][b][c]| == g.outC {
        assert Is3(w[a], g.kW, g.inC, g.outC);
        assert IsMat(w[a][b], g.inC, g.outC);
      }
    }
    Flatten3Rows(w, g.outC);
  }

  /** The im2col matrix Conv2D.forward builds from the padded input. */
  function ForwardMatrix(x: Tensor4, g: ConvGeom): (X: Mat)
    requires GeomOk(g) && Is4(x, g.inN, g.inH, g.inW, g.inC)
    ensures IsMat(X, g.inN * g.outH * g.outW, KerLen(g))
  {
    Im2Col(Patches(PaddedInput(x, g), g), g)
  }

  /** The whole of Conv2D.forward on values: pad, gather, multiply, add the bias. */
  function ConvForward(x: Tensor4, w: Tensor4, b: Vec, g: ConvGeom): (r: Tensor4)
    requires ConvInputs(x, w, b, g)
    ensures Is4(r, g.inN, g.outH, g.outW, g.outC)
  {
    KernelMatrixShape(w, g);
    ForwardOutputs(ForwardMatrix(x, g), KernelMatrix(w), b, g)
  }

  /** One product padded[n][i*s_h+a][j*s_w+b][c] * w[a][b][c][o] of a receptive field. */
  function WindowTerm(padded: Tensor4, w: Tensor4, g: ConvGeom, n: nat, i: nat, j: nat, o: nat, a: nat, b: nat, c: nat): real
    requires GeomOk(g) && Is4(padded, g.inN, g.padH, g.padW, g.inC) && Is4(w, g.kH, g.kW, g.inC, g.outC)
    requires n < g.inN && i < g.outH && j < g.outW && o < g.outC && a < g.kH && b < g.kW && c < g.inC
  {
    WindowInside(g, i, j);
    assert Is3(padded[n], g.padH, g.padW, g.inC) && IsMat(padded[n][i * g.sH + a], g.padW, g.inC);
    assert Is3(w[a], g.kW, g.inC, g.outC) && IsMat(w[a][b], g.inC, g.outC);
    padded[n][i * g.sH + a][j * g.sW + b][c] * w[a][b][c][o]
  }

  /** The products of one receptive field, tap by tap. */
  function WindowTerms(padded: Tensor4, w: Tensor4, g: ConvGeom, n: nat, i: nat, j: nat, o: nat)
    : (t: seq<seq<seq<real>>>)
    requires GeomOk(g) && Is4(padded, g.inN, g.padH, g.padW, g.inC) && Is4(w, g.kH, g.kW, g.inC, g.outC)
    requires n < g.inN && i < g.outH && j < g.outW && o < g.outC
    ensures Is3(t, g.kH, g.kW, g.inC)
  {
    seq(g.kH, a requires 0 <= a < g.kH =>
      seq(g.kW, b requires 0 <= b < g.kW =>
        seq(g.inC, c requires 0 <= c < g.inC => WindowTerm(padded, w, g, n, i, j, o, a, b, c))))
  }

  lemma PatchesAt(padded: Tensor4, g: ConvGeom, i: nat, j: nat, n: nat)
    requires GeomOk(g) && Is4(padded, g.inN, g.padH, g.padW, g.inC)
    requires n < g.inN && i < g.outH && j < g.outW
    ensures i * g.sH + g.kH <= g.padH && j * g.sW + g.kW <= g.padW
    ensures Patches(padded, g)[i][j][n] == FlatWindow(padded[n], g, i * g.sH, j * g.sW)
  {
    WindowInside(g, i, j);
    assert Patches(padded, g)[i][j] == PatchRows(padded, g, i * g.sH, j * g.sW);
  }

  /** Row n*out_h*out_w + i*out_w + j of X_matrix is the flattened receptive field of
      output (i, j) of image n. */
  lemma ForwardMatrixRow(x: Tensor4, g: ConvGeom, n: nat, i: nat, j: nat)
    requires GeomOk(g) && Is4(x, g.inN, g.inH, g.inW, g.inC)
    requires n < g.inN && i < g.outH && j < g.outW
    ensures i * g.sH + g.kH <= g.padH && j * g.sW + g.kW <= g.padW
    ensures Flat3(n, i, j, g.outH, g.outW) < |ForwardMatrix(x, g)|
    ensures ForwardMatrix(x, g)[Flat3(n, i, j, g.outH, g.outW)]
         == FlatWindow(PaddedInput(x, g)[n], g, i * g.sH, j * g.sW)
  {
    var padded := PaddedInput(x, g);
    var patches := Patches(padded, g);
    var t := PatchesByImage(patches, g);
    PatchesAt(padded, g, i, j, n);
    Flatten3Index(t, g.outH, g.outW, n, i, j);
    assert ForwardMatrix(x, g) == Flatten3(t);
  }

  /** Entry (a, b, c) of a flattened receptive field is the pixel under kernel tap (a, b),
      channel c. */
  lemma FlatWindowAt(img: Tensor3, g: ConvGeom, row: nat, col: nat, a: nat, b: nat, c: nat)
    requires Is3(img, g.padH, g.padW, g.inC)
    requires row + g.kH <= g.padH && col + g.kW <= g.padW
    requires a < g.kH && b < g.kW && c < g.inC
    ensures Flat3(a, b, c, g.kW, g.inC) < |FlatWindow(img, g, row, col)|
    ensures row + a < |img| && col + b < |img[row + a]| && c < |img[row + a][col + b]|
    ensures FlatWindow(img, g, row, col)[Flat3(a, b, c, g.kW, g.inC)] == img[row + a][col + b][c]
  {
    assert IsMat(img[row + a], g.padW, g.inC);
    var win := Window(img, row, col, g.kH, g.kW);
    WindowShape(img, g.padH, g.padW, g.inC, row, col, g.kH, g.kW);
    Flatten3Index(win, g.kW, g.inC, a, b, c);
  }

  /** Entry (a, b, c) of row n*out_h*out_w + i*out_w + j of X_matrix is the padded input
      under kernel tap (a, b) of output (i, j), channel c. */
  lemma Im2ColAt(x: Tensor4, g: ConvGeom, n: nat, i: nat, j: nat, a: nat, b: nat, c: nat)
    requires GeomOk(g) && Is4(x, g.inN, g.inH, g.inW, g.inC)
    requires n < g.inN && i < g.outH && j < g.outW && a < g.kH && b < g.kW && c < g.inC
    ensures Flat3(n, i, j, g.outH, g.outW) < |ForwardMatrix(x, g)| && Flat3(a, b, c, g.kW, g.inC) < KerLen(g)
    ensures i * g.sH + a < g.padH && j * g.sW + b < g.padW
    ensures At(ForwardMatrix(x, g)[Flat3(n, i, j, g.outH, g.outW)], Flat3(a, b, c, g.kW, g.inC))
         == PaddedInput(x, g)[n][i * g.sH + a][j * g.sW + b][c]
  {
    ForwardMatrixRow(x, g, n, i, j);
    FlatWindowAt(PaddedInput(x, g)[n], g, i * g.sH, j * g.sW, a, b, c);
  }

  /** Entry (n, i, j, o) of the reshaped product plus bias is the bias plus row
      n*out_h*out_w + i*out_w + j of X times column o of W. */
  lemma ForwardOutputsAt(X: Mat, Wm: Mat, b: Vec, g: ConvGeom, n: nat, i: nat, j: nat, o: nat)
    requires |X| == g.inN * g.outH * g.outW && |b| == g.outC
    requires forall k :: 0 <= k < |X| ==> |X[k]| == |Wm|
    requires n < g.inN && i < g.outH && j < g.outW && o < g.outC
    ensures Flat3(n, i, j, g.outH, g.outW) < |X|
    ensures ForwardOutputs(X, Wm, b, g)[n][i][j][o] == b[o] + DotCol(X[Flat3(n, i, j, g.outH, g.outW)], Wm, o)
  {
    Flat3Bound(n, i, j, g.inN, g.outH, g.outW);
    var r := Flat3(n, i, j, g.outH, g.outW);
    var M := MatMul(X, Wm, g.outC);
    assert |M| == |X|;
    assert r < |M|;
    assert M[r][o] == DotCol(X[r], Wm, o);
    var t := Unflatten3(M, g.inN, g.outH, g.outW);
    assert t[n][i][j] == M[r];
    assert Is4(t, g.inN, g.outH, g.outW, g.outC) by {
      forall n', i', j' | 0 <= n' < g.inN && 0 <= i' < g.outH && 0 <= j' < g.outW
        ensures |t[n'][i'][j']| == g.outC
      {
        Flat3Bound(n', i', j', g.inN, g.outH, g.outW);
      }
    }
    assert ForwardOutputs(X, Wm, b, g) == AddBias(t, b, g.inN, g.outH, g.outW);
  }

  /** One flattened receptive field times column o of the flattened kernel is the plain
      triple sum of input times weight over that field. */
  lemma WindowDot(padded: Tensor4, w: Tensor4, g: ConvGeom, n: nat, i: nat, j: nat, o: nat)
    requires GeomOk(g) && Is4(padded, g.inN, g.padH, g.padW, g.inC) && Is4(w, g.kH, g.kW, g.inC, g.outC)
    requires n < g.inN && i < g.outH && j < g.outW && o < g.outC
    requires i * g.sH + g.kH <= g.padH && j * g.sW + g.kW <= g.padW
    ensures |FlatWindow(padded[n], g, i * g.sH, j * g.sW)| == |KernelMatrix(w)|
    ensures DotCol(FlatWindow(padded[n], g, i * g.sH, j * g.sW), KernelMatrix(w), o)
         == Sum3(WindowTerms(padded, w, g, n, i, j, o))
  {
    KernelMatrixShape(w, g);
    var win := Window(padded[n], i * g.sH, j * g.sW, g.kH, g.kW);
    WindowShape(padded[n], g.padH, g.padW, g.inC, i * g.sH, j * g.sW, g.kH, g.kW);
    var T := WindowTerms(padded, w, g, n, i, j, o);
    assert SameShape3(win, w) && SameShape3(win, T) && DotColTerms(win, w, o, T) by {
      forall a, b | 0 <= a < g.kH && 0 <= b < g.kW ensures |win[a][b]| == |w[a][b]| {
        assert Is3(w[a], g.kW, g.inC, g.outC);
        assert IsMat(win[a], g.kW, g.inC);
      }
      forall a, b, c | 0 <= a < |T| && 0 <= b < |T[a]| && 0 <= c < |T[a][b]|
        ensures T[a][b][c] == win[a][b][c] * At(w[a][b][c], o)
      {
        assert Is3(w[a], g.kW, g.inC, g.outC) && IsMat(w[a][b], g.inC, g.outC);
      }
    }
    DotColFlatten3(win, w, o, T);
  }

  /** Each output is its channel's bias plus the sum, over the receptive field, of padded
      input times kernel weight. */
  lemma ConvForwardAt(x: Tensor4, w: Tensor4, bias: Vec, g: ConvGeom, n: nat, i: nat, j: nat, o: nat)
    requires ConvInputs(x, w, bias, g)
    requires n < g.inN && i < g.outH && j < g.outW && o < g.outC
    ensures ConvForward(x, w, bias, g)[n][i][j][o]
         == bias[o] + Sum3(WindowTerms(PaddedInput(x, g), w, g, n, i, j, o))
  {
    KernelMatrixShape(w, g);
    ForwardMatrixRow(x, g, n, i, j);
    ForwardOutputsAt(ForwardMatrix(x, g), KernelMatrix(w), bias, g, n, i, j, o);
    WindowDot(PaddedInput(x, g), w, g, n, i, j, o);
  }
}
