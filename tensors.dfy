/** Dense tensors as nested sequences of reals, the row-major reshapes that numpy's
    `reshape` performs on them, and the matrix products the layers use. Axes of a
    four-dimensional tensor are (batch, height, width, channel). */
module Tensors {
  import opened Arith

  type Vec = seq<real>
  type Mat = seq<Vec>
  type Tensor3 = seq<Mat>
  type Tensor4 = seq<Tensor3>

  predicate IsMat<T>(m: seq<seq<T>>, rows: nat, cols: nat)
  {
    |m| == rows && forall r :: 0 <= r < rows ==> |m[r]| == cols
  }

  predicate Is3<T>(t: seq<seq<seq<T>>>, na: nat, nb: nat, nc: nat)
  {
    |t| == na && forall a :: 0 <= a < na ==> IsMat(t[a], nb, nc)
  }

  predicate Is4<T>(t: seq<seq<seq<seq<T>>>>, n: nat, h: nat, w: nat, c: nat)
  {
    |t| == n && forall i :: 0 <= i < n ==> Is3(t[i], h, w, c)
  }

  /** A four-level nest of a shape is a three-level nest of vectors of one length. */
  lemma Is4Rows<T>(t: seq<seq<seq<seq<T>>>>, n: nat, h: nat, w: nat, c: nat)
    requires Is4(t, n, h, w, c)
    ensures Is3(t, n, h, w)
    ensures forall a, b, d :: 0 <= a < n && 0 <= b < h && 0 <= d < w ==> |t[a][b][d]| == c
  {
    forall a | 0 <= a < n ensures IsMat(t[a], h, w) {
      assert Is3(t[a], h, w, c);
    }
    forall a, b, d | 0 <= a < n && 0 <= b < h && 0 <= d < w ensures |t[a][b][d]| == c {
      assert Is3(t[a], h, w, c);
      assert IsMat(t[a][b], w, c);
    }
  }

  /** A kh-by-kw window placed with its corner at (row, col) lies over pixel (p, q). */
  predicate Covers(row: nat, col: nat, kh: nat, kw: nat, p: nat, q: nat)
  {
    row <= p < row + kh && col <= q < col + kw
  }

  /** All-zero tensor of the given shape (numpy's `np.zeros`). */
  function Zeros4(n: nat, h: nat, w: nat, c: nat): (z: Tensor4)
    ensures Is4(z, n, h, w, c)
    ensures forall i, p, q, k :: 0 <= i < n && 0 <= p < h && 0 <= q < w && 0 <= k < c ==> z[i][p][q][k] == 0.0
  {
    seq(n, _ => seq(h, _ => seq(w, _ => seq(c, _ => 0.0))))
  }

  // ---------------------------------------------------------------------------
  // Row-major flattening

  /** Concatenation of a sequence of sequences, in order. */
  function Concat<T>(xs: seq<seq<T>>): seq<T>
  {
    if |xs| == 0 then [] else Concat(xs[..|xs| - 1]) + xs[|xs| - 1]
  }

  lemma {:induction false} ConcatLength<T>(xs: seq<seq<T>>, len: nat)
    requires forall k :: 0 <= k < |xs| ==> |xs[k]| == len
    ensures |Concat(xs)| == |xs| * len
  {
    if |xs| > 0 {
      ConcatLength(xs[..|xs| - 1], len);
    }
  }

  /** Element c of part a sits at offset a * len + c of the concatenation. */
  lemma {:induction false} ConcatIndex<T>(xs: seq<seq<T>>, len: nat, a: nat, c: nat)
    requires forall k :: 0 <= k < |xs| ==> |xs[k]| == len
    requires a < |xs| && c < len
    ensures Flat2(a, c, len) < |Concat(xs)| && Concat(xs)[Flat2(a, c, len)] == xs[a][c]
  {
    var m := |xs| - 1;
    ConcatLength(xs, len);
    ConcatLength(xs[..m], len);
    FlatBound(a, c, |xs|, len);
    if a < m {
      ConcatIndex(xs[..m], len, a, c);
      FlatBound(a, c, m, len);
    }
  }

  lemma {:induction false} ConcatSameLength<S, T>(xs: seq<seq<S>>, ys: seq<seq<T>>)
    requires |xs| == |ys| && forall k :: 0 <= k < |xs| ==> |xs[k]| == |ys[k]|
    ensures |Concat(xs)| == |Concat(ys)|
  {
    if |xs| > 0 {
      ConcatSameLength(xs[..|xs| - 1], ys[..|ys| - 1]);
    }
  }

  /** Row-major flattening of a three-level nesting (numpy's `reshape(-1)`). */
  function Flatten3<T>(t: seq<seq<seq<T>>>): seq<T>
  {
    if |t| == 0 then [] else Flatten3(t[..|t| - 1]) + Concat(t[|t| - 1])
  }

  lemma {:induction false} Flatten3Length<T>(t: seq<seq<seq<T>>>, nb: nat, nc: nat)
    requires Is3(t, |t|, nb, nc)
    ensures |Flatten3(t)| == |t| * nb * nc
  {
    if |t| > 0 {
      var m := |t| - 1;
      Flatten3Length(t[..m], nb, nc);
      ConcatLength(t[m], nc);
      Succ3(m, nb, nc);
    }
  }

  /** Element (a, b, c) sits at the row-major index (a * nb + b) * nc + c. */
  lemma {:induction false} Flatten3Index<T>(t: seq<seq<seq<T>>>, nb: nat, nc: nat, a: nat, b: nat, c: nat)
    requires Is3(t, |t|, nb, nc)
    requires a < |t| && b < nb && c < nc
    ensures Flat3(a, b, c, nb, nc) < |Flatten3(t)|
    ensures Flatten3(t)[Flat3(a, b, c, nb, nc)] == t[a][b][c]
  {
    var m := |t| - 1;
    if a < m {
      Flatten3Index(t[..m], nb, nc, a, b, c);
    } else {
      Flatten3Length(t[..m], nb, nc);
      ConcatIndex(t[m], nc, b, c);
      Flat3Split(m, b, c, nb, nc);
    }
  }

  lemma {:induction false} ConcatRows<T>(xs: seq<seq<seq<T>>>, len: nat)
    requires forall a, b :: 0 <= a < |xs| && 0 <= b < |xs[a]| ==> |xs[a][b]| == len
    ensures forall k :: 0 <= k < |Concat(xs)| ==> |Concat(xs)[k]| == len
  {
    if |xs| > 0 {
      ConcatRows(xs[..|xs| - 1], len);
    }
  }

  /** Flattening a nest of rows of one length gives rows of that length. */
  lemma {:induction false} Flatten3Rows<T>(t: seq<seq<seq<seq<T>>>>, len: nat)
    requires forall a, b, c :: 0 <= a < |t| && 0 <= b < |t[a]| && 0 <= c < |t[a][b]| ==> |t[a][b][c]| == len
    ensures forall k :: 0 <= k < |Flatten3(t)| ==> |Flatten3(t)[k]| == len
  {
    if |t| > 0 {
      var m := |t| - 1;
      Flatten3Rows(t[..m], len);
      ConcatRows(t[m], len);
    }
  }

  /** Row-major reshape of a flat sequence to (na, nb, nc) (numpy's `reshape`). */
  function Unflatten3<T>(s: seq<T>, na: nat, nb: nat, nc: nat): (t: seq<seq<seq<T>>>)
    requires |s| == na * nb * nc
    ensures Is3(t, na, nb, nc)
  {
    seq(na, a requires 0 <= a < na =>
      seq(nb, b requires 0 <= b < nb =>
        seq(nc, c requires 0 <= c < nc =>
          Flat3Bound(a, b, c, na, nb, nc);
          s[Flat3(a, b, c, nb, nc)])))
  }

  /** Reshaping a flattened nest back to its own shape restores it. */
  lemma UnflattenFlatten3<T>(t: seq<seq<seq<T>>>, nb: nat, nc: nat)
    requires Is3(t, |t|, nb, nc)
    ensures |Flatten3(t)| == |t| * nb * nc
    ensures Unflatten3(Flatten3(t), |t|, nb, nc) == t
  {
    Flatten3Length(t, nb, nc);
    var u := Unflatten3(Flatten3(t), |t|, nb, nc);
    forall a, b, c | 0 <= a < |t| && 0 <= b < nb && 0 <= c < nc
      ensures u[a][b][c] == t[a][b][c]
    {
      Flatten3Index(t, nb, nc, a, b, c);
    }
    forall a | 0 <= a < |t| ensures u[a] == t[a] {
      forall b | 0 <= b < nb ensures u[a][b] == t[a][b] { }
    }
  }

  // ---------------------------------------------------------------------------
  // Products

  /** Entry o of a vector, or 0 past its end (keeps the sums below total). */
  function At(v: Vec, o: nat): real
  {
    if o < |v| then v[o] else 0.0
  }

  /** Entry (n, p, q, c) of a four-level nest, or 0 outside it. */
  function At4(t: Tensor4, n: nat, p: nat, q: nat, c: nat): real
  {
    if n < |t| && p < |t[n]| && q < |t[n][p]| && c < |t[n][p][q]| then t[n][p][q][c] else 0.0
  }

  /** Entrywise sum u + v. */
  function VecAdd(u: Vec, v: Vec): (r: Vec)
    requires |u| == |v|
    ensures |r| == |u|
  {
    seq(|u|, c requires 0 <= c < |u| => u[c] + v[c])
  }

  /** Inner product Σ_r x[r] * y[r]. */
  function Dot(x: Vec, y: Vec): real
    requires |x| == |y|
  {
    if |x| == 0 then 0.0 else Dot(x[..|x| - 1], y[..|y| - 1]) + x[|x| - 1] * y[|y| - 1]
  }

  /** Σ_r x[r] * B[r][o]: entry o of the row vector x times the matrix B. */
  function DotCol(x: Vec, B: Mat, o: nat): real
    requires |x| == |B|
  {
    if |x| == 0 then 0.0
    else DotCol(x[..|x| - 1], B[..|B| - 1], o) + x[|x| - 1] * At(B[|B| - 1], o)
  }

  /** Σ_r A[r][k] * B[r][o]: entry (k, o) of the product of A transposed with B. */
  function ColDot(A: Mat, k: nat, B: Mat, o: nat): real
    requires |A| == |B|
  {
    if |A| == 0 then 0.0
    else ColDot(A[..|A| - 1], k, B[..|B| - 1], o) + At(A[|A| - 1], k) * At(B[|B| - 1], o)
  }

  /** Matrix product A @ B, B having `cols` columns. */
  function MatMul(A: Mat, B: Mat, cols: nat): (r: Mat)
    requires forall i :: 0 <= i < |A| ==> |A[i]| == |B|
    ensures IsMat(r, |A|, cols)
  {
    seq(|A|, i requires 0 <= i < |A| => seq(cols, o requires 0 <= o < cols => DotCol(A[i], B, o)))
  }

  /** A.T @ B for an r-by-ka matrix A and an r-by-kb matrix B. */
  function TransposeTimes(A: Mat, B: Mat, ka: nat, kb: nat): (r: Mat)
    requires |A| == |B|
    ensures IsMat(r, ka, kb)
  {
    seq(ka, k requires 0 <= k < ka => seq(kb, o requires 0 <= o < kb => ColDot(A, k, B, o)))
  }

  /** x @ B.T for a row vector x: entry k is the inner product of x with row k of B. */
  function TimesTranspose(x: Vec, B: Mat): (r: Vec)
    requires forall k :: 0 <= k < |B| ==> |B[k]| == |x|
    ensures |r| == |B|
  {
    seq(|B|, k requires 0 <= k < |B| => Dot(x, B[k]))
  }

  lemma {:induction false} DotColAppend(x1: Vec, x2: Vec, B1: Mat, B2: Mat, o: nat)
    requires |x1| == |B1| && |x2| == |B2|
    ensures DotCol(x1 + x2, B1 + B2, o) == DotCol(x1, B1, o) + DotCol(x2, B2, o)
  {
    if |x2| == 0 {
      assert x1 + x2 == x1 && B1 + B2 == B1;
    } else {
      var m := |x2| - 1;
      assert (x1 + x2)[..|x1 + x2| - 1] == x1 + x2[..m];
      assert (B1 + B2)[..|B1 + B2| - 1] == B1 + B2[..m];
      DotColAppend(x1, x2[..m], B1, B2[..m], o);
    }
  }

  /** Σ_t DotCol(xs[t], Bs[t], o). */
  function SumDotCol(xs: seq<Vec>, Bs: seq<Mat>, o: nat): real
    requires |xs| == |Bs| && forall t :: 0 <= t < |xs| ==> |xs[t]| == |Bs[t]|
  {
    if |xs| == 0 then 0.0
    else SumDotCol(xs[..|xs| - 1], Bs[..|Bs| - 1], o) + DotCol(xs[|xs| - 1], Bs[|Bs| - 1], o)
  }

  /** A product over concatenated blocks is the sum of the blockwise products. */
  lemma {:induction false} DotColConcat(xs: seq<Vec>, Bs: seq<Mat>, o: nat)
    requires |xs| == |Bs| && forall t :: 0 <= t < |xs| ==> |xs[t]| == |Bs[t]|
    ensures |Concat(xs)| == |Concat(Bs)|
    ensures DotCol(Concat(xs), Concat(Bs), o) == SumDotCol(xs, Bs, o)
  {
    ConcatSameLength(xs, Bs);
    if |xs| > 0 {
      var m := |xs| - 1;
      DotColConcat(xs[..m], Bs[..m], o);
      DotColAppend(Concat(xs[..m]), xs[m], Concat(Bs[..m]), Bs[m], o);
    }
  }

  lemma {:induction false} ColDotAppend(A1: Mat, A2: Mat, k: nat, B1: Mat, B2: Mat, o: nat)
    requires |A1| == |B1| && |A2| == |B2|
    ensures ColDot(A1 + A2, k, B1 + B2, o) == ColDot(A1, k, B1, o) + ColDot(A2, k, B2, o)
  {
    if |A2| == 0 {
      assert A1 + A2 == A1 && B1 + B2 == B1;
    } else {
      var m := |A2| - 1;
      assert (A1 + A2)[..|A1 + A2| - 1] == A1 + A2[..m];
      assert (B1 + B2)[..|B1 + B2| - 1] == B1 + B2[..m];
      ColDotAppend(A1, A2[..m], k, B1, B2[..m], o);
    }
  }

  /** Σ_t ColDot(As[t], k, Bs[t], o). */
  function SumColDot(As: seq<Mat>, k: nat, Bs: seq<Mat>, o: nat): real
    requires |As| == |Bs| && forall t :: 0 <= t < |As| ==> |As[t]| == |Bs[t]|
  {
    if |As| == 0 then 0.0
    else SumColDot(As[..|As| - 1], k, Bs[..|Bs| - 1], o) + ColDot(As[|As| - 1], k, Bs[|Bs| - 1], o)
  }

  lemma {:induction false} ColDotConcat(As: seq<Mat>, k: nat, Bs: seq<Mat>, o: nat)
    requires |As| == |Bs| && forall t :: 0 <= t < |As| ==> |As[t]| == |Bs[t]|
    ensures |Concat(As)| == |Concat(Bs)|
    ensures ColDot(Concat(As), k, Concat(Bs), o) == SumColDot(As, k, Bs, o)
  {
    ConcatSameLength(As, Bs);
    if |As| > 0 {
      var m := |As| - 1;
      ColDotConcat(As[..m], k, Bs[..m], o);
      ColDotAppend(Concat(As[..m]), As[m], k, Concat(Bs[..m]), Bs[m], o);
    }
  }

  // ---------------------------------------------------------------------------
  // Plain sums, the reference the flattened products are compared against

  /** Σ_r v[r]. */
  function Sum1(v: seq<real>): real
  {
    if |v| == 0 then 0.0 else Sum1(v[..|v| - 1]) + v[|v| - 1]
  }

  /** Σ_a Σ_b m[a][b]. */
  function Sum2(m: seq<seq<real>>): real
  {
    if |m| == 0 then 0.0 else Sum2(m[..|m| - 1]) + Sum1(m[|m| - 1])
  }

  /** Σ_a Σ_b Σ_c t[a][b][c]. */
  function Sum3(t: seq<seq<seq<real>>>): real
  {
    if |t| == 0 then 0.0 else Sum3(t[..|t| - 1]) + Sum2(t[|t| - 1])
  }

  /** Summing one more entry of a prefix. */
  lemma Sum1PrefixStep(v: seq<real>, j: nat)
    requires 0 < j <= |v|
    ensures Sum1(v[..j]) == Sum1(v[..j - 1]) + v[j - 1]
  {
    assert v[..j][..j - 1] == v[..j - 1];
  }

  /** Summing one more row of a prefix. */
  lemma Sum2PrefixStep(m: seq<seq<real>>, i: nat)
    requires 0 < i <= |m|
    ensures Sum2(m[..i]) == Sum2(m[..i - 1]) + Sum1(m[i - 1])
  {
    assert m[..i][..i - 1] == m[..i - 1];
  }

  /** Two three-level nests whose parts have equal lengths on every level. */
  predicate SameShape3<S, U>(x: seq<seq<seq<S>>>, y: seq<seq<seq<U>>>)
  {
    && |x| == |y|
    && (forall a :: 0 <= a < |x| ==> |x[a]| == |y[a]|)
    && (forall a, b :: 0 <= a < |x| && 0 <= b < |x[a]| ==> |x[a][b]| == |y[a][b]|)
  }

  lemma SameShape3Prefix<S, U>(x: seq<seq<seq<S>>>, y: seq<seq<seq<U>>>, m: nat)
    requires SameShape3(x, y) && m <= |x|
    ensures SameShape3(x[..m], y[..m])
  {
  }

  lemma {:induction false} Flatten3SameLength<S, U>(x: seq<seq<seq<S>>>, y: seq<seq<seq<U>>>)
    requires SameShape3(x, y)
    ensures |Flatten3(x)| == |Flatten3(y)|
  {
    if |x| > 0 {
      var m := |x| - 1;
      Flatten3SameLength(x[..m], y[..m]);
      ConcatSameLength(x[m], y[m]);
    }
  }

  lemma {:induction false} DotColSum1(x: Vec, B: Mat, o: nat, v: seq<real>)
    requires |x| == |B| == |v|
    requires forall r :: 0 <= r < |v| ==> v[r] == x[r] * At(B[r], o)
    ensures DotCol(x, B, o) == Sum1(v)
  {
    if |x| > 0 {
      var m := |x| - 1;
      DotColSum1(x[..m], B[..m], o, v[..m]);
    }
  }

  lemma {:induction false} SumDotColSum2(xs: seq<Vec>, Bs: seq<Mat>, o: nat, M: seq<seq<real>>)
    requires |xs| == |Bs| == |M|
    requires forall t :: 0 <= t < |xs| ==> |xs[t]| == |Bs[t]| == |M[t]|
    requires forall t, r :: 0 <= t < |M| && 0 <= r < |M[t]| ==> M[t][r] == xs[t][r] * At(Bs[t][r], o)
    ensures SumDotCol(xs, Bs, o) == Sum2(M)
  {
    if |xs| > 0 {
      var m := |xs| - 1;
      SumDotColSum2(xs[..m], Bs[..m], o, M[..m]);
      DotColSum1(xs[m], Bs[m], o, M[m]);
    }
  }

  /** T[a][b][c] is the product A[a][b][c] * B[a][b][c][o]. */
  predicate DotColTerms(A: seq<seq<seq<real>>>, B: seq<seq<seq<Vec>>>, o: nat, T: seq<seq<seq<real>>>)
    requires SameShape3(A, B) && SameShape3(A, T)
  {
    forall a, b, c :: 0 <= a < |T| && 0 <= b < |T[a]| && 0 <= c < |T[a][b]| ==>
      T[a][b][c] == A[a][b][c] * At(B[a][b][c], o)
  }

  /** Peeling the last block off both flattened operands. */
  lemma DotColFlatten3Last(A: seq<seq<seq<real>>>, B: seq<seq<seq<Vec>>>, o: nat)
    requires SameShape3(A, B) && |A| > 0
    ensures |Flatten3(A[..|A| - 1])| == |Flatten3(B[..|B| - 1])|
    ensures |Flatten3(A)| == |Flatten3(B)|
    ensures DotCol(Flatten3(A), Flatten3(B), o)
         == DotCol(Flatten3(A[..|A| - 1]), Flatten3(B[..|B| - 1]), o) + SumDotCol(A[|A| - 1], B[|B| - 1], o)
  {
    var m := |A| - 1;
    SameShape3Prefix(A, B, m);
    Flatten3SameLength(A[..m], B[..m]);
    ConcatSameLength(A[m], B[m]);
    DotColAppend(Flatten3(A[..m]), Concat(A[m]), Flatten3(B[..m]), Concat(B[m]), o);
    DotColConcat(A[m], B[m], o);
  }

  lemma DotColTermsPrefix(A: seq<seq<seq<real>>>, B: seq<seq<seq<Vec>>>, o: nat, T: seq<seq<seq<real>>>, m: nat)
    requires SameShape3(A, B) && SameShape3(A, T) && DotColTerms(A, B, o, T) && m <= |A|
    ensures SameShape3(A[..m], B[..m]) && SameShape3(A[..m], T[..m])
    ensures DotColTerms(A[..m], B[..m], o, T[..m])
  {
    SameShape3Prefix(A, B, m);
    SameShape3Prefix(A, T, m);
    forall a, b, c | 0 <= a < m && 0 <= b < |T[a]| && 0 <= c < |T[a][b]|
      ensures T[..m][a][b][c] == A[..m][a][b][c] * At(B[..m][a][b][c], o)
    {
      assert T[..m][a] == T[a] && A[..m][a] == A[a] && B[..m][a] == B[a];
    }
  }

  lemma DotColTermsBlock(A: seq<seq<seq<real>>>, B: seq<seq<seq<Vec>>>, o: nat, T: seq<seq<seq<real>>>, a: nat)
    requires SameShape3(A, B) && SameShape3(A, T) && DotColTerms(A, B, o, T) && a < |A|
    ensures forall t, r :: 0 <= t < |T[a]| && 0 <= r < |T[a][t]| ==> T[a][t][r] == A[a][t][r] * At(B[a][t][r], o)
  {
  }

  /** The last block's share of DotColFlatten3: peeling block m off both sides. */
  lemma DotColFlatten3Step(A: seq<seq<seq<real>>>, B: seq<seq<seq<Vec>>>, o: nat, T: seq<seq<seq<real>>>)
    requires SameShape3(A, B) && SameShape3(A, T) && DotColTerms(A, B, o, T) && |A| > 0
    requires |Flatten3(A[..|A| - 1])| == |Flatten3(B[..|B| - 1])|
    requires DotCol(Flatten3(A[..|A| - 1]), Flatten3(B[..|B| - 1]), o) == Sum3(T[..|T| - 1])
    ensures |Flatten3(A)| == |Flatten3(B)|
    ensures DotCol(Flatten3(A), Flatten3(B), o) == Sum3(T)
  {
    var m := |A| - 1;
    DotColFlatten3Last(A, B, o);
    assert SumDotCol(A[m], B[m], o) == Sum2(T[m]) by {
      DotColTermsBlock(A, B, o, T, m);
      SumDotColSum2(A[m], B[m], o, T[m]);
    }
  }

  /** Row vector Flatten3(A) times the matrix Flatten3(B), column o, is the plain triple sum
      of the products A[a][b][c] * B[a][b][c][o]. */
  lemma {:induction false} DotColFlatten3(A: seq<seq<seq<real>>>, B: seq<seq<seq<Vec>>>, o: nat, T: seq<seq<seq<real>>>)
    requires SameShape3(A, B) && SameShape3(A, T) && DotColTerms(A, B, o, T)
    ensures |Flatten3(A)| == |Flatten3(B)|
    ensures DotCol(Flatten3(A), Flatten3(B), o) == Sum3(T)
  {
    Flatten3SameLength(A, B);
    if |A| > 0 {
      var m := |A| - 1;
      DotColTermsPrefix(A, B, o, T, m);
      DotColFlatten3(A[..m], B[..m], o, T[..m]);
      DotColFlatten3Step(A, B, o, T);
    }
  }

  lemma {:induction false} ColDotSum1(A: Mat, k: nat, B: Mat, o: nat, v: seq<real>)
    requires |A| == |B| == |v|
    requires forall r :: 0 <= r < |v| ==> v[r] == At(A[r], k) * At(B[r], o)
    ensures ColDot(A, k, B, o) == Sum1(v)
  {
    if |A| > 0 {
      var m := |A| - 1;
      ColDotSum1(A[..m], k, B[..m], o, v[..m]);
    }
  }

  lemma {:induction false} SumColDotSum2(As: seq<Mat>, k: nat, Bs: seq<Mat>, o: nat, M: seq<seq<real>>)
    requires |As| == |Bs| == |M|
    requires forall t :: 0 <= t < |As| ==> |As[t]| == |Bs[t]| == |M[t]|
    requires forall t, r :: 0 <= t < |M| && 0 <= r < |M[t]| ==> M[t][r] == At(As[t][r], k) * At(Bs[t][r], o)
    ensures SumColDot(As, k, Bs, o) == Sum2(M)
  {
    if |As| > 0 {
      var m := |As| - 1;
      SumColDotSum2(As[..m], k, Bs[..m], o, M[..m]);
      ColDotSum1(As[m], k, Bs[m], o, M[m]);
    }
  }

  /** T[a][b][c] is the product P[a][b][c][k] * G[a][b][c][o]. */
  predicate ColDotTerms(P: seq<seq<seq<Vec>>>, k: nat, G: seq<seq<seq<Vec>>>, o: nat, T: seq<seq<seq<real>>>)
    requires SameShape3(P, G) && SameShape3(P, T)
  {
    forall a, b, c :: 0 <= a < |T| && 0 <= b < |T[a]| && 0 <= c < |T[a][b]| ==>
      T[a][b][c] == At(P[a][b][c], k) * At(G[a][b][c], o)
  }

  /** Peeling the last block off both flattened operands. */
  lemma ColDotFlatten3Last(P: seq<seq<seq<Vec>>>, k: nat, G: seq<seq<seq<Vec>>>, o: nat)
    requires SameShape3(P, G) && |P| > 0
    ensures |Flatten3(P[..|P| - 1])| == |Flatten3(G[..|G| - 1])|
    ensures |Flatten3(P)| == |Flatten3(G)|
    ensures ColDot(Flatten3(P), k, Flatten3(G), o)
         == ColDot(Flatten3(P[..|P| - 1]), k, Flatten3(G[..|G| - 1]), o) + SumColDot(P[|P| - 1], k, G[|G| - 1], o)
  {
    var m := |P| - 1;
    SameShape3Prefix(P, G, m);
    Flatten3SameLength(P[..m], G[..m]);
    ConcatSameLength(P[m], G[m]);
    ColDotAppend(Flatten3(P[..m]), Concat(P[m]), k, Flatten3(G[..m]), Concat(G[m]), o);
    ColDotConcat(P[m], k, G[m], o);
  }

  lemma ColDotTermsPrefix(P: seq<seq<seq<Vec>>>, k: nat, G: seq<seq<seq<Vec>>>, o: nat, T: seq<seq<seq<real>>>, m: nat)
    requires SameShape3(P, G) && SameShape3(P, T) && ColDotTerms(P, k, G, o, T) && m <= |P|
    ensures SameShape3(P[..m], G[..m]) && SameShape3(P[..m], T[..m])
    ensures ColDotTerms(P[..m], k, G[..m], o, T[..m])
  {
    SameShape3Prefix(P, G, m);
    SameShape3Prefix(P, T, m);
    forall a, b, c | 0 <= a < m && 0 <= b < |T[a]| && 0 <= c < |T[a][b]|
      ensures T[..m][a][b][c] == At(P[..m][a][b][c], k) * At(G[..m][a][b][c], o)
    {
      assert T[..m][a] == T[a] && P[..m][a] == P[a] && G[..m][a] == G[a];
    }
  }

  lemma ColDotTermsBlock(P: seq<seq<seq<Vec>>>, k: nat, G: seq<seq<seq<Vec>>>, o: nat, T: seq<seq<seq<real>>>, a: nat)
    requires SameShape3(P, G) && SameShape3(P, T) && ColDotTerms(P, k, G, o, T) && a < |P|
    ensures forall t, r :: 0 <= t < |T[a]| && 0 <= r < |T[a][t]| ==> T[a][t][r] == At(P[a][t][r], k) * At(G[a][t][r], o)
  {
  }

  /** The last block's share of ColDotFlatten3: peeling block m off both sides. */
  lemma ColDotFlatten3Step(P: seq<seq<seq<Vec>>>, k: nat, G: seq<seq<seq<Vec>>>, o: nat, T: seq<seq<seq<real>>>)
    requires SameShape3(P, G) && SameShape3(P, T) && ColDotTerms(P, k, G, o, T) && |P| > 0
    requires |Flatten3(P[..|P| - 1])| == |Flatten3(G[..|G| - 1])|
    requires ColDot(Flatten3(P[..|P| - 1]), k, Flatten3(G[..|G| - 1]), o) == Sum3(T[..|T| - 1])
    ensures |Flatten3(P)| == |Flatten3(G)|
    ensures ColDot(Flatten3(P), k, Flatten3(G), o) == Sum3(T)
  {
    var m := |P| - 1;
    ColDotFlatten3Last(P, k, G, o);
    assert SumColDot(P[m], k, G[m], o) == Sum2(T[m]) by {
      ColDotTermsBlock(P, k, G, o, T, m);
      SumColDotSum2(P[m], k, G[m], o, T[m]);
    }
  }

  /** Entry (k, o) of Flatten3(P).T @ Flatten3(G) is the plain triple sum of the products
      P[a][b][c][k] * G[a][b][c][o]. */
  lemma {:induction false} ColDotFlatten3(P: seq<seq<seq<Vec>>>, k: nat, G: seq<seq<seq<Vec>>>, o: nat, T: seq<seq<seq<real>>>)
    requires SameShape3(P, G) && SameShape3(P, T) && ColDotTerms(P, k, G, o, T)
    ensures |Flatten3(P)| == |Flatten3(G)|
    ensures ColDot(Flatten3(P), k, Flatten3(G), o) == Sum3(T)
  {
    Flatten3SameLength(P, G);
    if |P| > 0 {
      var m := |P| - 1;
      ColDotTermsPrefix(P, k, G, o, T, m);
      ColDotFlatten3(P[..m], k, G[..m], o, T[..m]);
      ColDotFlatten3Step(P, k, G, o, T);
    }
  }

  /** Σ_r M[r][o]: column o of M summed over its rows (numpy's `sum(axis=0)`). */
  function ColSum(M: Mat, o: nat): real
  {
    if |M| == 0 then 0.0 else ColSum(M[..|M| - 1], o) + At(M[|M| - 1], o)
  }

  lemma {:induction false} ColSumAppend(M1: Mat, M2: Mat, o: nat)
    ensures ColSum(M1 + M2, o) == ColSum(M1, o) + ColSum(M2, o)
  {
    if |M2| == 0 {
      assert M1 + M2 == M1;
    } else {
      var m := |M2| - 1;
      assert (M1 + M2)[..|M1 + M2| - 1] == M1 + M2[..m];
      ColSumAppend(M1, M2[..m], o);
    }
  }

  lemma {:induction false} ColSumSum1(M: Mat, o: nat, v: seq<real>)
    requires |M| == |v| && forall r :: 0 <= r < |v| ==> v[r] == At(M[r], o)
    ensures ColSum(M, o) == Sum1(v)
  {
    if |M| > 0 {
      ColSumSum1(M[..|M| - 1], o, v[..|v| - 1]);
    }
  }

  lemma {:induction false} ColSumConcat(Ms: seq<Mat>, o: nat, S: seq<seq<real>>)
    requires |Ms| == |S| && forall t :: 0 <= t < |Ms| ==> |Ms[t]| == |S[t]|
    requires forall t, r :: 0 <= t < |S| && 0 <= r < |S[t]| ==> S[t][r] == At(Ms[t][r], o)
    ensures ColSum(Concat(Ms), o) == Sum2(S)
  {
    if |Ms| > 0 {
      var m := |Ms| - 1;
      ColSumAppend(Concat(Ms[..m]), Ms[m], o);
      ColSumConcat(Ms[..m], o, S[..m]);
      ColSumSum1(Ms[m], o, S[m]);
    }
  }

  /** Column o of Flatten3(G) summed over its rows is the plain triple sum of G[a][b][c][o]. */
  lemma {:induction false} ColSumFlatten3(G: seq<seq<seq<Vec>>>, o: nat, T: seq<seq<seq<real>>>)
    requires SameShape3(G, T)
    requires forall a, b, c :: 0 <= a < |T| && 0 <= b < |T[a]| && 0 <= c < |T[a][b]| ==>
      T[a][b][c] == At(G[a][b][c], o)
    ensures ColSum(Flatten3(G), o) == Sum3(T)
  {
    if |G| > 0 {
      var m := |G| - 1;
      SameShape3Prefix(G, T, m);
      ColSumAppend(Flatten3(G[..m]), Concat(G[m]), o);
      ColSumFlatten3(G[..m], o, T[..m]);
      ColSumConcat(G[m], o, T[m]);
    }
  }
}
