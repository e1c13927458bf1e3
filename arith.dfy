/** Facts about natural-number multiplication, division and remainder that the
    row-major index arithmetic of the layers needs. */
module Arith {

  /** Row-major offset of entry c of row a, rows having len entries. */
  function Flat2(a: nat, c: nat, len: nat): nat
  {
    a * len + c
  }

  /** Row-major offset of entry (a, b, c) of a grid whose last two axes have nb and nc
      entries. */
  function Flat3(a: nat, b: nat, c: nat, nb: nat, nc: nat): nat
  {
    (a * nb + b) * nc + c
  }

  lemma MulMono(a: nat, b: nat, m: nat)
    requires a <= b
    ensures a * m <= b * m
  {
    var d := b - a;
    assert b * m == a * m + d * m;
  }

  /** Row-major index (a, c) of an A-by-L grid lies inside the flattened grid. */
  lemma FlatBound(a: nat, c: nat, rows: nat, len: nat)
    requires a < rows && c < len
    ensures Flat2(a, c, len) < rows * len
  {
    MulMono(a + 1, rows, len);
    assert (a + 1) * len == a * len + len;
  }

  /** The flat index a * len + c decomposes back into (a, c). */
  lemma DivModFlat(a: nat, c: nat, len: nat)
    requires c < len
    ensures Flat2(a, c, len) / len == a && Flat2(a, c, len) % len == c
  {
    var x := a * len + c;
    var q, r := x / len, x % len;
    assert x == q * len + r;
    MulMonoBelow(a, q, len);
    MulMonoBelow(q, a, len);
  }

  lemma MulMonoBelow(a: nat, b: nat, m: nat)
    ensures a < b ==> a * m + m <= b * m
  {
    if a < b {
      MulMono(a + 1, b, m);
      assert (a + 1) * m == a * m + m;
    }
  }

  /** Row-major three-level index (a, b, c) of an A-by-B-by-C grid. */
  lemma Flat3Bound(a: nat, b: nat, c: nat, na: nat, nb: nat, nc: nat)
    requires a < na && b < nb && c < nc
    ensures Flat3(a, b, c, nb, nc) < na * nb * nc
  {
    FlatBound(a, b, na, nb);
    FlatBound(Flat2(a, b, nb), c, na * nb, nc);
  }

  /** The positions i * s (i a natural) that satisfy i * s <= m are exactly those with
      i < m / s + 1: the number of elements of Python's range(0, m + 1, s). */
  lemma StepsBelow(i: nat, m: nat, s: nat)
    requires s >= 1
    ensures i * s <= m <==> i < m / s + 1
  {
    var q, r := m / s, m % s;
    assert m == q * s + r;
    if i <= q {
      MulMono(i, q, s);
    } else {
      MulMono(q + 1, i, s);
      assert (q + 1) * s == q * s + s;
    }
  }

  /** When s divides m, the positions i * s < m are those with i < m / s: the number of
      elements of Python's range(0, m, s). */
  lemma StepsStrictlyBelow(i: nat, m: nat, s: nat)
    requires s >= 1 && m % s == 0
    ensures i * s < m <==> i < m / s
  {
    var q := m / s;
    assert m == q * s;
    if i < q {
      MulMono(i + 1, q, s);
      assert (i + 1) * s == i * s + s;
    } else {
      MulMono(q, i, s);
    }
  }

  /** One more row of nb * nc entries. */
  lemma Succ3(m: nat, nb: nat, nc: nat)
    ensures (m + 1) * nb * nc == m * nb * nc + nb * nc
  {
    assert (m + 1) * nb == m * nb + nb;
    assert (m * nb + nb) * nc == m * nb * nc + nb * nc;
  }

  /** The row-major index of (m, b, c) is the start of block m plus the offset of (b, c). */
  lemma Flat3Split(m: nat, b: nat, c: nat, nb: nat, nc: nat)
    ensures Flat3(m, b, c, nb, nc) == m * nb * nc + Flat2(b, c, nc)
  {
    assert (m * nb + b) * nc == m * nb * nc + b * nc;
  }

  /** ceil(n / s). */
  function CeilDiv(n: nat, s: nat): nat
    requires s >= 1
  {
    (n + s - 1) / s
  }

  /** The row k / b of a flat index k below a * b is below a. */
  lemma DivBound(k: nat, a: nat, b: nat)
    requires b >= 1 && k < a * b
    ensures k / b < a
  {
    var q, r := k / b, k % b;
    assert k == q * b + r;
    if q >= a {
      MulMono(a, q, b);
    }
  }

  /** With s dividing m, the cell x < m lies in one of the m / s stretches of s cells. */
  lemma DivBelow(x: nat, m: nat, s: nat)
    requires s >= 1 && m % s == 0 && x < m
    ensures x / s < m / s
  {
    var q, r := x / s, x % s;
    assert x == q * s + r;
    StepsStrictlyBelow(q, m, s);
  }

  /** With s dividing m, a window of k <= s cells placed at i * s, i < m / s, ends inside
      [0, m). */
  lemma TileFits(i: nat, m: nat, s: nat, k: nat)
    requires s >= 1 && m % s == 0 && i < m / s && k <= s
    ensures i * s + k <= m
  {
    var q := m / s;
    assert m == q * s;
    MulMono(i + 1, q, s);
    assert (i + 1) * s == i * s + s;
  }

  /** Windows of k <= s cells placed every s cells: x lies in the window at i * s exactly
      when i is x / s and the offset x % s is below k. */
  lemma WindowOf(x: nat, i: nat, s: nat, k: nat)
    requires s >= 1 && k <= s
    ensures i * s <= x < i * s + k <==> x / s == i && x % s < k
  {
    var q, r := x / s, x % s;
    assert x == q * s + r;
    if i * s <= x < i * s + k {
      DivModFlat(i, x - i * s, s);
    }
  }

  /** A flat index below h * w is the row-major index of a cell of the h-by-w grid. */
  lemma Unflat(k: nat, h: nat, w: nat) returns (a: nat, b: nat)
    requires w >= 1 && k < h * w
    ensures a < h && b < w && k == Flat2(a, b, w)
    ensures a == k / w && b == k % w
  {
    DivBound(k, h, w);
    a, b := k / w, k % w;
  }

  /** Quotient and remainder of x by s, as naturals. */
  lemma DivMod(x: nat, s: nat) returns (q: nat, r: nat)
    requires s >= 1
    ensures q == x / s && r == x % s && r < s && x == Flat2(q, r, s)
  {
    q, r := x / s, x % s;
  }

  /** The block of s cells that cell x falls in. */
  function BlockIndex(x: nat, s: nat): nat
    requires s >= 1
  {
    x / s
  }

  /** The position of cell x inside its block of s cells. */
  function BlockOffset(x: nat, s: nat): (r: nat)
    requires s >= 1
    ensures r < s
  {
    x % s
  }

  /** The entry past the end of row a is the start of row a + 1. */
  lemma NextRow(a: nat, len: nat)
    ensures Flat2(a, len, len) == Flat2(a + 1, 0, len)
  {
    assert (a + 1) * len == a * len + len;
  }
}
