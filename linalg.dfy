/** Linear algebra on vectors: scaling, entrywise products, and the bilinearity and
    symmetry of the inner product Dot. */
module LinAlg {
  import opened Tensors

  /** c * v entrywise. */
  function Scale(c: real, v: Vec): (r: Vec)
    ensures |r| == |v|
  {
    seq(|v|, i requires 0 <= i < |v| => c * v[i])
  }

  lemma {:induction false} DotComm(x: Vec, y: Vec)
    requires |x| == |y|
    ensures Dot(x, y) == Dot(y, x)
  {
    if |x| > 0 {
      DotComm(x[..|x| - 1], y[..|y| - 1]);
    }
  }

  lemma {:induction false} DotAddRight(g: Vec, a: Vec, b: Vec)
    requires |g| == |a| == |b|
    ensures Dot(g, VecAdd(a, b)) == Dot(g, a) + Dot(g, b)
  {
    if |g| > 0 {
      var m := |g| - 1;
      assert VecAdd(a, b)[..m] == VecAdd(a[..m], b[..m]);
      DotAddRight(g[..m], a[..m], b[..m]);
    }
  }

  lemma {:induction false} DotScaleRight(g: Vec, c: real, v: Vec)
    requires |g| == |v|
    ensures Dot(g, Scale(c, v)) == c * Dot(g, v)
  {
    if |g| > 0 {
      var m := |g| - 1;
      assert forall i :: 0 <= i < m ==> Scale(c, v)[..m][i] == Scale(c, v[..m])[i];
      assert Scale(c, v)[..m] == Scale(c, v[..m]);
      DotScaleRight(g[..m], c, v[..m]);
    }
  }

  lemma {:induction false} DotZeroRight(g: Vec, z: Vec)
    requires |g| == |z| && forall i :: 0 <= i < |z| ==> z[i] == 0.0
    ensures Dot(g, z) == 0.0
  {
    if |g| > 0 {
      DotZeroRight(g[..|g| - 1], z[..|z| - 1]);
    }
  }

  lemma DotAddLeft(a: Vec, b: Vec, g: Vec)
    requires |g| == |a| == |b|
    ensures Dot(VecAdd(a, b), g) == Dot(a, g) + Dot(b, g)
  {
    DotComm(VecAdd(a, b), g);
    DotComm(a, g);
    DotComm(b, g);
    DotAddRight(g, a, b);
  }

  /** The entrywise (Hadamard) product, numpy's `*` on arrays of one shape. */
  function Hadamard(u: Vec, v: Vec): (r: Vec)
    requires |u| == |v|
    ensures |r| == |u|
  {
    seq(|u|, i requires 0 <= i < |u| => u[i] * v[i])
  }

  /** g · (d ⊙ v) == (d ⊙ g) · v. */
  lemma {:induction false} DotHadamard(g: Vec, d: Vec, v: Vec)
    requires |g| == |d| == |v|
    ensures Dot(g, Hadamard(d, v)) == Dot(Hadamard(d, g), v)
  {
    if |g| > 0 {
      var m := |g| - 1;
      assert forall i :: 0 <= i < m ==> Hadamard(d, v)[..m][i] == Hadamard(d[..m], v[..m])[i];
      assert forall i :: 0 <= i < m ==> Hadamard(d, g)[..m][i] == Hadamard(d[..m], g[..m])[i];
      assert Hadamard(d, v)[..m] == Hadamard(d[..m], v[..m]);
      assert Hadamard(d, g)[..m] == Hadamard(d[..m], g[..m]);
      DotHadamard(g[..m], d[..m], v[..m]);
    }
  }
}
