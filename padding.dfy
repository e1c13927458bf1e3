/** numpy's `np.pad` on the height and width axes of a batch of images, in the two
    fill modes the layers use ("edge" replication and "constant" zeros), and the
    slice that cuts the padding off again. */
module Padding {
  import opened Tensors

  /** Pixels added on each side: the list [top, bottom, left, right] of layers.py. */
  datatype Pad4 = Pad4(top: nat, bottom: nat, left: nat, right: nat)

  /** Nearest index in [0, n): where "edge" padding reads its value from. */
  function Clamp(x: int, n: nat): (r: nat)
    requires n >= 1
    ensures r < n
    ensures 0 <= x < n ==> r == x
  {
    if x < 0 then 0 else if x >= n then n - 1 else x
  }

  /** `np.pad(x, ((0,0), (top,bottom), (left,right), (0,0)), mode="edge")`. */
  function EdgePad(x: Tensor4, p: Pad4, n: nat, h: nat, w: nat, c: nat): (r: Tensor4)
    requires Is4(x, n, h, w, c) && h >= 1 && w >= 1
    ensures Is4(r, n, h + p.top + p.bottom, w + p.left + p.right, c)
    ensures forall i, y, z :: 0 <= i < n && 0 <= y < h + p.top + p.bottom && 0 <= z < w + p.left + p.right ==>
      r[i][y][z] == x[i][Clamp(y - p.top, h)][Clamp(z - p.left, w)]
  {
    var r := seq(n, i requires 0 <= i < n =>
      seq(h + p.top + p.bottom, y =>
        seq(w + p.left + p.right, z => x[i][Clamp(y - p.top, h)][Clamp(z - p.left, w)])));
    assert forall i, y, z :: 0 <= i < n && 0 <= y < h + p.top + p.bottom && 0 <= z < w + p.left + p.right ==>
      |r[i][y][z]| == c by {
      forall i, y, z | 0 <= i < n && 0 <= y < h + p.top + p.bottom && 0 <= z < w + p.left + p.right
        ensures |r[i][y][z]| == c
      {
        var a, b := Clamp(y - p.top, h), Clamp(z - p.left, w);
        assert r[i][y][z] == x[i][a][b];
        assert Is3(x[i], h, w, c);
        assert IsMat(x[i][a], w, c);
      }
    }
    r
  }

  /** `np.pad(x, ((0,0), (top,bottom), (left,right), (0,0)), mode="constant")`. */
  function ZeroPad(x: Tensor4, p: Pad4, n: nat, h: nat, w: nat, c: nat): (r: Tensor4)
    requires Is4(x, n, h, w, c)
    ensures Is4(r, n, h + p.top + p.bottom, w + p.left + p.right, c)
    ensures forall i, y, z :: 0 <= i < n && 0 <= y < h + p.top + p.bottom && 0 <= z < w + p.left + p.right ==>
      r[i][y][z] == if p.top <= y < p.top + h && p.left <= z < p.left + w then x[i][y - p.top][z - p.left]
                    else seq(c, _ => 0.0)
  {
    seq(n, i requires 0 <= i < n =>
      seq(h + p.top + p.bottom, y =>
        seq(w + p.left + p.right, z =>
          if p.top <= y < p.top + h && p.left <= z < p.left + w then x[i][y - p.top][z - p.left]
          else seq(c, _ => 0.0))))
  }

  /** `t[:, top:hp-bottom, left:wp-right, :]`. */
  function Crop(t: Tensor4, p: Pad4, n: nat, hp: nat, wp: nat, c: nat): (r: Tensor4)
    requires Is4(t, n, hp, wp, c) && p.top + p.bottom <= hp && p.left + p.right <= wp
    ensures Is4(r, n, hp - p.top - p.bottom, wp - p.left - p.right, c)
  {
    seq(n, i requires 0 <= i < n =>
      seq(hp - p.top - p.bottom, y requires 0 <= y < hp - p.top - p.bottom =>
        t[i][y + p.top][p.left .. wp - p.right]))
  }

  /** One entry of the cropped batch. */
  lemma CropAt(t: Tensor4, p: Pad4, n: nat, hp: nat, wp: nat, c: nat, i: nat, y: nat, z: nat, k: nat)
    requires Is4(t, n, hp, wp, c) && p.top + p.bottom <= hp && p.left + p.right <= wp
    requires i < n && y < hp - p.top - p.bottom && z < wp - p.left - p.right && k < c
    ensures Crop(t, p, n, hp, wp, c)[i][y][z][k] == At4(t, i, y + p.top, z + p.left, k)
  {
    assert Is3(t[i], hp, wp, c) && IsMat(t[i][y + p.top], wp, c);
  }

  /** Cutting the padding off an edge-padded batch gives the batch back. */
  lemma CropEdgePad(x: Tensor4, p: Pad4, n: nat, h: nat, w: nat, c: nat)
    requires Is4(x, n, h, w, c) && h >= 1 && w >= 1
    ensures Crop(EdgePad(x, p, n, h, w, c), p, n, h + p.top + p.bottom, w + p.left + p.right, c) == x
  {
    var r := Crop(EdgePad(x, p, n, h, w, c), p, n, h + p.top + p.bottom, w + p.left + p.right, c);
    forall i | 0 <= i < n ensures r[i] == x[i] {
      forall y | 0 <= y < h ensures r[i][y] == x[i][y] {
        forall z | 0 <= z < w ensures r[i][y][z] == x[i][y][z] { }
      }
    }
  }

  /** Cutting the padding off a zero-padded batch gives the batch back. */
  lemma CropZeroPad(x: Tensor4, p: Pad4, n: nat, h: nat, w: nat, c: nat)
    requires Is4(x, n, h, w, c)
    ensures Crop(ZeroPad(x, p, n, h, w, c), p, n, h + p.top + p.bottom, w + p.left + p.right, c) == x
  {
    var r := Crop(ZeroPad(x, p, n, h, w, c), p, n, h + p.top + p.bottom, w + p.left + p.right, c);
    forall i | 0 <= i < n ensures r[i] == x[i] {
      forall y | 0 <= y < h ensures r[i][y] == x[i][y] { }
    }
  }

  /** Edge padding repeats the nearest border pixel: a padded pixel equals the padded
      pixel straight across on the nearest row and column of the original image. */
  lemma EdgePadReplicates(x: Tensor4, p: Pad4, n: nat, h: nat, w: nat, c: nat, i: nat, y: nat, z: nat)
    requires Is4(x, n, h, w, c) && h >= 1 && w >= 1
    requires i < n && y < h + p.top + p.bottom && z < w + p.left + p.right
    ensures var e := EdgePad(x, p, n, h, w, c);
      && (y < p.top ==> e[i][y][z] == e[i][p.top][z])
      && (y >= p.top + h ==> e[i][y][z] == e[i][p.top + h - 1][z])
      && (z < p.left ==> e[i][y][z] == e[i][y][p.left])
      && (z >= p.left + w ==> e[i][y][z] == e[i][y][p.left + w - 1])
  {
  }

  /** Zero padding puts zeros everywhere outside the original image. */
  lemma ZeroPadBorder(x: Tensor4, p: Pad4, n: nat, h: nat, w: nat, c: nat, i: nat, y: nat, z: nat, k: nat)
    requires Is4(x, n, h, w, c)
    requires i < n && y < h + p.top + p.bottom && z < w + p.left + p.right && k < c
    requires !(p.top <= y < p.top + h && p.left <= z < p.left + w)
    ensures ZeroPad(x, p, n, h, w, c)[i][y][z][k] == 0.0
  {
  }
}
