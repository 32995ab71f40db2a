/** Four-dimensional tensors, indexed [batch][seq][row][column] as the
    layer uses them, and their flattened views. A tensor is a nested
    sequence; its shape is a separate value, and `Shaped4` says that the
    nesting has that shape. */
module Tensors {
  import opened Linalg

  datatype Shape4 = Shape4(d0: nat, d1: nat, d2: nat, d3: nat)

  type Tensor3 = seq<seq<Vec>>
  type Tensor4 = seq<seq<Mat>>

  /** The i-th dimension, as `shape_[i]`. */
  function Dim(s: Shape4, i: nat): nat
    requires i < 4
  {
    if i == 0 then s.d0 else if i == 1 then s.d1 else if i == 2 then s.d2 else s.d3
  }

  /** The product of the dimensions `lo` up to (not including) `hi`,
      multiplied in from the left as the `ymax` loops do. */
  function DimProduct(s: Shape4, lo: nat, hi: nat): nat
    requires lo <= hi <= 4
    decreases hi - lo
  {
    if lo == hi then 1 else DimProduct(s, lo, hi - 1) * Dim(s, hi - 1)
  }

  /** The number of entries of a tensor of shape `s`. */
  function Size(s: Shape4): nat {
    s.d0 * (s.d1 * (s.d2 * s.d3))
  }

  predicate Shaped3(t: Tensor3, d0: nat, d1: nat, d2: nat) {
    |t| == d0 && forall i :: 0 <= i < d0 ==>
      |t[i]| == d1 && forall j :: 0 <= j < d1 ==> |t[i][j]| == d2
  }

  predicate Shaped4(t: Tensor4, s: Shape4) {
    |t| == s.d0 && forall i :: 0 <= i < s.d0 ==>
      |t[i]| == s.d1 && forall j :: 0 <= j < s.d1 ==> IsMat(t[i][j], s.d2, s.d3)
  }

  function Zeros4(s: Shape4): (z: Tensor4)
    ensures Shaped4(z, s)
  {
    seq(s.d0, i => seq(s.d1, j => ZeroMat(s.d2, s.d3)))
  }

  /** Every entry of `t` is zero. */
  predicate AllZero4(t: Tensor4) {
    forall i, j, k :: 0 <= i < |t| && 0 <= j < |t[i]| && 0 <= k < |t[i][j]| ==> AllZero(t[i][j][k])
  }

  lemma Zeros4AllZero(s: Shape4)
    ensures AllZero4(Zeros4(s))
  {
  }

  /** `t` with the (batch, seq) plane at `(b, s)` replaced by `m`. */
  function SetPlane(t: Tensor4, b: nat, s: nat, m: Mat): (r: Tensor4)
    requires b < |t| && s < |t[b]|
    ensures |r| == |t| && forall i :: 0 <= i < |t| ==> |r[i]| == |t[i]|
  {
    t[b := t[b][s := m]]
  }

  /** Replacing a plane by one of the plane shape keeps the tensor's
      shape and changes that plane only. */
  lemma SetPlaneShaped(t: Tensor4, sh: Shape4, b: nat, s: nat, m: Mat)
    requires Shaped4(t, sh) && b < sh.d0 && s < sh.d1 && IsMat(m, sh.d2, sh.d3)
    ensures Shaped4(SetPlane(t, b, s, m), sh)
    ensures forall i, j :: 0 <= i < sh.d0 && 0 <= j < sh.d1 ==>
      SetPlane(t, b, s, m)[i][j] == if i == b && j == s then m else t[i][j]
  {
  }

  /** The rows of `rows` over the leading rows of `base`: the result of
      writing a `Slice(0, len)` with `len == |rows|` back into `base`. */
  function Overlay(base: Mat, rows: Mat): (r: Mat)
    requires |rows| <= |base|
    ensures |r| == |base|
    ensures forall k :: 0 <= k < |rows| ==> r[k] == rows[k]
    ensures forall k :: |rows| <= k < |base| ==> r[k] == base[k]
  {
    rows + base[|rows|..]
  }

  // ---------------------------------------------------------------------
  // Flattened views

  /** The rows of `s` laid end to end. */
  function Concat<T>(s: seq<seq<T>>): seq<T>
    decreases |s|
  {
    if |s| == 0 then [] else Concat(s[..|s| - 1]) + s[|s| - 1]
  }

  predicate Uniform<T>(s: seq<seq<T>>, cols: nat) {
    forall i :: 0 <= i < |s| ==> |s[i]| == cols
  }

  lemma {:induction false} ConcatLength<T>(s: seq<seq<T>>, cols: nat)
    requires Uniform(s, cols)
    ensures |Concat(s)| == |s| * cols
    decreases |s|
  {
    if |s| > 0 {
      var n := |s| - 1;
      assert Uniform(s[..n], cols) by {
        forall i | 0 <= i < n ensures |s[..n][i]| == cols {
          assert s[..n][i] == s[i];
        }
      }
      ConcatLength(s[..n], cols);
      assert |s| * cols == n * cols + cols;
    }
  }

  /** Row-major layout: entry `j` of row `i` sits at `i * cols + j`. */
  lemma {:induction false} ConcatIndex<T>(s: seq<seq<T>>, cols: nat, i: nat, j: nat)
    requires Uniform(s, cols) && i < |s| && j < cols
    ensures |Concat(s)| == |s| * cols
    ensures i * cols + j < |s| * cols && Concat(s)[i * cols + j] == s[i][j]
    decreases |s|
  {
    var n := |s| - 1;
    assert Uniform(s[..n], cols) by {
      forall k | 0 <= k < n ensures |s[..n][k]| == cols {
        assert s[..n][k] == s[k];
      }
    }
    ConcatLength(s, cols);
    ConcatLength(s[..n], cols);
    assert |s| * cols == n * cols + cols;
    if i < n {
      ConcatIndex(s[..n], cols, i, j);
      assert i * cols + j < n * cols by {
        assert i * cols <= (n - 1) * cols;
      }
      assert s[..n][i] == s[i];
    } else {
      assert Concat(s) == Concat(s[..n]) + s[n];
    }
  }

  /** `data_d3`: each (batch, seq) plane laid out as one row. */
  function FlattenPlanes(t: Tensor4): (r: Tensor3)
    ensures |r| == |t| && forall i :: 0 <= i < |t| ==> |r[i]| == |t[i]|
  {
    seq(|t|, i requires 0 <= i < |t| => seq(|t[i]|, j requires 0 <= j < |t[i]| => Concat(t[i][j])))
  }

  /** Each batch entry laid out as one row. */
  function FlattenBatches(t: Tensor4): (r: Mat)
    ensures |r| == |t|
  {
    seq(|t|, i requires 0 <= i < |t| => Concat(FlattenPlanes(t)[i]))
  }

  /** `data_d1`: the whole tensor laid out as one row. */
  function Flatten(t: Tensor4): Vec {
    Concat(FlattenBatches(t))
  }

  lemma FlattenPlanesShape(t: Tensor4, s: Shape4)
    requires Shaped4(t, s)
    ensures Shaped3(FlattenPlanes(t), s.d0, s.d1, s.d2 * s.d3)
  {
    forall i, j | 0 <= i < s.d0 && 0 <= j < s.d1
      ensures |FlattenPlanes(t)[i][j]| == s.d2 * s.d3
    {
      ConcatLength(t[i][j], s.d3);
    }
  }

  /** Entry (k, l) of plane (i, j) sits at `k * d3 + l` of the flattened
      plane. */
  lemma FlattenPlanesIndex(t: Tensor4, s: Shape4, i: nat, j: nat, k: nat, l: nat)
    requires Shaped4(t, s) && i < s.d0 && j < s.d1 && k < s.d2 && l < s.d3
    ensures k * s.d3 + l < |FlattenPlanes(t)[i][j]|
    ensures FlattenPlanes(t)[i][j][k * s.d3 + l] == t[i][j][k][l]
  {
    ConcatIndex(t[i][j], s.d3, k, l);
  }

  lemma FlattenBatchesUniform(t: Tensor4, s: Shape4)
    requires Shaped4(t, s)
    ensures Uniform(FlattenBatches(t), s.d1 * (s.d2 * s.d3))
  {
    FlattenPlanesShape(t, s);
    forall i | 0 <= i < s.d0 ensures |FlattenBatches(t)[i]| == s.d1 * (s.d2 * s.d3) {
      ConcatLength(FlattenPlanes(t)[i], s.d2 * s.d3);
    }
  }

  lemma FlattenBatchesIndex(t: Tensor4, s: Shape4, i: nat, j: nat, k: nat, l: nat)
    requires Shaped4(t, s) && i < s.d0 && j < s.d1 && k < s.d2 && l < s.d3
    ensures |FlattenBatches(t)[i]| == s.d1 * (s.d2 * s.d3)
    ensures var n := j * (s.d2 * s.d3) + (k * s.d3 + l);
      n < s.d1 * (s.d2 * s.d3) && FlattenBatches(t)[i][n] == t[i][j][k][l]
  {
    var p := FlattenPlanes(t);
    FlattenPlanesShape(t, s);
    FlattenPlanesIndex(t, s, i, j, k, l);
    ConcatIndex(p[i], s.d2 * s.d3, j, k * s.d3 + l);
  }

  lemma FlattenLength(t: Tensor4, s: Shape4)
    requires Shaped4(t, s)
    ensures |Flatten(t)| == Size(s)
  {
    FlattenBatchesUniform(t, s);
    ConcatLength(FlattenBatches(t), s.d1 * (s.d2 * s.d3));
  }

  /** The row-major offset of entry (i, j, k, l) in a tensor of shape `s`. */
  function Offset(s: Shape4, i: nat, j: nat, k: nat, l: nat): nat {
    i * (s.d1 * (s.d2 * s.d3)) + (j * (s.d2 * s.d3) + (k * s.d3 + l))
  }

  /** Row-major layout of the whole tensor: entry (i, j, k, l) of `t` is
      entry `Offset(s, i, j, k, l)` of its flattening. */
  lemma FlattenIndex(t: Tensor4, s: Shape4, i: nat, j: nat, k: nat, l: nat)
    requires Shaped4(t, s) && i < s.d0 && j < s.d1 && k < s.d2 && l < s.d3
    ensures Offset(s, i, j, k, l) < |Flatten(t)| && Flatten(t)[Offset(s, i, j, k, l)] == t[i][j][k][l]
  {
    var block := s.d1 * (s.d2 * s.d3);
    var inBlock := j * (s.d2 * s.d3) + (k * s.d3 + l);
    FlattenBatchesUniform(t, s);
    FlattenBatchesIndex(t, s, i, j, k, l);
    ConcatIndex(FlattenBatches(t), block, i, inBlock);
    assert Offset(s, i, j, k, l) == i * block + inBlock;
  }
}
