/** Row vectors and matrices over `real`, standing in for the 2-D tensor
    expressions the layer builds (`dot`, `+`, elementwise `*`, `1 - z`).
    Every operation is total: an entry read beyond the end of a vector is
    0.0, and the length of a result is fixed by its first operand (or by an
    explicit column count), so shape mismatches never make an expression
    undefined; lemmas state the shape facts they need. */
module Linalg {

  type Vec = seq<real>
  type Mat = seq<Vec>

  /** Entry `i` of `v`, or 0.0 outside of `v`. */
  function At(v: Vec, i: int): real {
    if 0 <= i < |v| then v[i] else 0.0
  }

  /** Row `i` of `m`, or the empty row outside of `m`. */
  function Row(m: Mat, i: int): Vec {
    if 0 <= i < |m| then m[i] else []
  }

  function Zeros(n: nat): (z: Vec)
    ensures |z| == n
  {
    seq(n, i => 0.0)
  }

  function ZeroMat(rows: nat, cols: nat): (z: Mat)
    ensures |z| == rows
  {
    seq(rows, i => Zeros(cols))
  }

  /** `m` has `rows` rows of `cols` entries each. */
  predicate IsMat(m: Mat, rows: nat, cols: nat) {
    |m| == rows && forall i :: 0 <= i < rows ==> |m[i]| == cols
  }

  predicate AllZero(v: Vec) {
    forall i :: 0 <= i < |v| ==> v[i] == 0.0
  }

  function VAdd(a: Vec, b: Vec): (r: Vec)
    ensures |r| == |a|
  {
    seq(|a|, i requires 0 <= i < |a| => a[i] + At(b, i))
  }

  function VSub(a: Vec, b: Vec): (r: Vec)
    ensures |r| == |a|
  {
    seq(|a|, i requires 0 <= i < |a| => a[i] - At(b, i))
  }

  /** Elementwise product `a * b`. */
  function VMul(a: Vec, b: Vec): (r: Vec)
    ensures |r| == |a|
  {
    seq(|a|, i requires 0 <= i < |a| => a[i] * At(b, i))
  }

  function VScale(k: real, a: Vec): (r: Vec)
    ensures |r| == |a|
  {
    seq(|a|, i requires 0 <= i < |a| => k * a[i])
  }

  /** `1 - a`, elementwise. */
  function OneMinus(a: Vec): (r: Vec)
    ensures |r| == |a|
  {
    seq(|a|, i requires 0 <= i < |a| => 1.0 - a[i])
  }

  /** An elementwise operator `F<op>(a)`. */
  function VMap(f: real -> real, a: Vec): (r: Vec)
    ensures |r| == |a|
  {
    seq(|a|, i requires 0 <= i < |a| => f(a[i]))
  }

  /** Sum over the entries of `a` of `a[i] * b[i]`. */
  function Dot(a: Vec, b: Vec): real
    decreases |a|
  {
    if |a| == 0 then 0.0 else Dot(a[..|a| - 1], b) + a[|a| - 1] * At(b, |a| - 1)
  }

  /** Column `j` of `m`. */
  function Col(m: Mat, j: int): (r: Vec)
    ensures |r| == |m|
  {
    seq(|m|, i requires 0 <= i < |m| => At(m[i], j))
  }

  /** The 1 x `cols` product `dot(x, m)` of a row vector and a matrix. */
  function VecMat(x: Vec, m: Mat, cols: nat): (r: Vec)
    ensures |r| == cols
  {
    seq(cols, j => Dot(x, Col(m, j)))
  }

  /** The product `dot(v, m.T())`: one entry per row of `m`. */
  function VecMatT(v: Vec, m: Mat): (r: Vec)
    ensures |r| == |m|
  {
    seq(|m|, i requires 0 <= i < |m| => Dot(v, m[i]))
  }

  /** The product `dot(x.T(), v)` of a column and a row: `|x|` x `|v|`. */
  function Outer(x: Vec, v: Vec): (r: Mat)
    ensures IsMat(r, |x|, |v|)
  {
    seq(|x|, i requires 0 <= i < |x| => seq(|v|, j requires 0 <= j < |v| => x[i] * v[j]))
  }

  function MatAdd(a: Mat, b: Mat): (r: Mat)
    ensures |r| == |a|
  {
    seq(|a|, i requires 0 <= i < |a| => VAdd(a[i], Row(b, i)))
  }

  /** `m` with row `i` replaced by `v`; `m` itself when `i` is not a row. */
  function SetRow(m: Mat, i: int, v: Vec): (r: Mat)
    ensures |r| == |m|
    ensures forall j :: 0 <= j < |m| ==> r[j] == if j == i then v else m[j]
  {
    if 0 <= i < |m| then m[i := v] else m
  }

  // ---------------------------------------------------------------------
  // Algebra used by the accumulation proofs.

  lemma VAddAssoc(a: Vec, b: Vec, c: Vec)
    requires |a| <= |b|
    ensures VAdd(VAdd(a, b), c) == VAdd(a, VAdd(b, c))
  {
    assert forall i :: 0 <= i < |a| ==> VAdd(VAdd(a, b), c)[i] == VAdd(a, VAdd(b, c))[i];
  }

  lemma VAddZerosLeft(d: Vec)
    ensures VAdd(Zeros(|d|), d) == d
  {
    assert forall i :: 0 <= i < |d| ==> VAdd(Zeros(|d|), d)[i] == d[i];
  }

  lemma VAddZerosRight(a: Vec, n: nat)
    ensures VAdd(a, Zeros(n)) == a
  {
    assert forall i :: 0 <= i < |a| ==> VAdd(a, Zeros(n))[i] == a[i];
  }

  lemma MatAddAssoc(a: Mat, b: Mat, c: Mat, rows: nat, cols: nat)
    requires IsMat(a, rows, cols) && IsMat(b, rows, cols)
    ensures MatAdd(MatAdd(a, b), c) == MatAdd(a, MatAdd(b, c))
  {
    forall i | 0 <= i < rows
      ensures MatAdd(MatAdd(a, b), c)[i] == MatAdd(a, MatAdd(b, c))[i]
    {
      VAddAssoc(a[i], b[i], Row(c, i));
    }
  }

  lemma MatAddZerosLeft(d: Mat, rows: nat, cols: nat)
    requires IsMat(d, rows, cols)
    ensures MatAdd(ZeroMat(rows, cols), d) == d
  {
    forall i | 0 <= i < rows ensures MatAdd(ZeroMat(rows, cols), d)[i] == d[i] {
      VAddZerosLeft(d[i]);
    }
  }

  lemma MatAddZerosRight(a: Mat, rows: nat, cols: nat)
    requires IsMat(a, rows, cols)
    ensures MatAdd(a, ZeroMat(rows, cols)) == a
  {
    forall i | 0 <= i < rows ensures MatAdd(a, ZeroMat(rows, cols))[i] == a[i] {
      VAddZerosRight(a[i], cols);
    }
  }

  lemma MatAddShape(a: Mat, b: Mat, rows: nat, cols: nat)
    requires IsMat(a, rows, cols)
    ensures IsMat(MatAdd(a, b), rows, cols)
  {
  }

  lemma VMulZeroLeft(a: Vec, b: Vec)
    requires a == Zeros(|a|)
    ensures VMul(a, b) == Zeros(|a|)
  {
    forall i | 0 <= i < |a| ensures VMul(a, b)[i] == 0.0 {
      assert a[i] == 0.0;
    }
  }

  lemma VMulZeroRight(a: Vec, b: Vec)
    requires b == Zeros(|b|) && |a| <= |b|
    ensures VMul(a, b) == Zeros(|a|)
  {
    forall i | 0 <= i < |a| ensures VMul(a, b)[i] == 0.0 {
      assert At(b, i) == 0.0;
    }
  }

  lemma VAddZeros(n: nat, m: nat)
    ensures VAdd(Zeros(n), Zeros(m)) == Zeros(n)
  {
  }

  lemma VSubZeros(n: nat, m: nat)
    ensures VSub(Zeros(n), Zeros(m)) == Zeros(n)
  {
  }

  lemma OuterZeroRight(x: Vec, n: nat)
    ensures Outer(x, Zeros(n)) == ZeroMat(|x|, n)
  {
    forall i | 0 <= i < |x| ensures Outer(x, Zeros(n))[i] == Zeros(n) {
      forall j | 0 <= j < n ensures Outer(x, Zeros(n))[i][j] == 0.0 {
        assert Zeros(n)[j] == 0.0;
      }
    }
  }

  lemma {:induction false} DotZerosRight(a: Vec, n: nat)
    ensures Dot(a, Zeros(n)) == 0.0
    decreases |a|
  {
    if |a| > 0 {
      DotZerosRight(a[..|a| - 1], n);
    }
  }

  /** Multiplying by an all-zero matrix gives the zero row. */
  lemma VecMatZero(x: Vec, rows: nat, cols: nat)
    ensures VecMat(x, ZeroMat(rows, cols), cols) == Zeros(cols)
  {
    forall j | 0 <= j < cols ensures VecMat(x, ZeroMat(rows, cols), cols)[j] == 0.0 {
      assert Col(ZeroMat(rows, cols), j) == Zeros(rows);
      DotZerosRight(x, rows);
    }
  }
}
