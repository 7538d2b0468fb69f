/**
  Dense real matrices and vectors, in the shapes numpy gives the estimator's
  arrays. A column vector (an n-by-1 array) is a `Vector`; every other array is
  a row-major `Matrix`.
 */
module Matrices {

  type Vector = seq<real>
  type Matrix = seq<seq<real>>

  /** `m` has `rows` rows of `cols` entries each. */
  predicate IsMatrix(m: Matrix, rows: nat, cols: nat) {
    |m| == rows && forall i | 0 <= i < rows :: |m[i]| == cols
  }

  predicate IsSquare(m: Matrix, n: nat) {
    IsMatrix(m, n, n)
  }

  /** `np.zeros((rows, cols))`. */
  function Zeros(rows: nat, cols: nat): (m: Matrix)
    ensures IsMatrix(m, rows, cols)
    ensures forall i, j | 0 <= i < rows && 0 <= j < cols :: m[i][j] == 0.0
  {
    seq(rows, _ => seq(cols, _ => 0.0))
  }

  /** `np.eye(n)`. */
  function Identity(n: nat): (m: Matrix)
    ensures IsSquare(m, n)
    ensures forall i, j | 0 <= i < n && 0 <= j < n :: m[i][j] == if i == j then 1.0 else 0.0
  {
    seq(n, i => seq(n, j => if i == j then 1.0 else 0.0))
  }

  function Dot(a: Vector, b: Vector): real
    requires |a| == |b|
    decreases |a|
  {
    if |a| == 0 then 0.0 else a[0] * b[0] + Dot(a[1..], b[1..])
  }

  /** Column `j` of `m`, as a vector. */
  function Column(m: Matrix, j: nat): (c: Vector)
    requires forall i | 0 <= i < |m| :: j < |m[i]|
    ensures |c| == |m|
    ensures forall i | 0 <= i < |m| :: c[i] == m[i][j]
  {
    seq(|m|, i requires 0 <= i < |m| => m[i][j])
  }

  /** The matrix product `np.dot(a, b)` for a k-by-m `b` with k > 0. */
  function Mul(a: Matrix, b: Matrix): (c: Matrix)
    requires |b| > 0 && IsMatrix(b, |b|, |b[0]|)
    requires IsMatrix(a, |a|, |b|)
    ensures IsMatrix(c, |a|, |b[0]|)
    ensures forall i, j | 0 <= i < |a| && 0 <= j < |b[0]| :: c[i][j] == Dot(a[i], Column(b, j))
  {
    seq(|a|, i requires 0 <= i < |a| => seq(|b[0]|, j requires 0 <= j < |b[0]| => Dot(a[i], Column(b, j))))
  }

  /** The matrix-vector product `np.dot(a, v)` for a column vector `v`. */
  function MatVec(a: Matrix, v: Vector): (w: Vector)
    requires IsMatrix(a, |a|, |v|)
    ensures |w| == |a|
    ensures forall i | 0 <= i < |a| :: w[i] == Dot(a[i], v)
  {
    seq(|a|, i requires 0 <= i < |a| => Dot(a[i], v))
  }

  /** `m.T` for a matrix with at least one row. */
  function Transpose(m: Matrix): (t: Matrix)
    requires |m| > 0 && IsMatrix(m, |m|, |m[0]|)
    ensures IsMatrix(t, |m[0]|, |m|)
    ensures forall i, j | 0 <= i < |m[0]| && 0 <= j < |m| :: t[i][j] == m[j][i]
  {
    seq(|m[0]|, j requires 0 <= j < |m[0]| => Column(m, j))
  }

  function Add(a: Matrix, b: Matrix): (c: Matrix)
    requires |a| == |b| && forall i | 0 <= i < |a| :: |a[i]| == |b[i]|
    ensures |c| == |a| && forall i | 0 <= i < |a| :: |c[i]| == |a[i]|
    ensures forall i, j | 0 <= i < |a| && 0 <= j < |a[i]| :: c[i][j] == a[i][j] + b[i][j]
  {
    seq(|a|, i requires 0 <= i < |a| => seq(|a[i]|, j requires 0 <= j < |a[i]| => a[i][j] + b[i][j]))
  }

  function Sub(a: Matrix, b: Matrix): (c: Matrix)
    requires |a| == |b| && forall i | 0 <= i < |a| :: |a[i]| == |b[i]|
    ensures |c| == |a| && forall i | 0 <= i < |a| :: |c[i]| == |a[i]|
    ensures forall i, j | 0 <= i < |a| && 0 <= j < |a[i]| :: c[i][j] == a[i][j] - b[i][j]
  {
    seq(|a|, i requires 0 <= i < |a| => seq(|a[i]|, j requires 0 <= j < |a[i]| => a[i][j] - b[i][j]))
  }

  function VecAdd(a: Vector, b: Vector): (c: Vector)
    requires |a| == |b|
    ensures |c| == |a|
    ensures forall i | 0 <= i < |a| :: c[i] == a[i] + b[i]
  {
    seq(|a|, i requires 0 <= i < |a| => a[i] + b[i])
  }

  /** `np.hstack((a, b))`: the rows of `a` extended by the rows of `b`. */
  function HStack(a: Matrix, b: Matrix): (c: Matrix)
    requires |a| == |b|
    ensures |c| == |a|
    ensures forall i | 0 <= i < |a| :: c[i] == a[i] + b[i]
  {
    seq(|a|, i requires 0 <= i < |a| => a[i] + b[i])
  }

  /** `np.vstack((a, b))`: the rows of `a` followed by the rows of `b`. */
  function VStack(a: Matrix, b: Matrix): (c: Matrix)
    ensures |c| == |a| + |b|
    ensures forall i | 0 <= i < |a| :: c[i] == a[i]
    ensures forall i | 0 <= i < |b| :: c[|a| + i] == b[i]
  {
    a + b
  }

  /** The slice `m[r0:r0+h, c0:c0+w]`. */
  function SubBlock(m: Matrix, r0: nat, c0: nat, h: nat, w: nat): (b: Matrix)
    requires r0 + h <= |m| && forall i | r0 <= i < r0 + h :: c0 + w <= |m[i]|
    ensures IsMatrix(b, h, w)
    ensures forall i, j | 0 <= i < h && 0 <= j < w :: b[i][j] == m[r0 + i][c0 + j]
  {
    seq(h, i requires 0 <= i < h => m[r0 + i][c0..c0 + w])
  }

  /** The slice assignment `m[r0:r0+h, c0:c0+w] = b` for an h-by-w `b`, as a
      new matrix. */
  function SetBlock(m: Matrix, r0: nat, c0: nat, b: Matrix): (m': Matrix)
    requires |b| > 0 && IsMatrix(b, |b|, |b[0]|)
    requires r0 + |b| <= |m| && forall i | r0 <= i < r0 + |b| :: c0 + |b[0]| <= |m[i]|
    ensures |m'| == |m| && forall i | 0 <= i < |m| :: |m'[i]| == |m[i]|
    ensures forall i, j | 0 <= i < |m| && 0 <= j < |m[i]| ::
      m'[i][j] == if r0 <= i < r0 + |b| && c0 <= j < c0 + |b[0]| then b[i - r0][j - c0] else m[i][j]
  {
    seq(|m|, i requires 0 <= i < |m| =>
      if r0 <= i < r0 + |b| then m[i][..c0] + b[i - r0] + m[i][c0 + |b[0]|..] else m[i])
  }

  /** The determinant of a 2-by-2 matrix. */
  function Det2(m: Matrix): real
    requires IsSquare(m, 2)
  {
    m[0][0] * m[1][1] - m[0][1] * m[1][0]
  }

  /** A dot product with a vector that is zero everywhere is zero. */
  lemma {:induction false} DotZero(a: Vector, v: Vector)
    requires |a| == |v|
    requires forall j | 0 <= j < |v| :: v[j] == 0.0
    ensures Dot(a, v) == 0.0
  {
    if |a| > 0 {
      DotZero(a[1..], v[1..]);
    }
  }

  /** A dot product with the `k`-th unit vector picks entry `k`. */
  lemma {:induction false} DotUnit(a: Vector, v: Vector, k: nat)
    requires |a| == |v| && k < |v|
    requires forall j | 0 <= j < |v| :: v[j] == if j == k then 1.0 else 0.0
    ensures Dot(a, v) == a[k]
  {
    if k == 0 {
      DotZero(a[1..], v[1..]);
    } else {
      DotUnit(a[1..], v[1..], k - 1);
    }
  }

  lemma DotPair(a: Vector, b: Vector)
    requires |a| == 2 && |b| == 2
    ensures Dot(a, b) == a[0] * b[0] + a[1] * b[1]
  {
    assert Dot(a[1..][1..], b[1..][1..]) == 0.0;
  }

  lemma DotTriple(a: Vector, b: Vector)
    requires |a| == 3 && |b| == 3
    ensures Dot(a, b) == a[0] * b[0] + a[1] * b[1] + a[2] * b[2]
  {
    DotPair(a[1..], b[1..]);
  }

  /** `np.dot(np.eye(n), b) == b`. */
  lemma MulIdentityLeft(b: Matrix, n: nat, m: nat)
    requires n > 0 && IsMatrix(b, n, m)
    ensures Mul(Identity(n), b) == b
  {
    var c := Mul(Identity(n), b);
    forall i, j | 0 <= i < n && 0 <= j < m
      ensures c[i][j] == b[i][j]
    {
      DotUnit(Column(b, j), Identity(n)[i], i);
      DotCommutes(Identity(n)[i], Column(b, j));
    }
    MatrixEquality(c, b, n, m);
  }

  /** `np.dot(a, np.eye(m)) == a`. */
  lemma MulIdentityRight(a: Matrix, n: nat, m: nat)
    requires m > 0 && IsMatrix(a, n, m)
    ensures Mul(a, Identity(m)) == a
  {
    var c := Mul(a, Identity(m));
    forall i, j | 0 <= i < n && 0 <= j < m
      ensures c[i][j] == a[i][j]
    {
      DotUnit(a[i], Column(Identity(m), j), j);
    }
    MatrixEquality(c, a, n, m);
  }

  lemma {:induction false} DotCommutes(a: Vector, b: Vector)
    requires |a| == |b|
    ensures Dot(a, b) == Dot(b, a)
  {
    if |a| > 0 {
      DotCommutes(a[1..], b[1..]);
    }
  }

  lemma TransposeIdentity(n: nat)
    requires n > 0
    ensures Transpose(Identity(n)) == Identity(n)
  {
    MatrixEquality(Transpose(Identity(n)), Identity(n), n, n);
  }

  /** The exact inverse of a 2-by-2 matrix, or `None` when it is singular (where
      `np.linalg.inv` raises `LinAlgError`). */
  function Inverse2(m: Matrix): (r: Option<Matrix>)
    requires IsSquare(m, 2)
    ensures r.None? <==> Det2(m) == 0.0
    ensures r.Some? ==> IsSquare(r.value, 2) && Mul(m, r.value) == Identity(2) && Mul(r.value, m) == Identity(2)
  {
    var d := Det2(m);
    if d == 0.0 then None
    else
      var k := 1.0 / d;
      var inv := [[m[1][1] * k, -m[0][1] * k], [-m[1][0] * k, m[0][0] * k]];
      InverseProducts(m, inv, d, k);
      Some(inv)
  }

  /** The scalar identities behind the 2-by-2 adjugate inverse. */
  lemma AdjugateIdentities(a: real, b: real, c: real, e: real, k: real)
    requires (a * e - b * c) * k == 1.0
    ensures a * (e * k) + b * (-c * k) == 1.0
    ensures a * (-b * k) + b * (a * k) == 0.0
    ensures c * (e * k) + e * (-c * k) == 0.0
    ensures c * (-b * k) + e * (a * k) == 1.0
    ensures (e * k) * a + (-b * k) * c == 1.0
    ensures (e * k) * b + (-b * k) * e == 0.0
    ensures (-c * k) * a + (a * k) * c == 0.0
    ensures (-c * k) * b + (a * k) * e == 1.0
  {
  }

  lemma InverseProducts(m: Matrix, inv: Matrix, d: real, k: real)
    requires IsSquare(m, 2) && d == Det2(m) && d != 0.0 && k == 1.0 / d
    requires inv == [[m[1][1] * k, -m[0][1] * k], [-m[1][0] * k, m[0][0] * k]]
    ensures Mul(m, inv) == Identity(2) && Mul(inv, m) == Identity(2)
  {
    assert d * k == 1.0;
    InverseRight(m, inv, k);
    InverseLeft(m, inv, k);
  }

  lemma InverseRight(m: Matrix, inv: Matrix, k: real)
    requires IsSquare(m, 2) && Det2(m) * k == 1.0
    requires inv == [[m[1][1] * k, -m[0][1] * k], [-m[1][0] * k, m[0][0] * k]]
    ensures Mul(m, inv) == Identity(2)
  {
    AdjugateIdentities(m[0][0], m[0][1], m[1][0], m[1][1], k);
    var p := Mul(m, inv);
    DotPair(m[0], Column(inv, 0));
    DotPair(m[0], Column(inv, 1));
    DotPair(m[1], Column(inv, 0));
    DotPair(m[1], Column(inv, 1));
    assert p[0][0] == 1.0 && p[0][1] == 0.0 && p[1][0] == 0.0 && p[1][1] == 1.0;
    MatrixEquality(p, Identity(2), 2, 2);
  }

  lemma InverseLeft(m: Matrix, inv: Matrix, k: real)
    requires IsSquare(m, 2) && Det2(m) * k == 1.0
    requires inv == [[m[1][1] * k, -m[0][1] * k], [-m[1][0] * k, m[0][0] * k]]
    ensures Mul(inv, m) == Identity(2)
  {
    AdjugateIdentities(m[0][0], m[0][1], m[1][0], m[1][1], k);
    var q := Mul(inv, m);
    DotPair(inv[0], Column(m, 0));
    DotPair(inv[0], Column(m, 1));
    DotPair(inv[1], Column(m, 0));
    DotPair(inv[1], Column(m, 1));
    assert q[0][0] == 1.0 && q[0][1] == 0.0 && q[1][0] == 0.0 && q[1][1] == 1.0;
    MatrixEquality(q, Identity(2), 2, 2);
  }

  /** Matrices of the same shape with the same entries are equal. */
  lemma MatrixEquality(a: Matrix, b: Matrix, n: nat, m: nat)
    requires IsMatrix(a, n, m) && IsMatrix(b, n, m)
    requires forall i, j | 0 <= i < n && 0 <= j < m :: a[i][j] == b[i][j]
    ensures a == b
  {
    forall i | 0 <= i < n
      ensures a[i] == b[i]
    {
      assert forall j | 0 <= j < m :: a[i][j] == b[i][j];
    }
  }

  datatype Option<T> = None | Some(value: T)
}
