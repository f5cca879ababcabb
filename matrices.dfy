/** Real matrices as sequences of rows, with the handful of operations the
    transfer-map code needs: products, transposes, identities and single-entry
    assignment (the model of `R[..., i, j] = v` on a freshly built matrix). */
module Matrices {

  type Vector = seq<real>
  type Matrix = seq<seq<real>>

  /** `m` has `rows` rows of `cols` entries each. */
  predicate Shaped(m: Matrix, rows: nat, cols: nat) {
    |m| == rows && forall i :: 0 <= i < rows ==> |m[i]| == cols
  }

  /** Number of columns of a matrix, read off its first row (0 when it has no rows). */
  function Cols(m: Matrix): nat {
    if |m| == 0 then 0 else |m[0]|
  }

  /** Every row of `m` has the same length. */
  predicate Rect(m: Matrix) {
    Shaped(m, |m|, Cols(m))
  }

  function Sum(v: Vector): real {
    if |v| == 0 then 0.0 else v[0] + Sum(v[1..])
  }

  /** `v` with every entry multiplied by `c`. */
  function Scale(v: seq<real>, c: real): (w: seq<real>)
    ensures |w| == |v| && forall k :: 0 <= k < |v| ==> w[k] == c * v[k]
  {
    seq(|v|, k requires 0 <= k < |v| => c * v[k])
  }

  lemma {:induction false} SumScale(v: seq<real>, c: real)
    ensures Sum(Scale(v, c)) == c * Sum(v)
  {
    if |v| > 0 {
      var w := Scale(v, c);
      forall j | 0 <= j < |v| - 1
        ensures w[1..][j] == Scale(v[1..], c)[j]
      {
        assert v[1..][j] == v[j + 1];
      }
      assert w[1..] == Scale(v[1..], c);
      SumScale(v[1..], c);
      assert c * Sum(v) == c * v[0] + c * Sum(v[1..]);
    }
  }

  lemma {:induction false} SumAppend(a: seq<real>, b: seq<real>)
    ensures Sum(a + b) == Sum(a) + Sum(b)
  {
    if |a| > 0 {
      assert (a + b)[1..] == a[1..] + b;
      SumAppend(a[1..], b);
    } else {
      assert a + b == b;
    }
  }

  /** Sum of every entry of a matrix. */
  function Total(m: Matrix): real {
    if |m| == 0 then 0.0 else Sum(m[0]) + Total(m[1..])
  }

  function Dot(a: Vector, b: Vector): real
    requires |a| == |b|
  {
    if |a| == 0 then 0.0 else a[0] * b[0] + Dot(a[1..], b[1..])
  }

  function Column(m: Matrix, j: nat): (c: Vector)
    requires forall i :: 0 <= i < |m| ==> j < |m[i]|
    ensures |c| == |m| && forall i :: 0 <= i < |m| ==> c[i] == m[i][j]
  {
    seq(|m|, i requires 0 <= i < |m| => m[i][j])
  }

  /** The matrix product `a · b`. */
  function Mul(a: Matrix, b: Matrix): (c: Matrix)
    requires Rect(b)
    requires forall i :: 0 <= i < |a| ==> |a[i]| == |b|
    ensures Shaped(c, |a|, Cols(b))
    ensures forall i, j :: 0 <= i < |a| && 0 <= j < Cols(b) ==> c[i][j] == Dot(a[i], Column(b, j))
  {
    seq(|a|, i requires 0 <= i < |a| =>
      seq(Cols(b), j requires 0 <= j < Cols(b) => Dot(a[i], Column(b, j))))
  }

  /** The matrix-vector product `m · v`. */
  function MatVec(m: Matrix, v: Vector): (r: Vector)
    requires forall i :: 0 <= i < |m| ==> |m[i]| == |v|
    ensures |r| == |m| && forall i :: 0 <= i < |m| ==> r[i] == Dot(m[i], v)
  {
    seq(|m|, i requires 0 <= i < |m| => Dot(m[i], v))
  }

  function Transpose(m: Matrix): (t: Matrix)
    requires Rect(m)
    ensures Shaped(t, Cols(m), |m|)
    ensures forall j, i :: 0 <= j < Cols(m) && 0 <= i < |m| ==> t[j][i] == m[i][j]
  {
    seq(Cols(m), j requires 0 <= j < Cols(m) => Column(m, j))
  }

  function Identity(n: nat): (m: Matrix)
    ensures Shaped(m, n, n)
    ensures forall i, j :: 0 <= i < n && 0 <= j < n ==> m[i][j] == if i == j then 1.0 else 0.0
  {
    seq(n, i => seq(n, j => if i == j then 1.0 else 0.0))
  }

  /** `m` with entry `(i, j)` replaced by `v`. */
  function Assign(m: Matrix, i: nat, j: nat, v: real): (r: Matrix)
    requires i < |m| && j < |m[i]|
    ensures |r| == |m| && forall k :: 0 <= k < |m| ==> |r[k]| == |m[k]|
    ensures forall k, l :: 0 <= k < |m| && 0 <= l < |m[k]| ==>
      r[k][l] == if k == i && l == j then v else m[k][l]
  {
    m[i := m[i][j := v]]
  }

  /** The dot product of the entries from index `i` on, summed front to back. */
  function DotFrom(a: Vector, b: Vector, i: nat): real
    requires |a| == |b| && i <= |a|
    decreases |a| - i
  {
    if i == |a| then 0.0 else a[i] * b[i] + DotFrom(a, b, i + 1)
  }

  lemma {:induction false} DotFromSlice(a: Vector, b: Vector, i: nat)
    requires |a| == |b| && i <= |a|
    decreases |a| - i
    ensures Dot(a[i..], b[i..]) == DotFrom(a, b, i)
  {
    if i < |a| {
      assert a[i..][1..] == a[i + 1..];
      assert b[i..][1..] == b[i + 1..];
      DotFromSlice(a, b, i + 1);
    }
  }

  /** The product of the entries at index `p`, or 0 when `p` is out of range. */
  function Term(u: Vector, v: Vector, p: int): real
    requires |u| == |v|
  {
    if 0 <= p < |u| then u[p] * v[p] else 0.0
  }

  lemma {:induction false} DotFromZero(u: Vector, v: Vector, i: nat, p: int)
    requires |u| == |v| && i <= |u| && i <= p
    requires forall j :: i <= j < |u| && j != p ==> u[j] == 0.0
    decreases |u| - i
    ensures DotFrom(u, v, i) == Term(u, v, p)
  {
    if i < |u| {
      if i == p {
        DotFromZero(u, v, i + 1, |u|);
      } else {
        DotFromZero(u, v, i + 1, p);
      }
    }
  }

  lemma {:induction false} DotFromSparse(u: Vector, v: Vector, i: nat, p: int, q: int)
    requires |u| == |v| && i <= |u| && p != q && i <= p && i <= q
    requires forall j :: i <= j < |u| && j != p && j != q ==> u[j] == 0.0
    decreases |u| - i
    ensures DotFrom(u, v, i) == Term(u, v, p) + Term(u, v, q)
  {
    if i < |u| {
      if i == p {
        DotFromZero(u, v, i + 1, q);
      } else if i == q {
        DotFromZero(u, v, i + 1, p);
      } else {
        DotFromSparse(u, v, i + 1, p, q);
      }
    }
  }

  /** A dot product with a vector that is zero outside indices `p` and `q` has two terms. */
  lemma DotSparse(u: Vector, v: Vector, p: nat, q: nat)
    requires |u| == |v| && p != q
    requires forall j :: 0 <= j < |u| && j != p && j != q ==> u[j] == 0.0
    ensures Dot(u, v) == Term(u, v, p) + Term(u, v, q)
  {
    DotFromSlice(u, v, 0);
    assert u[0..] == u && v[0..] == v;
    DotFromSparse(u, v, 0, p, q);
  }

  lemma {:induction false} DotSymmetric(a: Vector, b: Vector)
    requires |a| == |b|
    ensures Dot(a, b) == Dot(b, a)
  {
    if |a| > 0 {
      DotSymmetric(a[1..], b[1..]);
    }
  }

  /** A dot product with a unit vector picks one entry. */
  lemma {:induction false} DotUnit(u: Vector, v: Vector, k: int)
    requires |u| == |v|
    requires forall j :: 0 <= j < |u| ==> u[j] == if j == k then 1.0 else 0.0
    ensures Dot(u, v) == if 0 <= k < |v| then v[k] else 0.0
  {
    if |u| > 0 {
      assert forall j :: 0 <= j < |u| - 1 ==> u[1..][j] == u[j + 1];
      DotUnit(u[1..], v[1..], k - 1);
    }
  }

  lemma MulIdentityLeft(m: Matrix)
    requires Rect(m)
    ensures Mul(Identity(|m|), m) == m
  {
    var c := Mul(Identity(|m|), m);
    forall i | 0 <= i < |m|
      ensures c[i] == m[i]
    {
      forall j | 0 <= j < Cols(m)
        ensures c[i][j] == m[i][j]
      {
        DotUnit(Identity(|m|)[i], Column(m, j), i);
      }
    }
  }

  lemma MulIdentityRight(m: Matrix)
    requires Rect(m)
    ensures Mul(m, Identity(Cols(m))) == m
  {
    var n := Cols(m);
    var c := Mul(m, Identity(n));
    forall i | 0 <= i < |m|
      ensures c[i] == m[i]
    {
      forall j | 0 <= j < n
        ensures c[i][j] == m[i][j]
      {
        var col := Column(Identity(n), j);
        DotSymmetric(m[i], col);
        DotUnit(col, m[i], j);
      }
    }
  }

  /** Row `k` of `p · mᵀ` is `m · p[k]`: multiplying a stack of row vectors by the
      transposed map applies the map to every row. */
  lemma RowsOfMulTranspose(p: Matrix, m: Matrix, n: nat)
    requires Shaped(m, n, n) && Shaped(p, |p|, n)
    ensures Rect(Transpose(m)) && |Transpose(m)| == n
    ensures Shaped(Mul(p, Transpose(m)), |p|, n)
    ensures forall k :: 0 <= k < |p| ==> Mul(p, Transpose(m))[k] == MatVec(m, p[k])
  {
    var t := Transpose(m);
    assert Cols(t) == n;
    var c := Mul(p, t);
    forall k | 0 <= k < |p|
      ensures c[k] == MatVec(m, p[k])
    {
      forall j | 0 <= j < n
        ensures c[k][j] == MatVec(m, p[k])[j]
      {
        assert Column(t, j) == m[j];
        DotSymmetric(p[k], m[j]);
      }
    }
  }
}
