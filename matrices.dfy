/**
 * Dense real matrices as sequences of rows (the model's stand-in for
 * Eigen::MatrixXd / VectorXd). Every operation is total: an index outside a
 * row reads as 0, so shapes never have to be carried as preconditions, and
 * the lemmas below state the shapes where they matter.
 */
module Matrices {

  type Vector = seq<real>
  type Matrix = seq<seq<real>>

  /** Inner product over the common prefix of `a` and `b`. */
  function Dot(a: Vector, b: Vector): real
    decreases |a|
  {
    if |a| == 0 || |b| == 0 then 0.0 else a[0] * b[0] + Dot(a[1..], b[1..])
  }

  ghost predicate IsMatrix(m: Matrix, rows: nat, cols: nat) {
    |m| == rows && forall i :: 0 <= i < rows ==> |m[i]| == cols
  }

  function At(v: Vector, i: int): real {
    if 0 <= i < |v| then v[i] else 0.0
  }

  function Entry(m: Matrix, i: int, j: int): real {
    if 0 <= i < |m| then At(m[i], j) else 0.0
  }

  function Cols(m: Matrix): nat {
    if |m| == 0 then 0 else |m[0]|
  }

  function Column(m: Matrix, j: int): (c: Vector)
    ensures |c| == |m|
  {
    seq(|m|, k => Entry(m, k, j))
  }

  function Transpose(m: Matrix): (t: Matrix)
    ensures |t| == Cols(m)
  {
    seq(Cols(m), j => Column(m, j))
  }

  function MatMul(a: Matrix, b: Matrix): (r: Matrix)
    ensures IsMatrix(r, |a|, Cols(b))
  {
    seq(|a|, i requires 0 <= i < |a| => seq(Cols(b), j => Dot(a[i], Column(b, j))))
  }

  function MatVec(a: Matrix, v: Vector): (r: Vector)
    ensures |r| == |a|
  {
    seq(|a|, i requires 0 <= i < |a| => Dot(a[i], v))
  }

  function MatAdd(a: Matrix, b: Matrix): (r: Matrix)
    ensures |r| == |a| && forall i :: 0 <= i < |a| ==> |r[i]| == |a[i]|
  {
    seq(|a|, i requires 0 <= i < |a| => seq(|a[i]|, j requires 0 <= j < |a[i]| => a[i][j] + Entry(b, i, j)))
  }

  function MatSub(a: Matrix, b: Matrix): (r: Matrix)
    ensures |r| == |a| && forall i :: 0 <= i < |a| ==> |r[i]| == |a[i]|
  {
    seq(|a|, i requires 0 <= i < |a| => seq(|a[i]|, j requires 0 <= j < |a[i]| => a[i][j] - Entry(b, i, j)))
  }

  function MatScale(k: real, a: Matrix): (r: Matrix)
    ensures |r| == |a|
  {
    seq(|a|, i requires 0 <= i < |a| => seq(|a[i]|, j requires 0 <= j < |a[i]| => k * a[i][j]))
  }

  function VecAdd(a: Vector, b: Vector): (r: Vector)
    ensures |r| == |a|
  {
    seq(|a|, i requires 0 <= i < |a| => a[i] + At(b, i))
  }

  function VecSub(a: Vector, b: Vector): (r: Vector)
    ensures |r| == |a|
  {
    seq(|a|, i requires 0 <= i < |a| => a[i] - At(b, i))
  }

  /** Row `k` of the n-by-n identity. */
  function Unit(n: nat, k: int): (u: Vector)
    ensures |u| == n
  {
    seq(n, j => if j == k then 1.0 else 0.0)
  }

  function Identity(n: nat): (m: Matrix)
    ensures IsMatrix(m, n, n)
  {
    seq(n, i => Unit(n, i))
  }

  lemma {:induction false} DotZeroLeft(a: Vector, b: Vector)
    requires forall j :: 0 <= j < |a| ==> a[j] == 0.0
    ensures Dot(a, b) == 0.0
    decreases |a|
  {
    if |a| != 0 && |b| != 0 {
      DotZeroLeft(a[1..], b[1..]);
    }
  }

  /** A row with a single non-zero entry picks out one coordinate. */
  lemma {:induction false} DotOneHot(a: Vector, b: Vector, k: nat)
    requires |a| == |b| && k < |a|
    requires forall j :: 0 <= j < |a| && j != k ==> a[j] == 0.0
    ensures Dot(a, b) == a[k] * b[k]
    decreases |a|
  {
    if k == 0 {
      DotZeroLeft(a[1..], b[1..]);
    } else {
      DotOneHot(a[1..], b[1..], k - 1);
    }
  }

  /** A row with two non-zero entries combines two coordinates. */
  lemma {:induction false} DotTwoHot(a: Vector, b: Vector, p: nat, q: nat)
    requires |a| == |b| && p < q < |a|
    requires forall j :: 0 <= j < |a| && j != p && j != q ==> a[j] == 0.0
    ensures Dot(a, b) == a[p] * b[p] + a[q] * b[q]
    decreases |a|
  {
    if p == 0 {
      DotOneHot(a[1..], b[1..], q - 1);
    } else {
      DotTwoHot(a[1..], b[1..], p - 1, q - 1);
    }
  }

  lemma {:induction false} DotCommutes(a: Vector, b: Vector)
    ensures Dot(a, b) == Dot(b, a)
    decreases |a|
  {
    if |a| != 0 && |b| != 0 {
      DotCommutes(a[1..], b[1..]);
    }
  }
}
