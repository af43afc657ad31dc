/**
 * The standalone closed-form multilateration solver (mlat_core.cpp). From
 * the positions of the anchors that heard one emission and the arrival time
 * at each (in range units, so that a time difference is a range
 * difference), it linearises the hyperbolic equations against the first
 * anchor:
 *
 *   2 (ref - a_i) . p - 2 dd_i r_0  ==  dd_i^2 - (|a_i|^2 - |ref|^2)
 *
 * where dd_i = t_i - t_0 and r_0 = |p - ref|. With five or more anchors
 * the unknowns (p, r_0) are solved for together by least squares; with
 * exactly four, p is written as S + r_0 Q and r_0 is a root of a quadratic,
 * whose two roots give two candidates that `SelectBestSolution` decides
 * between.
 *
 * The QR solve, the square root and the norm are parameters (`MlatNumerics`);
 * the lemmas state what they must satisfy wherever a proof needs it.
 */
module Mlat {
  import opened Geometry
  import opened Matrices

  /** A candidate lower than this is not a plausible emitter position. */
  const MinHeight: real := -5.0

  /** Fewer anchors than this and the solver gives up. */
  const MinAnchorCount: nat := 4

  /** Five or more anchors are solved by least squares. */
  const LeastSquaresAnchorCount: nat := 5

  /** The solver's answer: whether it found a position, and the position (the origin when not). */
  datatype Fix = Fix(found: bool, position: Vec3)

  /** The numerical primitives the solver delegates. */
  datatype MlatNumerics = MlatNumerics(solve: (Matrix, Vector) -> Vector, sqrt: real -> real, norm: Vec3 -> real)

  predicate Plausible(p: Vec3) {
    p.z >= MinHeight
  }

  /**
   * The choice between the two roots: a plausible candidate beats an
   * implausible one; otherwise, given a previous position, the strictly
   * closer candidate wins and a tie goes to the second; otherwise the first.
   */
  function SelectBestSolution(p1: Vec3, p2: Vec3, lastPos: Vec3, hasLast: bool, norm: Vec3 -> real): (r: Vec3)
    ensures r == p1 || r == p2
    ensures Plausible(p1) || Plausible(p2) ==> Plausible(r)
    ensures !hasLast && Plausible(p1) == Plausible(p2) ==> r == p1
    ensures hasLast && Plausible(p1) == Plausible(p2) && !(norm(Sub(p1, lastPos)) < norm(Sub(p2, lastPos))) ==> r == p2
  {
    if Plausible(p1) && !Plausible(p2) then p1
    else if Plausible(p2) && !Plausible(p1) then p2
    else if hasLast then
      if norm(Sub(p1, lastPos)) < norm(Sub(p2, lastPos)) then p1 else p2
    else p1
  }

  /** `r` is the square root of `x`: non-negative, and its square is `x`. */
  predicate IsSqrt(r: real, x: real) {
    0.0 <= r && r * r == x
  }

  /** `norm` is the Euclidean norm: the square root of the squared norm. */
  ghost predicate EuclideanNorm(norm: Vec3 -> real) {
    forall v :: IsSqrt(norm(v), SqNorm(v))
  }

  /**
   * Between two equally plausible candidates and given the previous
   * position, the selection keeps the one nearer to it: its distance to the
   * previous position is no larger than either candidate's, the strictly
   * nearer one wins, and at equal distance the second one wins.
   */
  lemma SelectNearest(p1: Vec3, p2: Vec3, lastPos: Vec3, norm: Vec3 -> real)
    requires EuclideanNorm(norm) && Plausible(p1) == Plausible(p2)
    ensures var r := SelectBestSolution(p1, p2, lastPos, true, norm);
      && SqDist(r, lastPos) <= SqDist(p1, lastPos) && SqDist(r, lastPos) <= SqDist(p2, lastPos)
      && (SqDist(p1, lastPos) < SqDist(p2, lastPos) ==> r == p1)
      && (SqDist(p1, lastPos) >= SqDist(p2, lastPos) ==> r == p2)
  {
    var d1, d2 := norm(Sub(p1, lastPos)), norm(Sub(p2, lastPos));
    assert d1 * d1 == SqDist(p1, lastPos) && d2 * d2 == SqDist(p2, lastPos);
    SquaredComparison(d1, d2);
    SquaredComparison(d2, d1);
  }

  /** The column vector of a position. */
  function ToVector(p: Vec3): (v: Vector)
    ensures |v| == 3
  {
    [p.x, p.y, p.z]
  }

  /** The first three entries of a solution as a position (missing entries read as 0). */
  function Head3(v: Vector): Vec3 {
    Vec3(At(v, 0), At(v, 1), At(v, 2))
  }

  /** The geometric part of the row for anchor `a`: 2 (ref - a). */
  function GeoRow(ref: Vec3, a: Vec3): Vec3 {
    Scale(2.0, Sub(ref, a))
  }

  /** The right-hand side for anchor `a`: dd^2 - (|a|^2 - |ref|^2). */
  function RangeRhs(ref: Vec3, refT: real, a: Vec3, t: real): real {
    var dd := t - refT;
    dd * dd - (SqNorm(a) - SqNorm(ref))
  }

  /** The coefficient 2 dd that the unknown r_0 carries in the row of an anchor heard at `t`. */
  function Drift(refT: real, t: real): real {
    2.0 * (t - refT)
  }

  /** r_0 v_i: the term of a row that the unknown distance to the reference contributes. */
  function DriftTerm(refT: real, t: real, r0: real): real {
    r0 * (2.0 * (t - refT))
  }

  /** A row of the least-squares system: the geometric part, then -2 dd for the unknown r_0. */
  function LsqRow(ref: Vec3, refT: real, a: Vec3, t: real): (row: Vector)
    ensures |row| == 4
  {
    var g := GeoRow(ref, a);
    [g.x, g.y, g.z, -Drift(refT, t)]
  }

  /** The least-squares system over every anchor but the reference. */
  function LsqSystem(anchors: seq<Vec3>, times: seq<real>): (m: Matrix)
    requires 1 <= |anchors| <= |times|
    ensures |m| == |anchors| - 1
  {
    seq(|anchors| - 1, i requires 0 <= i < |anchors| - 1 => LsqRow(anchors[0], times[0], anchors[i + 1], times[i + 1]))
  }

  function LsqRhs(anchors: seq<Vec3>, times: seq<real>): (b: Vector)
    requires 1 <= |anchors| <= |times|
    ensures |b| == |anchors| - 1
  {
    seq(|anchors| - 1, i requires 0 <= i < |anchors| - 1 => RangeRhs(anchors[0], times[0], anchors[i + 1], times[i + 1]))
  }

  /** The 3x3 system of the four-anchor case: rows for anchors 1 to 3. */
  function QuadSystem(anchors: seq<Vec3>): (m: Matrix)
    requires MinAnchorCount <= |anchors|
    ensures |m| == 3
  {
    seq(3, i requires 0 <= i < 3 => ToVector(GeoRow(anchors[0], anchors[i + 1])))
  }

  function QuadRhs(anchors: seq<Vec3>, times: seq<real>): (b: Vector)
    requires MinAnchorCount <= |anchors| <= |times|
    ensures |b| == 3
  {
    seq(3, i requires 0 <= i < 3 => RangeRhs(anchors[0], times[0], anchors[i + 1], times[i + 1]))
  }

  /** The coefficient of r_0 in the four-anchor case: 2 dd per row. */
  function QuadDrift(anchors: seq<Vec3>, times: seq<real>): (v: Vector)
    requires MinAnchorCount <= |anchors| <= |times|
    ensures |v| == 3
  {
    seq(3, i requires 0 <= i < 3 => Drift(times[0], times[i + 1]))
  }

  /** a x^2 + b x + c. */
  datatype Quadratic = Quadratic(a: real, b: real, c: real)

  function Eval(k: Quadratic, x: real): real {
    k.a * x * x + k.b * x + k.c
  }

  function Discriminant(k: Quadratic): real {
    k.b * k.b - 4.0 * k.a * k.c
  }

  /**
   * The quadratic in r_0 obtained by asking that p = S + r_0 Q lie at
   * distance r_0 from the reference: with D = S - ref,
   * (Q.Q - 1) r_0^2 + 2 (Q.D) r_0 + D.D = 0.
   */
  function RangeQuadratic(s: Vec3, q: Vec3, ref: Vec3): Quadratic {
    var d := Sub(s, ref);
    Quadratic(Dot3(q, q) - 1.0, 2.0 * Dot3(q, d), Dot3(d, d))
  }

  /**
   * The root (-b + sign * sqrtDelta) / (2a). A zero leading coefficient,
   * a division by zero in floating point, is read as the root 0.
   */
  function Root(k: Quadratic, sqrtDelta: real, sign: real): real {
    if k.a == 0.0 then 0.0 else (-k.b + sign * sqrtDelta) / (2.0 * k.a)
  }

  /** S of the four-anchor case: the solution of A S = b. */
  function Particular(anchors: seq<Vec3>, times: seq<real>, num: MlatNumerics): Vec3
    requires MinAnchorCount <= |anchors| <= |times|
  {
    Head3(num.solve(QuadSystem(anchors), QuadRhs(anchors, times)))
  }

  /** Q of the four-anchor case: the solution of A Q = v. */
  function Direction(anchors: seq<Vec3>, times: seq<real>, num: MlatNumerics): Vec3
    requires MinAnchorCount <= |anchors| <= |times|
  {
    Head3(num.solve(QuadSystem(anchors), QuadDrift(anchors, times)))
  }

  /** The candidate S + t Q for the root t of sign `sign`. */
  function Candidate(s: Vec3, q: Vec3, k: Quadratic, sqrtDelta: real, sign: real): Vec3 {
    Add(s, Scale(Root(k, sqrtDelta, sign), q))
  }

  /** What the solver computes, anchor count by anchor count. */
  function Multilaterate(anchors: seq<Vec3>, times: seq<real>, lastPos: Vec3, hasLast: bool, num: MlatNumerics)
    : (r: Fix)
    requires |anchors| < MinAnchorCount || |anchors| <= |times|
    ensures !r.found ==> r.position == Origin
    ensures |anchors| < MinAnchorCount ==> !r.found
    ensures LeastSquaresAnchorCount <= |anchors| ==> r.found
    ensures |anchors| == MinAnchorCount ==>
      var s, q := Particular(anchors, times, num), Direction(anchors, times, num);
      var k := RangeQuadratic(s, q, anchors[0]);
      var p1, p2 := Candidate(s, q, k, num.sqrt(Discriminant(k)), 1.0), Candidate(s, q, k, num.sqrt(Discriminant(k)), -1.0);
      && (r.found <==> Discriminant(k) >= 0.0)
      && (r.found ==> r.position == SelectBestSolution(p1, p2, lastPos, hasLast, num.norm))
      && (r.found ==> r.position == p1 || r.position == p2)
  {
    if |anchors| < MinAnchorCount then Fix(false, Origin)
    else if |anchors| >= LeastSquaresAnchorCount then
      Fix(true, Head3(num.solve(LsqSystem(anchors, times), LsqRhs(anchors, times))))
    else
      var s, q := Particular(anchors, times, num), Direction(anchors, times, num);
      var k := RangeQuadratic(s, q, anchors[0]);
      var delta := Discriminant(k);
      if delta < 0.0 then Fix(false, Origin)
      else
        var p1 := Candidate(s, q, k, num.sqrt(delta), 1.0);
        var p2 := Candidate(s, q, k, num.sqrt(delta), -1.0);
        Fix(true, SelectBestSolution(p1, p2, lastPos, hasLast, num.norm))
  }

  /** The entries of row `r` of a matrix buffer. */
  function RowOf(m: array2<real>, r: nat): (row: Vector)
    reads m
    requires r < m.Length0
    ensures |row| == m.Length1
  {
    seq(m.Length1, c requires 0 <= c < m.Length1 reads m => m[r, c])
  }

  /** A matrix buffer as a sequence of rows. */
  function MatrixOf(m: array2<real>): (rows: Matrix)
    reads m
    ensures |rows| == m.Length0
  {
    seq(m.Length0, r requires 0 <= r < m.Length0 reads m => RowOf(m, r))
  }

  /** The least-squares loop: fills A and b row by row, one row per anchor after the reference. */
  method FillLeastSquares(anchors: seq<Vec3>, times: seq<real>) returns (a: array2<real>, b: array<real>)
    requires 1 <= |anchors| <= |times|
    ensures fresh(a) && fresh(b)
    ensures MatrixOf(a) == LsqSystem(anchors, times) && b[..] == LsqRhs(anchors, times)
  {
    var ref := anchors[0];
    var refT := times[0];
    var nEq := |anchors| - 1;
    a := new real[nEq, 4];
    b := new real[nEq];
    var i := 1;
    while i < |anchors|
      invariant 1 <= i <= |anchors|
      invariant forall r, c :: 0 <= r < i - 1 && 0 <= c < 4 ==>
        a[r, c] == LsqRow(ref, refT, anchors[r + 1], times[r + 1])[c]
      invariant forall r :: 0 <= r < i - 1 ==> b[r] == RangeRhs(ref, refT, anchors[r + 1], times[r + 1])
    {
      var dd := times[i] - refT;
      var g := GeoRow(ref, anchors[i]);
      a[i - 1, 0] := g.x;
      a[i - 1, 1] := g.y;
      a[i - 1, 2] := g.z;
      a[i - 1, 3] := -2.0 * dd;
      b[i - 1] := dd * dd - (SqNorm(anchors[i]) - SqNorm(ref));
      i := i + 1;
    }
    forall r | 0 <= r < nEq ensures MatrixOf(a)[r] == LsqSystem(anchors, times)[r] {
      assert RowOf(a, r) == LsqRow(ref, refT, anchors[r + 1], times[r + 1]);
    }
  }

  /** The four-anchor loop: fills the 3x3 matrix A, b and the drift column v for anchors 1 to 3. */
  method FillQuadratic(anchors: seq<Vec3>, times: seq<real>) returns (a: array2<real>, b: array<real>, v: array<real>)
    requires MinAnchorCount <= |anchors| <= |times|
    ensures fresh(a) && fresh(b) && fresh(v)
    ensures MatrixOf(a) == QuadSystem(anchors)
    ensures b[..] == QuadRhs(anchors, times) && v[..] == QuadDrift(anchors, times)
  {
    var ref := anchors[0];
    var refT := times[0];
    a := new real[3, 3];
    b := new real[3];
    v := new real[3];
    var i := 1;
    while i < 4
      invariant 1 <= i <= 4
      invariant forall r, c :: 0 <= r < i - 1 && 0 <= c < 3 ==>
        a[r, c] == ToVector(GeoRow(ref, anchors[r + 1]))[c]
      invariant forall r :: 0 <= r < i - 1 ==>
        b[r] == RangeRhs(ref, refT, anchors[r + 1], times[r + 1]) && v[r] == Drift(refT, times[r + 1])
    {
      var dd := times[i] - refT;
      var g := GeoRow(ref, anchors[i]);
      a[i - 1, 0] := g.x;
      a[i - 1, 1] := g.y;
      a[i - 1, 2] := g.z;
      b[i - 1] := dd * dd - (SqNorm(anchors[i]) - SqNorm(ref));
      v[i - 1] := 2.0 * dd;
      i := i + 1;
    }
    forall r | 0 <= r < 3 ensures MatrixOf(a)[r] == QuadSystem(anchors)[r] {
      assert RowOf(a, r) == ToVector(GeoRow(ref, anchors[r + 1]));
    }
  }

  /**
   * The solver: fewer than four anchors fail at once; five or more solve
   * the least-squares system; exactly four solve the 3x3 system for S and
   * Q and fail when the quadratic in r_0 has no real root, otherwise
   * choose between its two roots.
   */
  method MlatSolver(anchors: seq<Vec3>, times: seq<real>, lastPos: Vec3, hasLast: bool, num: MlatNumerics)
    returns (found: bool, position: Vec3)
    requires |anchors| < MinAnchorCount || |anchors| <= |times|
    ensures Fix(found, position) == Multilaterate(anchors, times, lastPos, hasLast, num)
  {
    if |anchors| < MinAnchorCount {
      return false, Origin;
    }
    var ref := anchors[0];
    if |anchors| >= LeastSquaresAnchorCount {
      var a, b := FillLeastSquares(anchors, times);
      var result := num.solve(MatrixOf(a), b[..]);
      return true, Head3(result);
    }
    var a, b, v := FillQuadratic(anchors, times);
    var s := Head3(num.solve(MatrixOf(a), b[..]));
    var q := Head3(num.solve(MatrixOf(a), v[..]));
    assert s == Particular(anchors, times, num) && q == Direction(anchors, times, num);
    var d := Sub(s, ref);
    var qa, qb, qc := Dot3(q, q) - 1.0, 2.0 * Dot3(q, d), Dot3(d, d);
    var delta := qb * qb - 4.0 * qa * qc;
    if delta < 0.0 {
      return false, Origin;
    }
    var t1 := if qa == 0.0 then 0.0 else (-qb + num.sqrt(delta)) / (2.0 * qa);
    var t2 := if qa == 0.0 then 0.0 else (-qb - num.sqrt(delta)) / (2.0 * qa);
    ghost var k := RangeQuadratic(s, q, ref);
    assert k == Quadratic(qa, qb, qc) && delta == Discriminant(k);
    assert t1 == Root(k, num.sqrt(delta), 1.0) && t2 == Root(k, num.sqrt(delta), -1.0);
    var p1 := Add(s, Scale(t1, q));
    var p2 := Add(s, Scale(t2, q));
    assert p1 == Candidate(s, q, k, num.sqrt(delta), 1.0) && p2 == Candidate(s, q, k, num.sqrt(delta), -1.0);
    return true, SelectBestSolution(p1, p2, lastPos, hasLast, num.norm);
  }

  /*
   * What the linearisation promises: with exact arrival times the true
   * position satisfies every row, and with exact solves the solver finds it.
   */

  /** Arrival times that are the emitter's distances to the anchors plus a common offset (the unknown emission time). */
  ghost predicate ExactTimes(anchors: seq<Vec3>, times: seq<real>, p: Vec3, norm: Vec3 -> real, offset: real) {
    |anchors| <= |times| && forall i :: 0 <= i < |anchors| ==> times[i] == norm(Sub(p, anchors[i])) + offset
  }

  /** A square root that is exact on the non-negative reals. */
  ghost predicate ExactSqrt(sqrt: real -> real) {
    forall x :: 0.0 <= x ==> IsSqrt(sqrt(x), x)
  }

  lemma SquareOfSum(d: real, t: real, q: real)
    ensures (d + t * q) * (d + t * q) == d * d + 2.0 * t * (q * d) + t * t * (q * q)
  {
  }

  /** A 3-entry inner product, entry by entry. */
  lemma {:induction false} Dot3Entries(u: Vector, w: Vector)
    requires |u| == 3 && |w| == 3
    ensures Dot(u, w) == u[0] * w[0] + u[1] * w[1] + u[2] * w[2]
  {
    var u1, w1 := u[1..], w[1..];
    var u2, w2 := u1[1..], w1[1..];
    assert u1[0] == u[1] && w1[0] == w[1] && u2[0] == u[2] && w2[0] == w[2];
    assert Dot(u2[1..], w2[1..]) == 0.0;
    assert Dot(u2, w2) == u[2] * w[2];
    assert Dot(u1, w1) == u[1] * w[1] + u[2] * w[2];
  }

  /** The inner product of two positions as column vectors is Dot3. */
  lemma DotToVector(u: Vec3, w: Vec3)
    ensures Dot(ToVector(u), ToVector(w)) == Dot3(u, w)
  {
    Dot3Entries(ToVector(u), ToVector(w));
  }

  /** The difference of the squared distances from p to a and to ref is linear in p. */
  lemma SqDistDifference(p: Vec3, a: Vec3, ref: Vec3)
    ensures SqDist(p, a) - SqDist(p, ref) == Dot3(GeoRow(ref, a), p) + SqNorm(a) - SqNorm(ref)
  {
    SqDistExpanded(p, a);
    SqDistExpanded(p, ref);
    GeoRowDot(ref, a, p);
  }

  /** |p - a|^2 == |p|^2 - 2 p.a + |a|^2. */
  lemma SqDistExpanded(p: Vec3, a: Vec3)
    ensures SqDist(p, a) == SqNorm(p) - 2.0 * Dot3(p, a) + SqNorm(a)
  {
  }

  /** The row of anchor `a` applied to p: 2 (ref - a).p == 2 p.ref - 2 p.a. */
  lemma GeoRowDot(ref: Vec3, a: Vec3, p: Vec3)
    ensures Dot3(GeoRow(ref, a), p) == 2.0 * Dot3(p, ref) - 2.0 * Dot3(p, a)
  {
  }

  /** Two distances whose difference is the arrival-time difference dd: r_i^2 - r_0^2 == r_0 2 dd + dd^2. */
  lemma RangeDifference(r0: real, ri: real, refT: real, t: real)
    requires t - refT == ri - r0
    ensures ri * ri - r0 * r0 == DriftTerm(refT, t, r0) + (t - refT) * (t - refT)
  {
    assert ri == r0 + (t - refT);
  }

  /**
   * One linearised row is exact: if r_0 and r_i are the true distances to
   * the reference and to anchor a, and the arrival times differ by
   * dd = r_i - r_0, then 2 (ref - a) . p equals the row's right-hand side
   * plus r_0 2 dd.
   */
  lemma RowIdentity(ref: Vec3, refT: real, a: Vec3, t: real, p: Vec3, r0: real, ri: real)
    requires IsSqrt(r0, SqDist(p, ref)) && IsSqrt(ri, SqDist(p, a)) && t - refT == ri - r0
    ensures Dot3(GeoRow(ref, a), p) == RangeRhs(ref, refT, a, t) + DriftTerm(refT, t, r0)
  {
    SqDistDifference(p, a, ref);
    RangeDifference(r0, ri, refT, t);
    assert RangeRhs(ref, refT, a, t) == (t - refT) * (t - refT) - (SqNorm(a) - SqNorm(ref));
  }

  /** The unknowns of the least-squares system: the position, then the distance to the reference. */
  function Unknowns(p: Vec3, r0: real): (x: Vector)
    ensures |x| == 4
  {
    [p.x, p.y, p.z, r0]
  }

  /** A least-squares row applied to the unknowns: the geometric part minus r_0 2 dd. */
  lemma {:induction false} DotLsqRow(ref: Vec3, refT: real, a: Vec3, t: real, p: Vec3, r0: real)
    ensures Dot(LsqRow(ref, refT, a, t), Unknowns(p, r0)) == Dot3(GeoRow(ref, a), p) - DriftTerm(refT, t, r0)
  {
    var row, x := LsqRow(ref, refT, a, t), Unknowns(p, r0);
    Dot3Entries(row[1..], x[1..]);
    assert Dot(row, x) == row[0] * x[0] + Dot(row[1..], x[1..]);
  }

  /** The least-squares row of one anchor holds at the true position and reference distance. */
  lemma LsqRowExact(ref: Vec3, refT: real, a: Vec3, t: real, p: Vec3, r0: real, ri: real)
    requires IsSqrt(r0, SqDist(p, ref)) && IsSqrt(ri, SqDist(p, a)) && t - refT == ri - r0
    ensures Dot(LsqRow(ref, refT, a, t), Unknowns(p, r0)) == RangeRhs(ref, refT, a, t)
  {
    DotLsqRow(ref, refT, a, t, p, r0);
    RowIdentity(ref, refT, a, t, p, r0, ri);
  }

  /**
   * With exact arrival times, the true position together with its distance
   * to the reference anchor solves the least-squares system exactly.
   */
  lemma ExactTimesSolveLeastSquares(anchors: seq<Vec3>, times: seq<real>, p: Vec3, norm: Vec3 -> real, offset: real)
    requires 1 <= |anchors| && EuclideanNorm(norm) && ExactTimes(anchors, times, p, norm, offset)
    ensures MatVec(LsqSystem(anchors, times), Unknowns(p, norm(Sub(p, anchors[0])))) == LsqRhs(anchors, times)
  {
    var x := Unknowns(p, norm(Sub(p, anchors[0])));
    var m, b := LsqSystem(anchors, times), LsqRhs(anchors, times);
    forall i | 0 <= i < |anchors| - 1 ensures MatVec(m, x)[i] == b[i] {
      var r0, ri := norm(Sub(p, anchors[0])), norm(Sub(p, anchors[i + 1]));
      assert IsSqrt(r0, SqDist(p, anchors[0])) && IsSqrt(ri, SqDist(p, anchors[i + 1]));
      assert times[i + 1] - times[0] == ri - r0;
      LsqRowExact(anchors[0], times[0], anchors[i + 1], times[i + 1], p, r0, ri);
    }
  }

  /** b + r_0 v: the right-hand sides of the four-anchor system once r_0 is known. */
  function ShiftedRhs(anchors: seq<Vec3>, times: seq<real>, r0: real): (b: Vector)
    requires MinAnchorCount <= |anchors| <= |times|
    ensures |b| == 3
  {
    seq(3, i requires 0 <= i < 3 =>
      RangeRhs(anchors[0], times[0], anchors[i + 1], times[i + 1]) + DriftTerm(times[0], times[i + 1], r0))
  }

  /**
   * With exact arrival times, the true position solves the four-anchor
   * system A p = b + r_0 v, r_0 being its distance to the reference anchor.
   */
  lemma ExactTimesSolveQuadSystem(anchors: seq<Vec3>, times: seq<real>, p: Vec3, norm: Vec3 -> real, offset: real)
    requires MinAnchorCount <= |anchors| && EuclideanNorm(norm) && ExactTimes(anchors, times, p, norm, offset)
    ensures MatVec(QuadSystem(anchors), ToVector(p)) == ShiftedRhs(anchors, times, norm(Sub(p, anchors[0])))
  {
    var r0 := norm(Sub(p, anchors[0]));
    var m, b := QuadSystem(anchors), ShiftedRhs(anchors, times, r0);
    forall i | 0 <= i < 3 ensures MatVec(m, ToVector(p))[i] == b[i] {
      var ri := norm(Sub(p, anchors[i + 1]));
      assert IsSqrt(r0, SqDist(p, anchors[0])) && IsSqrt(ri, SqDist(p, anchors[i + 1]));
      assert times[i + 1] - times[0] == ri - r0;
      DotToVector(GeoRow(anchors[0], anchors[i + 1]), p);
      RowIdentity(anchors[0], times[0], anchors[i + 1], times[i + 1], p, r0, ri);
    }
  }

  /**
   * If p = S + r_0 Q lies at distance r_0 from the reference, then r_0 is
   * a root of the quadratic the solver builds from S and Q.
   */
  lemma TrueRangeIsRoot(s: Vec3, q: Vec3, ref: Vec3, r0: real)
    requires IsSqrt(r0, SqDist(Add(s, Scale(r0, q)), ref))
    ensures Eval(RangeQuadratic(s, q, ref), r0) == 0.0
  {
    QuadraticAlongLine(s, q, ref, r0);
  }

  /** Along the line S + t Q, the quadratic measures |S + t Q - ref|^2 - t^2. */
  lemma QuadraticAlongLine(s: Vec3, q: Vec3, ref: Vec3, t: real)
    ensures Eval(RangeQuadratic(s, q, ref), t) == SqDist(Add(s, Scale(t, q)), ref) - t * t
  {
    var d := Sub(s, ref);
    calc {
      Eval(RangeQuadratic(s, q, ref), t);
      Eval(Quadratic(Dot3(q, q) - 1.0, 2.0 * Dot3(q, d), Dot3(d, d)), t);
      { QuadraticAlongOffset(d, q, t); }
      SqNorm(Add(d, Scale(t, q))) - t * t;
      { assert Sub(Add(s, Scale(t, q)), ref) == Add(d, Scale(t, q)); }
      SqDist(Add(s, Scale(t, q)), ref) - t * t;
    }
  }

  /** QuadraticAlongLine for the offset d = S - ref. */
  lemma QuadraticAlongOffset(d: Vec3, q: Vec3, t: real)
    ensures Eval(Quadratic(Dot3(q, q) - 1.0, 2.0 * Dot3(q, d), Dot3(d, d)), t) == SqNorm(Add(d, Scale(t, q))) - t * t
  {
    SqNormAlongLine(d, q, t);
    QuadraticRearranged(SqNorm(Add(d, Scale(t, q))), Dot3(q, q), Dot3(q, d), Dot3(d, d), t);
  }

  /** The coefficients of RangeQuadratic regrouped as SqNormAlongLine states them. */
  lemma QuadraticRearranged(sq: real, qq: real, qd: real, dd: real, t: real)
    requires sq == dd + 2.0 * t * qd + t * t * qq
    ensures Eval(Quadratic(qq - 1.0, 2.0 * qd, dd), t) == sq - t * t
  {
  }

  /** |d + t q|^2 == d.d + 2 t (q.d) + t^2 (q.q). */
  lemma SqNormAlongLine(d: Vec3, q: Vec3, t: real)
    ensures SqNorm(Add(d, Scale(t, q))) == Dot3(d, d) + 2.0 * t * Dot3(q, d) + t * t * Dot3(q, q)
  {
    SquareOfSum(d.x, t, q.x);
    SquareOfSum(d.y, t, q.y);
    SquareOfSum(d.z, t, q.z);
    Distribute(2.0 * t, q.x * d.x, q.y * d.y, q.z * d.z);
    Distribute(t * t, q.x * q.x, q.y * q.y, q.z * q.z);
  }

  lemma Distribute(k: real, a: real, b: real, c: real)
    ensures k * a + k * b + k * c == k * (a + b + c)
  {
  }

  /** A quadratic with a real root has a non-negative discriminant: it is (2 a x + b)^2. */
  lemma RootDiscriminant(k: Quadratic, x: real)
    requires Eval(k, x) == 0.0
    ensures Discriminant(k) == (2.0 * k.a * x + k.b) * (2.0 * k.a * x + k.b)
    ensures Discriminant(k) >= 0.0
  {
    var u := 2.0 * k.a * x + k.b;
    assert u * u == 4.0 * k.a * (k.a * x * x + k.b * x) + k.b * k.b;
  }

  /**
   * Given an exact square root of the discriminant and a non-zero leading
   * coefficient, every root of the quadratic is one of the two that the
   * solver computes.
   */
  lemma RootIsComputed(k: Quadratic, x: real, sqrtDelta: real)
    requires Eval(k, x) == 0.0 && k.a != 0.0
    requires IsSqrt(sqrtDelta, Discriminant(k))
    ensures x == Root(k, sqrtDelta, 1.0) || x == Root(k, sqrtDelta, -1.0)
  {
    RootDiscriminant(k, x);
    var u := 2.0 * k.a * x + k.b;
    assert (u - sqrtDelta) * (u + sqrtDelta) == 0.0;
    if u == sqrtDelta {
      assert x * (2.0 * k.a) == -k.b + 1.0 * sqrtDelta;
    } else {
      assert u == -sqrtDelta;
      assert x * (2.0 * k.a) == -k.b + -1.0 * sqrtDelta;
    }
  }

  /**
   * Five or more anchors with exact arrival times: when the system has full
   * column rank and the solve is exact, the solver returns the true position.
   */
  lemma LeastSquaresFindsExact(anchors: seq<Vec3>, times: seq<real>, p: Vec3, offset: real, lastPos: Vec3,
                               hasLast: bool, num: MlatNumerics)
    requires LeastSquaresAnchorCount <= |anchors| && EuclideanNorm(num.norm)
    requires ExactTimes(anchors, times, p, num.norm, offset)
    requires var m, b := LsqSystem(anchors, times), LsqRhs(anchors, times);
      |num.solve(m, b)| == 4 && MatVec(m, num.solve(m, b)) == b
    requires var m := LsqSystem(anchors, times);
      forall x, y :: |x| == 4 && |y| == 4 && MatVec(m, x) == MatVec(m, y) ==> x == y
    ensures Multilaterate(anchors, times, lastPos, hasLast, num) == Fix(true, p)
  {
    var m, b := LsqSystem(anchors, times), LsqRhs(anchors, times);
    var x := Unknowns(p, num.norm(Sub(p, anchors[0])));
    ExactTimesSolveLeastSquares(anchors, times, p, num.norm, offset);
    assert num.solve(m, b) == x;
  }

  /**
   * A row applied to S + r_0 Q: when the row maps S to `bs` and Q to the
   * drift coefficient of an anchor, it maps S + r_0 Q to bs + r_0 2 dd.
   */
  lemma LineRow(row: Vector, s: Vec3, q: Vec3, r0: real, refT: real, t: real, bs: real)
    requires |row| == 3 && Dot(row, ToVector(s)) == bs && Dot(row, ToVector(q)) == Drift(refT, t)
    ensures Dot(row, ToVector(Add(s, Scale(r0, q)))) == bs + DriftTerm(refT, t, r0)
  {
    DotAlongLine(row, s, q, r0);
  }

  /** A row is linear along the line S + t Q. */
  lemma DotAlongLine(row: Vector, s: Vec3, q: Vec3, t: real)
    requires |row| == 3
    ensures Dot(row, ToVector(Add(s, Scale(t, q)))) == Dot(row, ToVector(s)) + t * Dot(row, ToVector(q))
  {
    Dot3Entries(row, ToVector(Add(s, Scale(t, q))));
    Dot3Entries(row, ToVector(s));
    Dot3Entries(row, ToVector(q));
    Distribute(t, row[0] * q.x, row[1] * q.y, row[2] * q.z);
  }

  /**
   * Exactly four anchors with exact arrival times: when A is non-singular
   * and S and Q solve A S = b and A Q = v exactly, the true position is
   * S + r_0 Q, r_0 being its distance to the reference anchor.
   */
  lemma ExactSolvesGiveLine(anchors: seq<Vec3>, times: seq<real>, p: Vec3, norm: Vec3 -> real, offset: real,
                            s: Vec3, q: Vec3)
    requires MinAnchorCount <= |anchors| && EuclideanNorm(norm) && ExactTimes(anchors, times, p, norm, offset)
    requires var m := QuadSystem(anchors);
      && MatVec(m, ToVector(s)) == QuadRhs(anchors, times)
      && MatVec(m, ToVector(q)) == QuadDrift(anchors, times)
      && forall u, w :: MatVec(m, ToVector(u)) == MatVec(m, ToVector(w)) ==> u == w
    ensures p == Add(s, Scale(norm(Sub(p, anchors[0])), q))
  {
    var m := QuadSystem(anchors);
    var r0 := norm(Sub(p, anchors[0]));
    ExactTimesSolveQuadSystem(anchors, times, p, norm, offset);
    forall i | 0 <= i < 3 ensures MatVec(m, ToVector(Add(s, Scale(r0, q))))[i] == MatVec(m, ToVector(p))[i] {
      assert Dot(m[i], ToVector(s)) == MatVec(m, ToVector(s))[i] == QuadRhs(anchors, times)[i];
      assert Dot(m[i], ToVector(q)) == MatVec(m, ToVector(q))[i] == QuadDrift(anchors, times)[i];
      LineRow(m[i], s, q, r0, times[0], times[i + 1], QuadRhs(anchors, times)[i]);
    }
    assert MatVec(m, ToVector(Add(s, Scale(r0, q)))) == MatVec(m, ToVector(p));
  }

  /**
   * Exactly four anchors with exact arrival times: when the 3x3 system is
   * non-singular and its solves are exact, the discriminant guard never
   * rejects the geometry, and (for a non-zero leading coefficient and an
   * exact square root) the true position is one of the two candidates.
   */
  lemma FourAnchorsFindExact(anchors: seq<Vec3>, times: seq<real>, p: Vec3, offset: real, lastPos: Vec3,
                             hasLast: bool, num: MlatNumerics)
    requires |anchors| == MinAnchorCount && EuclideanNorm(num.norm)
    requires ExactTimes(anchors, times, p, num.norm, offset)
    requires var m := QuadSystem(anchors);
      && MatVec(m, ToVector(Particular(anchors, times, num))) == QuadRhs(anchors, times)
      && MatVec(m, ToVector(Direction(anchors, times, num))) == QuadDrift(anchors, times)
      && forall u, w :: MatVec(m, ToVector(u)) == MatVec(m, ToVector(w)) ==> u == w
    ensures Multilaterate(anchors, times, lastPos, hasLast, num).found
    ensures var s, q := Particular(anchors, times, num), Direction(anchors, times, num);
      var k := RangeQuadratic(s, q, anchors[0]);
      ExactSqrt(num.sqrt) && k.a != 0.0 ==>
        p == Candidate(s, q, k, num.sqrt(Discriminant(k)), 1.0) || p == Candidate(s, q, k, num.sqrt(Discriminant(k)), -1.0)
  {
    var s, q := Particular(anchors, times, num), Direction(anchors, times, num);
    var r0 := num.norm(Sub(p, anchors[0]));
    var k := RangeQuadratic(s, q, anchors[0]);
    ExactSolvesGiveLine(anchors, times, p, num.norm, offset, s, q);
    assert IsSqrt(r0, SqDist(Add(s, Scale(r0, q)), anchors[0]));
    TrueRangeIsRoot(s, q, anchors[0], r0);
    RootDiscriminant(k, r0);
    if ExactSqrt(num.sqrt) && k.a != 0.0 {
      RootIsComputed(k, r0, num.sqrt(Discriminant(k)));
    }
  }
}
