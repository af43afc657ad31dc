/**
 * The per-neighbour Extended Kalman Filter (TDoAEKF.h, TDoAEKF.cpp).
 *
 * The state is the 7-vector [x, y, z, vx, vy, vz, b]: position, velocity and
 * the clock bias expressed in metres. The filter's value is a `Filter`; the
 * class `TDoAEKF` holds the same three parts as fields that `Init`,
 * `Predict` and `Update` overwrite. The Euclidean norm and the matrix inverse
 * of the gain computation are parameters of `Update`.
 */
module Ekf {
  import opened Geometry
  import opened Matrices

  const SpeedOfLight: real := 299792458.0
  const StateSize: nat := 7
  /** R = MeasurementNoise * I, the same for every observation. */
  const MeasurementNoise: real := 2.0
  /** Added to the geometric distance before dividing by it (1e-9). */
  const DistanceEpsilon: real := 0.000000001

  /** One observation as the filter sees it (TDoAEKF::Msmnt). */
  datatype Msmnt = Msmnt(anchorPos: Vec3, toa: real, txTimestamp: real)

  /** State vector, covariance P and process noise Q. */
  datatype Filter = Filter(state: Vector, P: Matrix, Q: Matrix)

  ghost predicate WellFormed(f: Filter) {
    |f.state| == StateSize && IsMatrix(f.P, StateSize, StateSize) && f.Q == Identity(StateSize)
  }

  function Zeros(n: nat): (z: Vector)
    ensures |z| == n
  {
    seq(n, _ => 0.0)
  }

  function PositionOf(state: Vector): Vec3
    requires |state| >= 3
  {
    Vec3(state[0], state[1], state[2])
  }

  /** The state `Init` writes: the seed position, zero velocity, zero bias. */
  function InitialState(p: Vec3): (s: Vector)
    ensures s == [p.x, p.y, p.z, 0.0, 0.0, 0.0, 0.0]
  {
    Zeros(StateSize)[0 := p.x][1 := p.y][2 := p.z][6 := 0.0]
  }

  /**
   * The covariance `Init` writes: the identity with its position block
   * scaled by 5, its velocity block by 1, and a bias variance of 500.
   */
  function InitialCovariance(): (P: Matrix)
    ensures IsMatrix(P, StateSize, StateSize)
    ensures forall i, j :: 0 <= i < StateSize && 0 <= j < StateSize ==>
      P[i][j] == (if i != j then 0.0 else if i < 3 then 5.0 else if i < 6 then 1.0 else 500.0)
  {
    var I := Identity(StateSize);
    var positionScaled := seq(StateSize, i requires 0 <= i < StateSize =>
      seq(StateSize, j requires 0 <= j < StateSize => if i < 3 && j < 3 then I[i][j] * 5.0 else I[i][j]));
    var velocityScaled := seq(StateSize, i requires 0 <= i < StateSize =>
      seq(StateSize, j requires 0 <= j < StateSize =>
        if 3 <= i < 6 && 3 <= j < 6 then positionScaled[i][j] * 1.0 else positionScaled[i][j]));
    velocityScaled[6 := velocityScaled[6][6 := 500.0]]
  }

  /** The process noise `Init` writes: the identity times 1, then Q(6,6) = 1. */
  function InitialNoise(): (Q: Matrix)
    ensures Q == Identity(StateSize)
  {
    var I := Identity(StateSize);
    var scaled := MatScale(1.0, I);
    forall i | 0 <= i < StateSize
      ensures scaled[i] == I[i]
    {
      assert forall j :: 0 <= j < StateSize ==> scaled[i][j] == I[i][j];
    }
    assert scaled == I;
    assert scaled[6][6 := 1.0] == I[6];
    scaled[6 := scaled[6][6 := 1.0]]
  }

  function Initial(p: Vec3): (f: Filter)
    ensures WellFormed(f)
  {
    Filter(InitialState(p), InitialCovariance(), InitialNoise())
  }

  /** The constant-velocity transition: the identity with F(i, i+3) = dt for i < 3. */
  function Transition(dt: real): (F: Matrix)
    ensures IsMatrix(F, StateSize, StateSize)
    ensures forall i, j :: 0 <= i < StateSize && 0 <= j < StateSize ==>
      F[i][j] == (if i == j then 1.0 else if i < 3 && j == i + 3 then dt else 0.0)
  {
    var I := Identity(StateSize);
    I[0 := I[0][3 := dt]][1 := I[1][4 := dt]][2 := I[2][5 := dt]]
  }

  /** What `Predict(dt)` makes of a filter: x' = F x, P' = F P F^T + Q, no-op for dt <= 0. */
  function Predicted(f: Filter, dt: real): (r: Filter)
    ensures WellFormed(f) ==> WellFormed(r)
  {
    if dt <= 0.0 then f
    else
      var F := Transition(dt);
      Filter(MatVec(F, f.state), MatAdd(MatMul(MatMul(F, f.P), Transpose(F)), f.Q), f.Q)
  }

  /**
   * Prediction moves the position by velocity times dt and leaves velocity
   * and clock bias as they were; a non-positive dt changes nothing.
   */
  lemma PredictAdvancesPosition(f: Filter, dt: real)
    requires |f.state| == StateSize
    ensures |Predicted(f, dt).state| == StateSize
    ensures dt <= 0.0 ==> Predicted(f, dt) == f
    ensures dt > 0.0 ==> forall i :: 0 <= i < 3 ==>
      Predicted(f, dt).state[i] == f.state[i] + dt * f.state[i + 3]
    ensures dt > 0.0 ==> forall i :: 3 <= i < StateSize ==>
      Predicted(f, dt).state[i] == f.state[i]
  {
    if dt > 0.0 {
      var F := Transition(dt);
      var s := Predicted(f, dt).state;
      forall i | 0 <= i < 3
        ensures s[i] == f.state[i] + dt * f.state[i + 3]
      {
        DotTwoHot(F[i], f.state, i, i + 3);
      }
      forall i | 3 <= i < StateSize
        ensures s[i] == f.state[i]
      {
        DotOneHot(F[i], f.state, i);
      }
    }
  }

  /**
   * Row and column 6 of F are those of the identity and Q(6,6) = 1, so each
   * prediction step adds exactly 1 to the bias variance.
   */
  lemma PredictGrowsBiasVariance(f: Filter, dt: real)
    requires WellFormed(f)
    ensures Predicted(f, dt).P[6][6] == f.P[6][6] + (if dt > 0.0 then 1.0 else 0.0)
  {
    if dt > 0.0 {
      var F := Transition(dt);
      var FP := MatMul(F, f.P);
      forall j | 0 <= j < StateSize
        ensures FP[6][j] == f.P[6][j]
      {
        DotOneHot(F[6], Column(f.P, j), 6);
      }
      assert FP[6] == f.P[6];
      var FT := Transpose(F);
      assert Column(FT, 6) == F[6];
      DotCommutes(FP[6], F[6]);
      DotOneHot(F[6], f.P[6], 6);
      assert MatMul(FP, FT)[6][6] == f.P[6][6];
    }
  }

  /** Pseudorange of one observation: (arrival - transmit time) * c. */
  function Pseudorange(m: Msmnt): real {
    (m.toa - m.txTimestamp) * SpeedOfLight
  }

  /** Predicted pseudorange: distance from the anchor to the estimate plus the bias. */
  function PredictedRange(est: Vec3, bias: real, m: Msmnt, norm: Vec3 -> real): real {
    norm(Sub(est, m.anchorPos)) + bias
  }

  /** The observation Jacobian row: unit direction, zero velocity columns, 1 for the bias. */
  function JacobianRow(est: Vec3, m: Msmnt, norm: Vec3 -> real): (row: Vector)
    requires NonNegativeNorm(norm)
  {
    var d := Sub(est, m.anchorPos);
    var safeDist := norm(d) + DistanceEpsilon;
    [d.x / safeDist, d.y / safeDist, d.z / safeDist, 0.0, 0.0, 0.0, 1.0]
  }

  function Residuals(ms: seq<Msmnt>): (z: Vector)
    ensures |z| == |ms|
  {
    seq(|ms|, i requires 0 <= i < |ms| => Pseudorange(ms[i]))
  }

  function Predictions(est: Vec3, bias: real, ms: seq<Msmnt>, norm: Vec3 -> real): (h: Vector)
    ensures |h| == |ms|
  {
    seq(|ms|, i requires 0 <= i < |ms| => PredictedRange(est, bias, ms[i], norm))
  }

  function Jacobian(est: Vec3, ms: seq<Msmnt>, norm: Vec3 -> real): (H: Matrix)
    requires NonNegativeNorm(norm)
    ensures |H| == |ms|
  {
    seq(|ms|, i requires 0 <= i < |ms| => JacobianRow(est, ms[i], norm))
  }

  /** S = H P H^T + R. */
  function InnovationCovariance(P: Matrix, H: Matrix): Matrix {
    MatAdd(MatMul(MatMul(H, P), Transpose(H)), MatScale(MeasurementNoise, Identity(|H|)))
  }

  /** K = P H^T S^-1, with the inverse supplied by the caller. */
  function Gain(P: Matrix, H: Matrix, inverse: Matrix -> Matrix): Matrix {
    MatMul(MatMul(P, Transpose(H)), inverse(InnovationCovariance(P, H)))
  }

  /** What `Update(ms)` makes of a filter: nothing for no observations, else the Kalman step. */
  function Updated(f: Filter, ms: seq<Msmnt>, norm: Vec3 -> real, inverse: Matrix -> Matrix): (r: Filter)
    requires |f.state| == StateSize && NonNegativeNorm(norm)
    ensures WellFormed(f) ==> WellFormed(r)
  {
    if |ms| == 0 then f
    else
      var est := PositionOf(f.state);
      var H := Jacobian(est, ms, norm);
      var y := VecSub(Residuals(ms), Predictions(est, f.state[6], ms, norm));
      var K := Gain(f.P, H, inverse);
      Filter(VecAdd(f.state, MatVec(K, y)), MatMul(MatSub(Identity(StateSize), MatMul(K, H)), f.P), f.Q)
  }

  /**
   * The row-by-row loop of `Update`: the residual, the prediction and the
   * Jacobian row of each observation, in order.
   */
  method Linearize(est: Vec3, bias: real, ms: seq<Msmnt>, norm: Vec3 -> real)
    returns (Z: Vector, h: Vector, H: Matrix)
    requires NonNegativeNorm(norm)
    ensures Z == Residuals(ms) && h == Predictions(est, bias, ms, norm) && H == Jacobian(est, ms, norm)
    ensures forall i :: 0 <= i < |ms| ==> Z[i] == (ms[i].toa - ms[i].txTimestamp) * SpeedOfLight
    ensures forall i :: 0 <= i < |ms| ==> h[i] == norm(Sub(est, ms[i].anchorPos)) + bias
    ensures IsMatrix(H, |ms|, StateSize)
    ensures forall i :: 0 <= i < |ms| ==>
      H[i][3] == 0.0 && H[i][4] == 0.0 && H[i][5] == 0.0 && H[i][6] == 1.0
  {
    Z, h, H := [], [], [];
    var i := 0;
    while i < |ms|
      invariant 0 <= i <= |ms|
      invariant Z == Residuals(ms[..i])
      invariant h == Predictions(est, bias, ms[..i], norm)
      invariant H == Jacobian(est, ms[..i], norm)
    {
      var anchor := ms[i].anchorPos;
      var pseudorange := (ms[i].toa - ms[i].txTimestamp) * SpeedOfLight;
      Z := Z + [pseudorange];
      var geoDist := norm(Sub(est, anchor));
      h := h + [geoDist + bias];
      var safeDist := geoDist + DistanceEpsilon;
      H := H + [[(est.x - anchor.x) / safeDist, (est.y - anchor.y) / safeDist, (est.z - anchor.z) / safeDist,
                 0.0, 0.0, 0.0, 1.0]];
      i := i + 1;
    }
    assert ms[..i] == ms;
  }

  class TDoAEKF {
    var state: Vector
    var P: Matrix
    var Q: Matrix

    function View(): Filter
      reads this
    {
      Filter(state, P, Q)
    }

    ghost predicate Valid()
      reads this
    {
      WellFormed(View())
    }

    /** A default-constructed filter: zero state, P = Q = identity. */
    constructor ()
      ensures Valid()
      ensures state == Zeros(StateSize) && P == Identity(StateSize) && Q == Identity(StateSize)
    {
      state := Zeros(StateSize);
      P := Identity(StateSize);
      Q := Identity(StateSize);
    }

    method Init(initPos: Vec3)
      modifies this
      ensures Valid() && View() == Initial(initPos)
    {
      state := InitialState(initPos);
      P := InitialCovariance();
      Q := InitialNoise();
    }

    method Predict(dt: real)
      requires Valid()
      modifies this
      ensures Valid() && View() == Predicted(old(View()), dt)
      ensures dt <= 0.0 ==> View() == old(View())
    {
      ghost var before := View();
      if dt <= 0.0 {
        return;
      }
      var F := Transition(dt);
      state := MatVec(F, state);
      P := MatAdd(MatMul(MatMul(F, P), Transpose(F)), Q);
      assert View() == Predicted(before, dt);
    }

    method Update(measurements: seq<Msmnt>, norm: Vec3 -> real, inverse: Matrix -> Matrix)
      requires Valid() && NonNegativeNorm(norm)
      modifies this
      ensures Valid() && View() == Updated(old(View()), measurements, norm, inverse)
      ensures |measurements| == 0 ==> View() == old(View())
    {
      if |measurements| == 0 {
        return;
      }
      var estPos := Position();
      var estBias := state[6];
      var Z, h, H := Linearize(estPos, estBias, measurements, norm);
      var y := VecSub(Z, h);
      var K := Gain(P, H, inverse);
      state := VecAdd(state, MatVec(K, y));
      P := MatMul(MatSub(Identity(StateSize), MatMul(K, H)), P);
    }

    /** The position part of the state, components 0..2. */
    function Position(): (p: Vec3)
      reads this
      requires Valid()
      ensures p == Vec3(state[0], state[1], state[2])
    {
      PositionOf(state)
    }
  }
}
