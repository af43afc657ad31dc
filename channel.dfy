/**
 * The UWB channel model (UWBChannel.h, UWBChannel.cpp): line-of-sight
 * decision, path loss, delay spread and ranging error for one link.
 *
 * Every random draw the source takes from the channel's generator is a field
 * of `ChannelDraws`, given as a uniform draw in [0, 1) or a standard normal
 * draw; the model scales them by the source's constants. The norm, `exp` and
 * `log10` are parameters.
 */
module Channel {
  import opened Geometry

  const NumSamples: nat := 20
  const FrequencyGhz: real := 6.5
  const FsplConstantDb: real := 92.45
  const LosShadowStdDb: real := 3.0
  const NlosShadowStdDb: real := 6.0
  const LosErrorStdM: real := 0.10
  const NlosErrorStdM: real := 0.50
  const NlosBiasMinM: real := 0.3
  const NlosBiasMaxM: real := 2.5

  datatype Obstacle = Obstacle(center: Vec3, radius: real)

  datatype ChannelCondition = ChannelCondition(
    isLos: bool,
    pathLossDb: real,
    delaySpreadNs: real,
    rssiDbm: real,
    rangingErrorM: real)

  /**
   * The draws one `ComputeChannelCondition` call consumes: the LOS draw
   * (uniform), the shadow-fading draw (normal), the LOS ranging noise
   * (normal), the NLOS bias (uniform) and the NLOS ranging noise (normal).
   */
  datatype ChannelDraws = ChannelDraws(
    losUniform: real,
    shadowNormal: real,
    losErrorNormal: real,
    nlosBiasUniform: real,
    nlosErrorNormal: real)

  /**
   * Sample `i` of the blockage test: the point at fraction i/20 of the way
   * from tx to rx. The source walks `direction * t` with the normalised
   * direction and t = (i/20) * |rx - tx|, which is the same point (and tx
   * itself when rx == tx, where Eigen leaves the zero vector unnormalised).
   */
  function Sample(tx: Vec3, rx: Vec3, i: int): Vec3 {
    Add(tx, Scale(i as real / NumSamples as real, Sub(rx, tx)))
  }

  /**
   * `p` lies strictly inside the obstacle. Stated on squares, so that no
   * square root is needed; `InsideMatchesNorm` shows this is exactly the
   * source's `norm < radius`, whatever the sign of the radius.
   */
  predicate Inside(p: Vec3, o: Obstacle) {
    0.0 < o.radius && SqDist(p, o.center) < o.radius * o.radius
  }

  lemma InsideMatchesNorm(p: Vec3, o: Obstacle, n: real)
    requires 0.0 <= n && n * n == SqDist(p, o.center)
    ensures Inside(p, o) <==> n < o.radius
  {
    if 0.0 < o.radius {
      SquaredComparison(n, o.radius);
    }
  }

  /** Some sample point i in 0..19 lies inside some obstacle (rx itself is never sampled). */
  ghost predicate Blocked(tx: Vec3, rx: Vec3, obstacles: seq<Obstacle>) {
    exists i, k :: 0 <= i < NumSamples && 0 <= k < |obstacles| && Inside(Sample(tx, rx, i), obstacles[k])
  }

  /** Distance scale of the LOS probability exp(-d / scale), by environment label. */
  function LosScale(environment: string): (scale: real)
    ensures scale > 0.0
  {
    if environment == "outdoor" then 500.0
    else if environment == "indoor" then 30.0
    else 150.0
  }

  /** The LOS decision: NLOS when blocked, otherwise LOS iff u < exp(-d / scale). */
  ghost function LosOutcome(environment: string, obstacles: seq<Obstacle>, tx: Vec3, rx: Vec3, u: real,
                            norm: Vec3 -> real, exp: real -> real): bool
  {
    !Blocked(tx, rx, obstacles) && u < exp(-norm(Sub(rx, tx)) / LosScale(environment))
  }

  /**
   * Free-space loss at 6.5 GHz with the constant 92.45, plus shadow fading
   * (std 3 dB) under LOS, or an environment-dependent excess loss and
   * heavier fading (std 6 dB) under NLOS.
   */
  function PathLoss(d: real, isLos: bool, environment: string, shadowNormal: real, log10: real -> real): real {
    var fsplDb := 20.0 * log10(d) + 20.0 * log10(FrequencyGhz) + FsplConstantDb;
    if isLos then fsplDb + LosShadowStdDb * shadowNormal
    else
      var excessDb :=
        if environment == "outdoor" then 5.0 + 10.0 * log10(d / 10.0)
        else 10.0 + 15.0 * log10(d / 10.0);
      fsplDb + excessDb + NlosShadowStdDb * shadowNormal
  }

  /**
   * At the same shadow-fading draw, the NLOS loss is the LOS loss plus the
   * environment's excess loss plus the extra fading (6 - 3 dB per unit of
   * the draw); without fading and with a non-negative excess it is larger.
   */
  lemma PathLossNlosExcess(d: real, environment: string, shadowNormal: real, log10: real -> real)
    ensures var excessDb :=
        if environment == "outdoor" then 5.0 + 10.0 * log10(d / 10.0) else 10.0 + 15.0 * log10(d / 10.0);
      PathLoss(d, false, environment, shadowNormal, log10)
        == PathLoss(d, true, environment, shadowNormal, log10) + excessDb + (NlosShadowStdDb - LosShadowStdDb) * shadowNormal
    ensures 0.0 <= log10(d / 10.0) ==>
      PathLoss(d, true, environment, 0.0, log10) < PathLoss(d, false, environment, 0.0, log10)
  {
  }

  /** Delay spread in ns: 5 + 0.02 d under LOS; 15 + 0.1 d outdoors and 25 + 0.3 d elsewhere under NLOS. */
  function DelaySpread(d: real, isLos: bool, environment: string): real {
    if isLos then 5.0 + d * 0.02
    else if environment == "outdoor" then 15.0 + d * 0.1
    else 25.0 + d * 0.3
  }

  /** For d >= 0 the spread is at least 5 ns, and the NLOS spread is strictly above the LOS spread at the same distance. */
  lemma DelaySpreadOrdering(d: real, environment: string)
    requires 0.0 <= d
    ensures 5.0 <= DelaySpread(d, true, environment) < DelaySpread(d, false, environment)
  {
  }

  /** A uniform draw in [0, 1) mapped onto the NLOS bias range [0.3, 2.5). */
  function NlosBias(u: real): (bias: real)
    ensures 0.0 <= u < 1.0 ==> NlosBiasMinM <= bias < NlosBiasMaxM
  {
    NlosBiasMinM + (NlosBiasMaxM - NlosBiasMinM) * u
  }

  /** The unscaled ranging error: one noise draw (LOS) or a bias plus a noise draw (NLOS). */
  function RangingErrorBase(isLos: bool, draws: ChannelDraws): real {
    if isLos then LosErrorStdM * draws.losErrorNormal
    else NlosBias(draws.nlosBiasUniform) + NlosErrorStdM * draws.nlosErrorNormal
  }

  /** The ranging error: the base error scaled by 1 + d/200. */
  function RangingError(isLos: bool, d: real, draws: ChannelDraws): real {
    RangingErrorBase(isLos, draws) * (1.0 + d / 200.0)
  }

  /** For d >= 0 the distance scaling never shrinks the ranging error and never changes its sign. */
  lemma RangingErrorScaling(isLos: bool, d: real, draws: ChannelDraws)
    requires 0.0 <= d
    ensures Abs(RangingError(isLos, d, draws)) >= Abs(RangingErrorBase(isLos, draws))
    ensures RangingError(isLos, d, draws) < 0.0 <==> RangingErrorBase(isLos, draws) < 0.0
  {
    ScaledMagnitude(RangingErrorBase(isLos, draws), 1.0 + d / 200.0);
  }

  lemma ScaledMagnitude(base: real, factor: real)
    ensures 1.0 <= factor ==> Abs(base * factor) >= Abs(base)
    ensures 1.0 <= factor ==> (base * factor < 0.0 <==> base < 0.0)
  {
    if factor < 1.0 {
    } else if base < 0.0 {
      var m := -base;
      ProductAtLeast(m, factor);
      assert m * factor == -(base * factor);
      assert Abs(base * factor) == m * factor;
      assert Abs(base) == m;
      assert m <= m * factor;
    } else {
      MulNonNegative(base, factor);
      ProductAtLeast(base, factor);
    }
  }

  lemma ProductAtLeast(x: real, factor: real)
    requires 0.0 <= x && 1.0 <= factor
    ensures x <= x * factor
  {
    MulNonNegative(x, factor - 1.0);
    assert x * factor == x + x * (factor - 1.0);
  }

  /** The condition of one link, as `ComputeChannelCondition` assembles it from one LOS decision. */
  ghost function Condition(environment: string, obstacles: seq<Obstacle>, tx: Vec3, rx: Vec3, txPowerDbm: real,
                           draws: ChannelDraws, norm: Vec3 -> real, exp: real -> real, log10: real -> real)
    : ChannelCondition
  {
    var d := norm(Sub(rx, tx));
    var isLos := LosOutcome(environment, obstacles, tx, rx, draws.losUniform, norm, exp);
    var pathLoss := PathLoss(d, isLos, environment, draws.shadowNormal, log10);
    ChannelCondition(isLos, pathLoss, DelaySpread(d, isLos, environment), txPowerDbm - pathLoss,
                     RangingError(isLos, d, draws))
  }

  class UWBChannel {
    var environment: string
    var obstacles: seq<Obstacle>

    constructor ()
      ensures environment == "outdoor" && obstacles == []
    {
      environment := "outdoor";
      obstacles := [];
    }

    method SetEnvironment(envType: string)
      modifies this
      ensures environment == envType && obstacles == old(obstacles)
    {
      environment := envType;
    }

    method AddObstacle(center: Vec3, radius: real)
      modifies this
      ensures obstacles == old(obstacles) + [Obstacle(center, radius)]
      ensures environment == old(environment)
    {
      obstacles := obstacles + [Obstacle(center, radius)];
    }

    /**
     * Hard blockage first (20 samples against every obstacle, returning at
     * the first hit); only an unblocked link consumes the uniform draw.
     */
    method DetermineLOS(tx: Vec3, rx: Vec3, u: real, norm: Vec3 -> real, exp: real -> real)
      returns (isLos: bool)
      ensures isLos == LosOutcome(environment, obstacles, tx, rx, u, norm, exp)
      ensures Blocked(tx, rx, obstacles) ==> !isLos
      ensures !Blocked(tx, rx, obstacles) ==> (isLos <==> u < exp(-norm(Sub(rx, tx)) / LosScale(environment)))
    {
      var totalDistance := norm(Sub(rx, tx));
      var i := 0;
      while i < NumSamples
        invariant 0 <= i <= NumSamples
        invariant forall i', k :: 0 <= i' < i && 0 <= k < |obstacles| ==> !Inside(Sample(tx, rx, i'), obstacles[k])
      {
        var point := Sample(tx, rx, i);
        var k := 0;
        while k < |obstacles|
          invariant 0 <= k <= |obstacles|
          invariant forall k' :: 0 <= k' < k ==> !Inside(point, obstacles[k'])
        {
          if Inside(point, obstacles[k]) {
            return false;
          }
          k := k + 1;
        }
        i := i + 1;
      }
      var pLos := exp(-totalDistance / LosScale(environment));
      isLos := u < pLos;
    }

    method ComputeChannelCondition(txPos: Vec3, rxPos: Vec3, txPowerDbm: real, draws: ChannelDraws,
                                   norm: Vec3 -> real, exp: real -> real, log10: real -> real)
      returns (cond: ChannelCondition)
      ensures cond == Condition(environment, obstacles, txPos, rxPos, txPowerDbm, draws, norm, exp, log10)
      ensures Blocked(txPos, rxPos, obstacles) ==> !cond.isLos
      ensures cond.rssiDbm == txPowerDbm - cond.pathLossDb
      ensures var d := norm(Sub(rxPos, txPos));
        && cond.pathLossDb == PathLoss(d, cond.isLos, environment, draws.shadowNormal, log10)
        && cond.delaySpreadNs == DelaySpread(d, cond.isLos, environment)
        && cond.rangingErrorM == RangingError(cond.isLos, d, draws)
    {
      var distance := norm(Sub(rxPos, txPos));
      var isLos := DetermineLOS(txPos, rxPos, draws.losUniform, norm, exp);
      var pathLoss := PathLoss(distance, isLos, environment, draws.shadowNormal, log10);
      cond := ChannelCondition(isLos, pathLoss, DelaySpread(distance, isLos, environment),
                               txPowerDbm - pathLoss, RangingError(isLos, distance, draws));
    }
  }
}
