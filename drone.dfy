/**
 * A swarm member (Drone.h, Drone.cpp): its identity and spoofing state, the
 * GPS position it claims, the messages it broadcasts, and the bank of
 * per-neighbour filters with which it checks what its neighbours claim.
 *
 * The simulator clock is an explicit `now` argument, the GPS noise a vector
 * of standard normal draws, and the norm and matrix inverse the filters need
 * are parameters.
 */
module Drones {
  import opened Geometry
  import opened Matrices
  import opened Messages
  import opened Ekf

  const GpsHorizontalStdM: real := 0.05
  const GpsVerticalStdM: real := 0.10
  /** Final y offset of the spoofing ramp, in metres. */
  const SpoofTargetOffsetM: real := 15.0
  /** Time the spoofing ramp takes to reach its final offset, in seconds. */
  const SpoofRampDurationS: real := 10.0
  /** Fewer measurements than this cannot fix x, y, z and the clock bias. */
  const MinAnchors: nat := 4
  /** A filtered estimate farther than this from the claimed position raises the alarm. */
  const AlarmThresholdM: real := 10.0
  const PicosPerSecond: real := 1000000000000.0

  function Seconds(ps: nat): real {
    ps as real / PicosPerSecond
  }

  /**
   * The y offset a spoofing drone adds to its GPS fix `elapsed` seconds after
   * the attack started: a linear ramp from 0 to 15 m over 10 s, clamped at
   * both ends.
   */
  function SpoofOffset(elapsed: real): (offset: real)
    ensures 0.0 <= offset <= SpoofTargetOffsetM
    ensures elapsed <= 0.0 ==> offset == 0.0
    ensures elapsed >= SpoofRampDurationS ==> offset == SpoofTargetOffsetM
  {
    var progress := elapsed / SpoofRampDurationS;
    var clamped := if progress < 0.0 then 0.0 else if progress > 1.0 then 1.0 else progress;
    SpoofTargetOffsetM * clamped
  }

  /** The ramp never goes back: a later time never gives a smaller offset. */
  lemma SpoofOffsetMonotone(e1: real, e2: real)
    requires e1 <= e2
    ensures SpoofOffset(e1) <= SpoofOffset(e2)
  {
    var p1, p2 := e1 / SpoofRampDurationS, e2 / SpoofRampDurationS;
    assert p1 <= p2;
  }

  /** A C-style conversion of a real to an integer: the fraction is dropped, rounding toward zero. */
  function TruncTowardZero(r: real): (t: int)
    ensures Abs(t as real) <= Abs(r) && Abs(r - t as real) < 1.0
    ensures t < 0 ==> r < 0.0
    ensures r < 0.0 ==> t <= 0
  {
    if r >= 0.0 then r.Floor else -((-r).Floor)
  }

  /** The hardware drift in picoseconds that a transmission carries. */
  function DriftPs(driftNs: real): int {
    TruncTowardZero(driftNs * 1000.0)
  }

  /** The transmit timestamp of a message sent at `nowPs`: the drift added in 64-bit unsigned arithmetic, which wraps. */
  function TxStampPs(nowPs: nat, driftNs: real): Uint64 {
    (nowPs + DriftPs(driftNs)) % TwoTo64
  }

  /** What a drone knows about one neighbour: its filter, when it last ran, and the alarm. */
  datatype Track = Track(filter: Filter, lastCalcTime: real, alarm: bool)

  /** The entry created on first contact with a neighbour. */
  function FirstContact(claimed: Vec3): (t: Track)
    ensures WellFormed(t.filter)
  {
    Track(Initial(claimed), 0.0, false)
  }

  /** The estimate and the claim disagree by more than the threshold (on squares: no root needed). */
  predicate AlarmRaised(estimate: Vec3, claimed: Vec3) {
    SqDist(estimate, claimed) > AlarmThresholdM * AlarmThresholdM
  }

  /** For the true Euclidean distance `n`, the alarm is raised iff n > 10, strictly. */
  lemma AlarmMatchesNorm(estimate: Vec3, claimed: Vec3, n: real)
    requires 0.0 <= n && n * n == SqDist(estimate, claimed)
    ensures AlarmRaised(estimate, claimed) <==> AlarmThresholdM < n
  {
    SquaredComparison(AlarmThresholdM, n);
  }

  /** The filter inputs built from the ranging measurements of one transmission. */
  function ToMsmnts(measurements: seq<RangingMeasurement>, txTimestampSec: real): (ms: seq<Msmnt>)
    ensures |ms| == |measurements|
  {
    seq(|measurements|, i requires 0 <= i < |measurements| =>
      Msmnt(measurements[i].anchorPos, measurements[i].toaSeconds, txTimestampSec))
  }

  /**
   * One observation of a neighbour that already has a track (or has just
   * been given one): with fewer than 4 measurements nothing changes;
   * otherwise the filter predicts and updates only when time has advanced,
   * and the alarm is recomputed from the estimate either way.
   */
  function NeighborStep(prior: Track, ms: seq<Msmnt>, claimed: Vec3, now: real,
                        norm: Vec3 -> real, inverse: Matrix -> Matrix): (t: Track)
    requires WellFormed(prior.filter) && NonNegativeNorm(norm)
    ensures WellFormed(t.filter)
  {
    if |ms| < MinAnchors then prior
    else
      var dt := now - prior.lastCalcTime;
      var f := if dt > 0.0 then Updated(Predicted(prior.filter, dt), ms, norm, inverse) else prior.filter;
      var last := if dt > 0.0 then now else prior.lastCalcTime;
      Track(f, last, AlarmRaised(PositionOf(f.state), claimed))
  }

  /** Fewer than four measurements leave the track as it was. */
  lemma NeighborStepNeedsFour(prior: Track, ms: seq<Msmnt>, claimed: Vec3, now: real,
                              norm: Vec3 -> real, inverse: Matrix -> Matrix)
    requires WellFormed(prior.filter) && NonNegativeNorm(norm) && |ms| < MinAnchors
    ensures NeighborStep(prior, ms, claimed, now, norm, inverse) == prior
  {
  }

  /** With four or more measurements the alarm is exactly the comparison of the new estimate with the claim. */
  lemma NeighborStepAlarm(prior: Track, ms: seq<Msmnt>, claimed: Vec3, now: real,
                          norm: Vec3 -> real, inverse: Matrix -> Matrix)
    requires WellFormed(prior.filter) && NonNegativeNorm(norm) && |ms| >= MinAnchors
    ensures var t := NeighborStep(prior, ms, claimed, now, norm, inverse);
      t.alarm <==> AlarmRaised(PositionOf(t.filter.state), claimed)
  {
  }

  /**
   * The filter runs only when time has advanced since its last run, and
   * then its last-run time becomes `now`; the last-run time never goes
   * back.
   */
  lemma NeighborStepTiming(prior: Track, ms: seq<Msmnt>, claimed: Vec3, now: real,
                           norm: Vec3 -> real, inverse: Matrix -> Matrix)
    requires WellFormed(prior.filter) && NonNegativeNorm(norm)
    ensures var t := NeighborStep(prior, ms, claimed, now, norm, inverse);
      && (now - prior.lastCalcTime <= 0.0 ==> t.filter == prior.filter && t.lastCalcTime == prior.lastCalcTime)
      && (|ms| >= MinAnchors && now - prior.lastCalcTime > 0.0 ==> t.lastCalcTime == now)
      && prior.lastCalcTime <= t.lastCalcTime
  {
  }

  /** Observing a neighbour twice at the same instant changes nothing the second time. */
  lemma NeighborStepIdempotent(prior: Track, ms: seq<Msmnt>, claimed: Vec3, now: real,
                               norm: Vec3 -> real, inverse: Matrix -> Matrix)
    requires WellFormed(prior.filter) && NonNegativeNorm(norm)
    ensures var once := NeighborStep(prior, ms, claimed, now, norm, inverse);
      NeighborStep(once, ms, claimed, now, norm, inverse) == once
  {
  }

  /** A neighbour's track as it stands before a step: the known one, or a fresh one at the claim. */
  function PriorTrack(tracks: map<int, Track>, sender: int, claimed: Vec3): Track {
    if sender in tracks then tracks[sender] else FirstContact(claimed)
  }

  ghost predicate WellFormedTracks(tracks: map<int, Track>) {
    forall k :: k in tracks ==> WellFormed(tracks[k].filter)
  }

  /**
   * The tracks after drone `self` hears `sender` claim `claimed` with the
   * given measurements: its own transmissions are ignored, an unknown sender
   * is first given a fresh track, and then the sender's track takes one step.
   */
  function Observe(tracks: map<int, Track>, self: int, sender: int, claimed: Vec3, ms: seq<Msmnt>, now: real,
                   norm: Vec3 -> real, inverse: Matrix -> Matrix): (r: map<int, Track>)
    requires WellFormedTracks(tracks) && NonNegativeNorm(norm)
    ensures WellFormedTracks(r)
  {
    if sender == self then tracks
    else
      tracks[sender := NeighborStep(PriorTrack(tracks, sender, claimed), ms, claimed, now, norm, inverse)]
  }

  /**
   * A drone ignores its own transmissions; otherwise the sender ends up
   * with a track, every other track is kept, and with fewer than four
   * measurements the sender's track is the fresh one (first contact) or
   * the old one.
   */
  lemma ObserveProperties(tracks: map<int, Track>, self: int, sender: int, claimed: Vec3, ms: seq<Msmnt>, now: real,
                          norm: Vec3 -> real, inverse: Matrix -> Matrix)
    requires WellFormedTracks(tracks) && NonNegativeNorm(norm)
    ensures var r := Observe(tracks, self, sender, claimed, ms, now, norm, inverse);
      && (sender == self ==> r == tracks)
      && (sender != self ==> r.Keys == tracks.Keys + {sender})
      && (forall k :: k in tracks && k != sender ==> k in r && r[k] == tracks[k])
      && (sender != self && sender !in tracks && |ms| < MinAnchors ==> r[sender] == FirstContact(claimed))
      && (sender != self && sender in tracks && |ms| < MinAnchors ==> r[sender] == tracks[sender])
  {
    if sender != self && |ms| < MinAnchors {
      NeighborStepNeedsFour(PriorTrack(tracks, sender, claimed), ms, claimed, now, norm, inverse);
    }
  }

  /** Builds the filter inputs of one transmission, one per ranging measurement, in order. */
  method BuildFilterInputs(measurements: seq<RangingMeasurement>, txTimestampSec: real)
    returns (inputData: seq<Msmnt>)
    ensures inputData == ToMsmnts(measurements, txTimestampSec)
    ensures forall i :: 0 <= i < |measurements| ==>
      inputData[i].anchorPos == measurements[i].anchorPos && inputData[i].toa == measurements[i].toaSeconds
      && inputData[i].txTimestamp == txTimestampSec
  {
    inputData := [];
    var i := 0;
    while i < |measurements|
      invariant 0 <= i <= |measurements|
      invariant inputData == ToMsmnts(measurements[..i], txTimestampSec)
    {
      inputData := inputData + [Msmnt(measurements[i].anchorPos, measurements[i].toaSeconds, txTimestampSec)];
      i := i + 1;
    }
    assert measurements[..i] == measurements;
  }

  /**
   * The filter step for a neighbour heard with at least four measurements:
   * predict and update only when time has advanced since the last run,
   * then compare the estimate with the claim.
   */
  method Advance(prior: Track, inputData: seq<Msmnt>, claimed: Vec3, now: real,
                 norm: Vec3 -> real, inverse: Matrix -> Matrix) returns (next: Track)
    requires WellFormed(prior.filter) && NonNegativeNorm(norm) && |inputData| >= MinAnchors
    ensures next == NeighborStep(prior, inputData, claimed, now, norm, inverse)
    ensures WellFormed(next.filter)
  {
    var filter := prior.filter;
    var last := prior.lastCalcTime;
    var dt := now - last;
    if dt > 0.0 {
      filter := Updated(Predicted(filter, dt), inputData, norm, inverse);
      last := now;
    }
    var calculated := PositionOf(filter.state);
    next := Track(filter, last, AlarmRaised(calculated, claimed));
  }

  /** The sender's entry after a step is the step of its prior track, and nothing else changes. */
  lemma ObserveIsStep(tracks: map<int, Track>, self: int, sender: int, claimed: Vec3, ms: seq<Msmnt>, now: real,
                      norm: Vec3 -> real, inverse: Matrix -> Matrix, next: Track)
    requires WellFormedTracks(tracks) && NonNegativeNorm(norm) && sender != self
    requires next == NeighborStep(PriorTrack(tracks, sender, claimed), ms, claimed, now, norm, inverse)
    ensures Observe(tracks, self, sender, claimed, ms, now, norm, inverse) == tracks[sender := next]
  {
  }

  /** Too few measurements: the only change is the lazy creation of the sender's track. */
  lemma ObserveFewMeasurements(tracks: map<int, Track>, self: int, sender: int, claimed: Vec3, ms: seq<Msmnt>,
                               now: real, norm: Vec3 -> real, inverse: Matrix -> Matrix)
    requires WellFormedTracks(tracks) && NonNegativeNorm(norm) && sender != self && |ms| < MinAnchors
    ensures Observe(tracks, self, sender, claimed, ms, now, norm, inverse)
         == tracks[sender := PriorTrack(tracks, sender, claimed)]
  {
  }

  /** Writing a key twice leaves the second value. */
  lemma OverwriteKey<V>(m: map<int, V>, key: int, first: V, second: V)
    ensures m[key := first][key := second] == m[key := second]
  {
  }

  /** Writing a key with the value it already has changes nothing. */
  lemma RewriteKey<V>(m: map<int, V>, key: int)
    requires key in m
    ensures m[key := m[key]] == m
  {
  }

  /** The three per-neighbour maps share their keys, and every filter is well formed. */
  ghost predicate Consistent(bank: map<int, Filter>, last: map<int, real>, alarm: map<int, bool>) {
    && bank.Keys == last.Keys == alarm.Keys
    && (forall k :: k in bank ==> WellFormed(bank[k]))
  }

  /** Storing a well-formed track under one key keeps the maps consistent. */
  lemma ConsistentUpdate(bank: map<int, Filter>, last: map<int, real>, alarm: map<int, bool>, key: int, t: Track)
    requires Consistent(bank, last, alarm) && WellFormed(t.filter)
    ensures Consistent(bank[key := t.filter], last[key := t.lastCalcTime], alarm[key := t.alarm])
  {
  }

  /** The three per-neighbour maps of a drone, read as one map of tracks. */
  function TracksOf(bank: map<int, Filter>, last: map<int, real>, alarm: map<int, bool>): (tracks: map<int, Track>)
    requires bank.Keys == last.Keys == alarm.Keys
    ensures tracks.Keys == bank.Keys
    ensures forall k :: k in tracks ==> tracks[k] == Track(bank[k], last[k], alarm[k])
  {
    map k | k in bank :: Track(bank[k], last[k], alarm[k])
  }

  /** Writing one key in all three maps writes that key's track and no other. */
  lemma TracksOfUpdate(bank: map<int, Filter>, last: map<int, real>, alarm: map<int, bool>, key: int, t: Track)
    requires bank.Keys == last.Keys == alarm.Keys
    ensures TracksOf(bank[key := t.filter], last[key := t.lastCalcTime], alarm[key := t.alarm])
         == TracksOf(bank, last, alarm)[key := t]
  {
    var lhs := TracksOf(bank[key := t.filter], last[key := t.lastCalcTime], alarm[key := t.alarm]);
    var rhs := TracksOf(bank, last, alarm)[key := t];
    assert lhs.Keys == rhs.Keys;
    forall k | k in lhs
      ensures lhs[k] == rhs[k]
    {
    }
  }

  /** The parts of a drone that a TDMA slot reads but never changes. */
  datatype DroneProfile = DroneProfile(
    id: nat,
    isMalicious: bool,
    attackStartTime: real,
    truePosition: Vec3,
    clockDriftNs: real)

  /** The GPS fix of a drone with profile `p` at time `now`, given the normal draws `noise`. */
  function GpsFix(p: DroneProfile, now: real, noise: Vec3): Vec3 {
    var noisy := Vec3(p.truePosition.x + GpsHorizontalStdM * noise.x,
                      p.truePosition.y + GpsHorizontalStdM * noise.y,
                      p.truePosition.z + GpsVerticalStdM * noise.z);
    if p.isMalicious then noisy.(y := noisy.y + SpoofOffset(now - p.attackStartTime)) else noisy
  }

  /** Everything a drone carries from one slot to the next, as a value. */
  datatype DroneState = DroneState(profile: DroneProfile, offset: real, tracks: map<int, Track>)

  /** The estimate a drone holding `tracks` reports for `target`: the origin when it never heard it. */
  function EstimateOf(tracks: map<int, Track>, target: int): Vec3
    requires WellFormedTracks(tracks)
  {
    if target in tracks then PositionOf(tracks[target].filter.state) else Origin
  }

  class Drone {
    var id: nat
    var isMalicious: bool
    var attackStartTime: real
    var truePosition: Vec3
    var clockDriftNs: real
    var clockOffsetCorrection: real
    var ekfBank: map<int, Filter>
    var lastCalcTime: map<int, real>
    var securityAlarm: map<int, bool>

    ghost predicate Valid()
      reads this
    {
      Consistent(ekfBank, lastCalcTime, securityAlarm)
    }

    function Profile(): DroneProfile
      reads this
    {
      DroneProfile(id, isMalicious, attackStartTime, truePosition, clockDriftNs)
    }

    /** The per-neighbour state, one track per neighbour ever heard. */
    ghost function Tracks(): (tracks: map<int, Track>)
      reads this
      requires Valid()
      ensures tracks.Keys == ekfBank.Keys && WellFormedTracks(tracks)
    {
      TracksOf(ekfBank, lastCalcTime, securityAlarm)
    }

    ghost function State(): DroneState
      reads this
      requires Valid()
    {
      DroneState(Profile(), clockOffsetCorrection, Tracks())
    }

    /** A new drone: id 0, honest, no drift or offset, no neighbours. */
    constructor ()
      ensures Valid() && Tracks() == map[]
      ensures id == 0 && !isMalicious && attackStartTime == 0.0
      ensures clockDriftNs == 0.0 && clockOffsetCorrection == 0.0
    {
      id := 0;
      isMalicious := false;
      attackStartTime := 0.0;
      truePosition := Origin;
      clockDriftNs := 0.0;
      clockOffsetCorrection := 0.0;
      ekfBank := map[];
      lastCalcTime := map[];
      securityAlarm := map[];
    }

    method SetId(newId: nat)
      modifies this
      ensures id == newId
      ensures isMalicious == old(isMalicious) && attackStartTime == old(attackStartTime)
      ensures truePosition == old(truePosition) && clockDriftNs == old(clockDriftNs)
      ensures clockOffsetCorrection == old(clockOffsetCorrection)
      ensures ekfBank == old(ekfBank) && lastCalcTime == old(lastCalcTime) && securityAlarm == old(securityAlarm)
    {
      id := newId;
    }

    /**
     * Sets the spoofing flag; the attack start time moves to `now` only when
     * an honest drone turns malicious, so clearing and re-setting the flag
     * re-arms the ramp, while setting it twice does not.
     */
    method SetMalicious(malicious: bool, now: real)
      modifies this
      ensures isMalicious == malicious
      ensures attackStartTime == (if malicious && !old(isMalicious) then now else old(attackStartTime))
      ensures id == old(id) && truePosition == old(truePosition) && clockDriftNs == old(clockDriftNs)
      ensures clockOffsetCorrection == old(clockOffsetCorrection)
      ensures ekfBank == old(ekfBank) && lastCalcTime == old(lastCalcTime) && securityAlarm == old(securityAlarm)
    {
      if malicious && !isMalicious {
        attackStartTime := now;
      }
      isMalicious := malicious;
    }

    /** Sets the ground-truth position (initial placement, or the trajectory's value at a time). */
    method SetTruePosition(pos: Vec3)
      modifies this
      ensures truePosition == pos
      ensures id == old(id) && isMalicious == old(isMalicious) && attackStartTime == old(attackStartTime)
      ensures clockDriftNs == old(clockDriftNs) && clockOffsetCorrection == old(clockOffsetCorrection)
      ensures ekfBank == old(ekfBank) && lastCalcTime == old(lastCalcTime) && securityAlarm == old(securityAlarm)
    {
      truePosition := pos;
    }

    method SetClockDrift(driftNs: real)
      modifies this
      ensures clockDriftNs == driftNs
      ensures id == old(id) && isMalicious == old(isMalicious) && attackStartTime == old(attackStartTime)
      ensures truePosition == old(truePosition) && clockOffsetCorrection == old(clockOffsetCorrection)
      ensures ekfBank == old(ekfBank) && lastCalcTime == old(lastCalcTime) && securityAlarm == old(securityAlarm)
    {
      clockDriftNs := driftNs;
    }

    method SetClockOffset(offset: real)
      modifies this
      ensures clockOffsetCorrection == offset
      ensures id == old(id) && isMalicious == old(isMalicious) && attackStartTime == old(attackStartTime)
      ensures truePosition == old(truePosition) && clockDriftNs == old(clockDriftNs)
      ensures ekfBank == old(ekfBank) && lastCalcTime == old(lastCalcTime) && securityAlarm == old(securityAlarm)
    {
      clockOffsetCorrection := offset;
    }

    /**
     * The GPS fix the drone reports at time `now`: the true position plus
     * noise (std 0.05 m horizontally, 0.10 m vertically) and, when malicious,
     * the spoofing ramp on the y axis only.
     */
    function GpsPosition(now: real, noise: Vec3): (p: Vec3)
      reads this
      ensures p.x == truePosition.x + GpsHorizontalStdM * noise.x
      ensures p.z == truePosition.z + GpsVerticalStdM * noise.z
      ensures !isMalicious ==> p.y == truePosition.y + GpsHorizontalStdM * noise.y
      ensures isMalicious ==>
        truePosition.y + GpsHorizontalStdM * noise.y <= p.y <= truePosition.y + GpsHorizontalStdM * noise.y + SpoofTargetOffsetM
      ensures isMalicious && now <= attackStartTime ==> p.y == truePosition.y + GpsHorizontalStdM * noise.y
      ensures isMalicious && now >= attackStartTime + SpoofRampDurationS ==>
        p.y == truePosition.y + GpsHorizontalStdM * noise.y + SpoofTargetOffsetM
    {
      GpsFix(Profile(), now, noise)
    }

    /**
     * The broadcast of this drone's slot. The vote mask is not filled in by
     * the sender; `voteBitmask` stands for whatever the field holds.
     */
    method CreateTDMAMessage(nowPs: nat, noise: Vec3, voteBitmask: bv32) returns (msg: UWBMessage)
      ensures msg.senderId == id && msg.voteBitmask == voteBitmask
      ensures msg.gpsPosition == GpsPosition(Seconds(nowPs), noise)
      ensures msg.txTimestampPs == (nowPs + DriftPs(clockDriftNs)) % TwoTo64
      ensures nowPs + DriftPs(clockDriftNs) < TwoTo64 && 0 <= nowPs + DriftPs(clockDriftNs) ==>
        msg.txTimestampPs == nowPs + DriftPs(clockDriftNs)
      ensures clockDriftNs >= 0.0 && nowPs + DriftPs(clockDriftNs) < TwoTo64 ==> msg.txTimestampPs >= nowPs
    {
      var gps := GpsPosition(Seconds(nowPs), noise);
      var driftPs := DriftPs(clockDriftNs);
      msg := UWBMessage(id, (nowPs + driftPs) % TwoTo64, gps, voteBitmask);
    }

    /**
     * Runs this drone's filter for `senderId` on one transmission it heard;
     * the new per-neighbour state is `Observe` of the old one.
     */
    method ComputeNeighborPosition(senderId: int, claimed: Vec3, measurements: seq<RangingMeasurement>,
                                   now: real, txTimestampSec: real, norm: Vec3 -> real, inverse: Matrix -> Matrix)
      requires Valid() && NonNegativeNorm(norm)
      modifies this
      ensures Valid()
      ensures Tracks() == Observe(old(Tracks()), id, senderId, claimed, ToMsmnts(measurements, txTimestampSec),
                                  now, norm, inverse)
      ensures id == old(id) && isMalicious == old(isMalicious) && attackStartTime == old(attackStartTime)
      ensures truePosition == old(truePosition) && clockDriftNs == old(clockDriftNs)
      ensures clockOffsetCorrection == old(clockOffsetCorrection)
    {
      if id == senderId {
        return;
      }
      ghost var before := Tracks();
      ghost var prior := PriorTrack(before, senderId, claimed);
      InitTrackIfNew(senderId, claimed);
      if |measurements| < MinAnchors {
        ObserveFewMeasurements(before, id, senderId, claimed, ToMsmnts(measurements, txTimestampSec), now, norm, inverse);
        return;
      }
      var inputData := BuildFilterInputs(measurements, txTimestampSec);
      var current := Track(ekfBank[senderId], lastCalcTime[senderId], securityAlarm[senderId]);
      assert current == prior;
      var next := Advance(current, inputData, claimed, now, norm, inverse);
      StoreTrack(senderId, next);
      OverwriteKey(before, senderId, prior, next);
      ObserveIsStep(before, id, senderId, claimed, inputData, now, norm, inverse, next);
    }

    /** The lazy creation of a neighbour's entries: a filter initialised at the claim, time 0, no alarm. */
    method InitTrackIfNew(senderId: int, claimed: Vec3)
      requires Valid()
      modifies this
      ensures Valid() && senderId in ekfBank
      ensures Tracks() == old(Tracks())[senderId := PriorTrack(old(Tracks()), senderId, claimed)]
      ensures id == old(id) && isMalicious == old(isMalicious) && attackStartTime == old(attackStartTime)
      ensures truePosition == old(truePosition) && clockDriftNs == old(clockDriftNs)
      ensures clockOffsetCorrection == old(clockOffsetCorrection)
    {
      ghost var bank0, last0, alarm0 := ekfBank, lastCalcTime, securityAlarm;
      ghost var prior := PriorTrack(Tracks(), senderId, claimed);
      if senderId !in ekfBank {
        var created := new TDoAEKF();
        created.Init(claimed);
        ekfBank := ekfBank[senderId := created.View()];
        lastCalcTime := lastCalcTime[senderId := 0.0];
        securityAlarm := securityAlarm[senderId := false];
        assert prior == Track(created.View(), 0.0, false);
      } else {
        RewriteKey(bank0, senderId);
        RewriteKey(last0, senderId);
        RewriteKey(alarm0, senderId);
      }
      ConsistentUpdate(bank0, last0, alarm0, senderId, prior);
      TracksOfUpdate(bank0, last0, alarm0, senderId, prior);
    }

    /** Writes one neighbour's track back into the three maps. */
    method StoreTrack(senderId: int, t: Track)
      requires Valid() && WellFormed(t.filter)
      modifies this
      ensures Valid()
      ensures Tracks() == old(Tracks())[senderId := t]
      ensures id == old(id) && isMalicious == old(isMalicious) && attackStartTime == old(attackStartTime)
      ensures truePosition == old(truePosition) && clockDriftNs == old(clockDriftNs)
      ensures clockOffsetCorrection == old(clockOffsetCorrection)
    {
      ConsistentUpdate(ekfBank, lastCalcTime, securityAlarm, senderId, t);
      TracksOfUpdate(ekfBank, lastCalcTime, securityAlarm, senderId, t);
      ekfBank := ekfBank[senderId := t.filter];
      lastCalcTime := lastCalcTime[senderId := t.lastCalcTime];
      securityAlarm := securityAlarm[senderId := t.alarm];
    }

    /** The filtered position of a neighbour; the origin for one never heard. */
    function EstimatedPositionOf(targetId: int): (p: Vec3)
      reads this
      requires Valid()
      ensures targetId in Tracks() ==> p == PositionOf(Tracks()[targetId].filter.state)
      ensures targetId !in Tracks() ==> p == Origin
    {
      if targetId in ekfBank then PositionOf(ekfBank[targetId].state) else Origin
    }

    /** Whether the alarm for a neighbour is raised; false for one never heard. */
    function IsAlarmActiveFor(targetId: int): (active: bool)
      reads this
      requires Valid()
      ensures active <==> targetId in Tracks() && Tracks()[targetId].alarm
    {
      targetId in securityAlarm && securityAlarm[targetId]
    }
  }
}
