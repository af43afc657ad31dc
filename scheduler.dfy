/**
 * The TDMA slot scheduler (`TDMAScheduler::ExecuteSlot` in tdoa_main.cpp and
 * tdoa_uwb_sim.cpp): one drone transmits per slot, in round-robin order; every
 * other drone receives, the master's broadcast disciplines the receivers'
 * clocks, the others' broadcasts become ranging measurements shared over a
 * lossy data link, every observer runs its filter, and the swarm votes on
 * whether the transmitter's claimed position is to be replaced.
 *
 * The random draws, the vote masks the drones hold, the recovery function
 * and the numerical primitives are parameters; the log and the reset request
 * are part of the slot's report.
 */
module Tdma {
  import opened Geometry
  import opened Matrices
  import opened Messages
  import opened Ekf
  import opened Channel
  import opened Drones

  const SimTimeS: real := 300.0
  const MasterAnchorId: nat := 1
  const PacketLossRate: real := 0.10
  /** A vote sum at or below this replaces the transmitter's position. */
  const VoteThreshold: int := -3
  /** Vote masks are 32 bits wide, so at most 32 drones can be voted on. */
  const MaxSwarm: nat := 32
  const SlotTxPowerDbm: real := 0.0
  const SecondsPerNs: real := 0.000000001

  datatype Option<T> = None | Some(value: T)

  /** The primitives the model does not compute itself. */
  datatype Numerics = Numerics(
    norm: Vec3 -> real,
    exp: real -> real,
    log10: real -> real,
    inverse: Matrix -> Matrix)

  /**
   * The random draws of one slot: the sender's GPS noise, and per receiver
   * index its channel draws, its GPS noise and one loss draw per entry of
   * the shared packet.
   */
  datatype SlotDraws = SlotDraws(
    senderGpsNoise: Vec3,
    channel: seq<ChannelDraws>,
    receiverGpsNoise: seq<Vec3>,
    loss: seq<seq<real>>)

  /** What every receiver knows of the current transmission. */
  datatype SlotContext = SlotContext(
    now: real,
    txId: nat,
    txPos: Vec3,
    claimed: Vec3,
    txTimeSec: real,
    environment: string,
    obstacles: seq<Obstacle>)

  datatype LogEntry = LogEntry(time: real, txId: nat, observerId: nat, claimed: Vec3, recovered: Vec3)

  datatype SlotReport = SlotReport(
    context: SlotContext,
    message: UWBMessage,
    packet: seq<RangingMeasurement>,
    buffers: seq<seq<RangingMeasurement>>,
    votes: int,
    peerEstimates: map<int, Vec3>,
    reset: bool,
    recovered: Vec3,
    log: seq<LogEntry>)

  // ---------------------------------------------------------------- reception

  /**
   * The arrival time a receiver stamps on a transmission sent at `now`: the
   * time of flight, the channel's ranging error as a delay, and the
   * receiver's hardware drift.
   */
  function RawArrival(now: real, dist: real, rangingErrorM: real, driftNs: real): real {
    now + dist / SpeedOfLight + rangingErrorM / SpeedOfLight + driftNs * SecondsPerNs
  }

  /**
   * The pseudorange a filter sees for a corrected arrival is the true
   * distance plus the ranging error plus the residual clock terms scaled by
   * c: with zero drift, zero offset and a send time equal to `now`, it is
   * exactly distance plus ranging error.
   */
  lemma PseudorangeOfArrival(now: real, dist: real, rangingErrorM: real, driftNs: real, offset: real,
                             anchorPos: Vec3, txTimeSec: real)
    ensures Pseudorange(Msmnt(anchorPos, RawArrival(now, dist, rangingErrorM, driftNs) - offset, txTimeSec))
      == dist + rangingErrorM + SpeedOfLight * (now - txTimeSec + driftNs * SecondsPerNs - offset)
  {
    var raw := RawArrival(now, dist, rangingErrorM, driftNs);
    calc {
      (raw - offset - txTimeSec) * SpeedOfLight;
      (dist / SpeedOfLight) * SpeedOfLight + (rangingErrorM / SpeedOfLight) * SpeedOfLight
        + (now - txTimeSec + driftNs * SecondsPerNs - offset) * SpeedOfLight;
      dist + rangingErrorM + SpeedOfLight * (now - txTimeSec + driftNs * SecondsPerNs - offset);
    }
  }

  /** How late the arrival is against the time the GPS positions predict. */
  function ClockError(raw: real, txTimeSec: real, geoDist: real): real {
    raw - (txTimeSec + geoDist / SpeedOfLight)
  }

  /**
   * The receiver's new clock offset after hearing the master: 20% of the
   * old offset and 80% of the measured clock error, so the distance to the
   * measured error shrinks to a fifth and a correct offset stays put.
   */
  function SmoothedOffset(current: real, raw: real, txTimeSec: real, geoDist: real): (offset: real)
    ensures offset - ClockError(raw, txTimeSec, geoDist) == 0.2 * (current - ClockError(raw, txTimeSec, geoDist))
    ensures Abs(offset - ClockError(raw, txTimeSec, geoDist)) <= Abs(current - ClockError(raw, txTimeSec, geoDist))
    ensures current == ClockError(raw, txTimeSec, geoDist) ==> offset == current
  {
    current * 0.2 + ClockError(raw, txTimeSec, geoDist) * 0.8
  }

  /** The condition of the link from the transmitter to a receiver at `rxPos`. */
  ghost function LinkCondition(ctx: SlotContext, rxPos: Vec3, d: ChannelDraws, num: Numerics): ChannelCondition {
    Condition(ctx.environment, ctx.obstacles, ctx.txPos, rxPos, SlotTxPowerDbm, d, num.norm, num.exp, num.log10)
  }

  ghost function ArrivalAt(ctx: SlotContext, rx: DroneProfile, d: ChannelDraws, num: Numerics): real {
    RawArrival(ctx.now, num.norm(Sub(ctx.txPos, rx.truePosition)), LinkCondition(ctx, rx.truePosition, d, num).rangingErrorM,
               rx.clockDriftNs)
  }

  /** The clock offset of a receiver after the master's broadcast. */
  ghost function SyncedOffset(ctx: SlotContext, rx: DroneProfile, current: real, d: ChannelDraws, noise: Vec3,
                              num: Numerics): real
  {
    var geoDist := num.norm(Sub(ctx.claimed, GpsFix(rx, ctx.now, noise)));
    SmoothedOffset(current, ArrivalAt(ctx, rx, d, num), ctx.txTimeSec, geoDist)
  }

  /** The measurement anchor `anchor` contributes: its GPS fix and its offset-corrected arrival. */
  ghost function MeasurementOf(ctx: SlotContext, anchor: nat, rx: DroneProfile, offset: real, d: ChannelDraws,
                               noise: Vec3, num: Numerics): RangingMeasurement
  {
    RangingMeasurement(ctx.txId, anchor, GpsFix(rx, ctx.now, noise), ArrivalAt(ctx, rx, d, num) - offset,
                       LinkCondition(ctx, rx.truePosition, d, num).isLos)
  }

  /** The anchor of entry `j` of a packet: receivers in index order, skipping the transmitter. */
  function AnchorAt(j: nat, tx: nat): nat {
    if j < tx then j else j + 1
  }

  /** The packet entry that receiver `a` fills, when it is not the transmitter. */
  function EntryOf(a: nat, tx: nat): nat {
    if a <= tx then a else a - 1
  }

  /**
   * The entries of a packet name every receiver except the transmitter,
   * once each, in increasing order.
   */
  lemma AnchorsCoverReceivers(tx: nat, n: nat)
    requires tx < n
    ensures forall j :: 0 <= j < n - 1 ==> AnchorAt(j, tx) < n && AnchorAt(j, tx) != tx
    ensures forall j, j' :: 0 <= j < j' ==> AnchorAt(j, tx) < AnchorAt(j', tx)
    ensures forall a :: 0 <= a < n && a != tx ==> EntryOf(a, tx) < n - 1 && AnchorAt(EntryOf(a, tx), tx) == a
  {
  }

  // ------------------------------------------------------------ the data link

  /** An observer keeps its own measurement, and any other one whose loss draw exceeds the loss rate. */
  predicate Kept(m: RangingMeasurement, observer: nat, u: real) {
    m.anchorId == observer || u > PacketLossRate
  }

  /** The buffer an observer receives: entry j of the packet survives by `Kept` with draw j. */
  function Delivered(packet: seq<RangingMeasurement>, observer: nat, draws: seq<real>): (buffer: seq<RangingMeasurement>)
    requires |packet| <= |draws|
    decreases |packet|
  {
    if packet == [] then []
    else
      var n := |packet| - 1;
      Delivered(packet[..n], observer, draws) + (if Kept(packet[n], observer, draws[n]) then [packet[n]] else [])
  }

  /** `a` is `b` with some entries dropped and the rest in their order. */
  predicate SubsequenceOf<T(==)>(a: seq<T>, b: seq<T>)
    decreases |b|
  {
    if a == [] then true
    else if b == [] then false
    else (a[|a| - 1] == b[|b| - 1] && SubsequenceOf(a[..|a| - 1], b[..|b| - 1])) || SubsequenceOf(a, b[..|b| - 1])
  }

  lemma {:induction false} DeliveredIsSubsequence(packet: seq<RangingMeasurement>, observer: nat, draws: seq<real>)
    requires |packet| <= |draws|
    ensures SubsequenceOf(Delivered(packet, observer, draws), packet)
    decreases |packet|
  {
    if packet != [] {
      var n := |packet| - 1;
      var rest := Delivered(packet[..n], observer, draws);
      DeliveredIsSubsequence(packet[..n], observer, draws);
      if Kept(packet[n], observer, draws[n]) {
        var buffer := rest + [packet[n]];
        assert Delivered(packet, observer, draws) == buffer;
        assert buffer[..|buffer| - 1] == rest;
      } else {
        assert Delivered(packet, observer, draws) == rest;
        assert packet[..|packet| - 1] == packet[..n];
      }
    }
  }

  /** Every entry an observer keeps reaches its buffer; in particular its own measurement always does. */
  lemma {:induction false} DeliveredKeeps(packet: seq<RangingMeasurement>, observer: nat, draws: seq<real>)
    requires |packet| <= |draws|
    ensures forall j :: 0 <= j < |packet| && Kept(packet[j], observer, draws[j]) ==> packet[j] in Delivered(packet, observer, draws)
    ensures forall j :: 0 <= j < |packet| && packet[j].anchorId == observer ==> packet[j] in Delivered(packet, observer, draws)
    decreases |packet|
  {
    if packet != [] {
      var n := |packet| - 1;
      DeliveredKeeps(packet[..n], observer, draws);
      forall j | 0 <= j < |packet| && Kept(packet[j], observer, draws[j])
        ensures packet[j] in Delivered(packet, observer, draws)
      {
        if j < n {
          assert packet[..n][j] == packet[j];
        }
      }
    }
  }

  lemma {:induction false} DeliveredFromPacket(packet: seq<RangingMeasurement>, observer: nat, draws: seq<real>)
    requires |packet| <= |draws|
    ensures forall m :: m in Delivered(packet, observer, draws) ==> m in packet
    decreases |packet|
  {
    if packet != [] {
      var n := |packet| - 1;
      DeliveredFromPacket(packet[..n], observer, draws);
      forall m | m in Delivered(packet, observer, draws) ensures m in packet {
        if m in Delivered(packet[..n], observer, draws) {
          assert m in packet[..n];
        }
      }
    }
  }

  /**
   * When the packet's anchors are distinct (as a slot's packet's are), an
   * entry reaches an observer exactly when the observer keeps it.
   */
  lemma {:induction false} DeliveredExactly(packet: seq<RangingMeasurement>, observer: nat, draws: seq<real>)
    requires |packet| <= |draws|
    requires forall j, j' :: 0 <= j < j' < |packet| ==> packet[j].anchorId != packet[j'].anchorId
    ensures forall j :: 0 <= j < |packet| ==>
      (packet[j] in Delivered(packet, observer, draws) <==> Kept(packet[j], observer, draws[j]))
    decreases |packet|
  {
    DeliveredKeeps(packet, observer, draws);
    if packet != [] {
      var n := |packet| - 1;
      DeliveredExactly(packet[..n], observer, draws);
      DeliveredFromPacket(packet[..n], observer, draws);
      assert forall i :: 0 <= i < n ==> packet[..n][i].anchorId != packet[n].anchorId;
      assert packet[n] !in packet[..n];
      forall j | 0 <= j < |packet| && packet[j] in Delivered(packet, observer, draws)
        ensures Kept(packet[j], observer, draws[j])
      {
        if j < n {
          assert packet[..n][j] == packet[j];
          assert packet[j].anchorId != packet[n].anchorId;
        }
      }
    }
  }

  /** The buffer loop: the packet in order, own measurement kept, the others subject to loss. */
  method FilterBuffer(packet: seq<RangingMeasurement>, observer: nat, draws: seq<real>)
    returns (buffer: seq<RangingMeasurement>)
    requires |packet| <= |draws|
    ensures buffer == Delivered(packet, observer, draws)
  {
    buffer := [];
    var j := 0;
    while j < |packet|
      invariant 0 <= j <= |packet|
      invariant buffer == Delivered(packet[..j], observer, draws)
    {
      var m := packet[j];
      assert packet[..j + 1][..j] == packet[..j];
      if m.anchorId == observer {
        buffer := buffer + [m];
      } else if draws[j] > PacketLossRate {
        buffer := buffer + [m];
      }
      j := j + 1;
    }
    assert packet[..j] == packet;
  }

  /**
   * The master never gets an alarm raised against it: its slots share an
   * empty packet, and with fewer than 4 measurements an observer's track of
   * the master keeps its alarm as it was, false on first contact.
   */
  lemma MasterSlotRaisesNoAlarm(tracks: map<int, Track>, self: int, claimed: Vec3, txTimeSec: real, now: real,
                                norm: Vec3 -> real, inverse: Matrix -> Matrix)
    requires WellFormedTracks(tracks) && NonNegativeNorm(norm)
    requires MasterAnchorId in tracks ==> !tracks[MasterAnchorId].alarm
    ensures var r := Observe(tracks, self, MasterAnchorId, claimed, ToMsmnts([], txTimeSec), now, norm, inverse);
      MasterAnchorId in r ==> !r[MasterAnchorId].alarm
  {
  }

  // ------------------------------------------------------------------- votes

  /** Bit `tx` of a vote mask: set means the voter trusts the transmitter. */
  predicate VoteBit(mask: bv32, tx: nat)
    requires tx < 32
  {
    (mask >> tx) & 1 == 1
  }

  /** The vote sum over the observers: +1 for each set bit, -1 for each clear one; the transmitter does not vote. */
  function VoteSum(masks: seq<bv32>, tx: nat): int
    requires tx < 32
    decreases |masks|
  {
    if masks == [] then 0
    else
      var n := |masks| - 1;
      VoteSum(masks[..n], tx) + (if n == tx then 0 else if VoteBit(masks[n], tx) then 1 else -1)
  }

  /** The number of observers whose bit for `tx` is clear. */
  function Distrust(masks: seq<bv32>, tx: nat): nat
    requires tx < 32
    decreases |masks|
  {
    if masks == [] then 0
    else
      var n := |masks| - 1;
      Distrust(masks[..n], tx) + (if n != tx && !VoteBit(masks[n], tx) then 1 else 0)
  }

  /** Every drone but the transmitter votes. */
  function Observers(n: nat, tx: nat): nat {
    if tx < n then n - 1 else n
  }

  /**
   * The vote sum is the observer count less twice the distrusting votes: at
   * most the observer count in size, and of the same parity.
   */
  lemma {:induction false} VoteSumByDistrust(masks: seq<bv32>, tx: nat)
    requires tx < 32
    ensures VoteSum(masks, tx) == Observers(|masks|, tx) - 2 * Distrust(masks, tx)
    ensures Distrust(masks, tx) <= Observers(|masks|, tx)
    ensures -(Observers(|masks|, tx) as int) <= VoteSum(masks, tx) <= Observers(|masks|, tx)
    ensures (Observers(|masks|, tx) - VoteSum(masks, tx)) % 2 == 0
    decreases |masks|
  {
    if masks != [] {
      VoteSumByDistrust(masks[..|masks| - 1], tx);
    }
  }

  /**
   * In the six-drone swarm of the simulation a transmitter's position is
   * replaced exactly when at least four of its five observers distrust it.
   */
  lemma RecoveryNeedsFourOfFive(masks: seq<bv32>, tx: nat)
    requires |masks| == 6 && tx < 6
    ensures VoteSum(masks, tx) <= VoteThreshold <==> Distrust(masks, tx) >= 4
  {
    VoteSumByDistrust(masks, tx);
  }

  // ------------------------------------------------------ the slot, as values

  ghost predicate WellFormedStates(states: seq<DroneState>) {
    forall k :: 0 <= k < |states| ==> WellFormedTracks(states[k].tracks)
  }

  /** The draws of a slot for a swarm of n drones: one of each per receiver, and a loss draw per packet entry. */
  predicate DrawsFit(draws: SlotDraws, n: nat) {
    && |draws.channel| == n && |draws.receiverGpsNoise| == n && |draws.loss| == n
    && forall k :: 0 <= k < n ==> n - 1 <= |draws.loss[k]|
  }

  /** Drone k's state after the reception loop: only a master broadcast moves a receiver's clock offset. */
  ghost function SyncedState(s: DroneState, k: nat, ctx: SlotContext, draws: SlotDraws, num: Numerics): DroneState
    requires k < |draws.channel| && k < |draws.receiverGpsNoise|
  {
    if ctx.txId == MasterAnchorId && k != ctx.txId
    then s.(offset := SyncedOffset(ctx, s.profile, s.offset, draws.channel[k], draws.receiverGpsNoise[k], num))
    else s
  }

  ghost function Synced(states: seq<DroneState>, ctx: SlotContext, draws: SlotDraws, num: Numerics)
    : (r: seq<DroneState>)
    requires |draws.channel| == |states| && |draws.receiverGpsNoise| == |states|
    ensures |r| == |states|
    ensures forall k :: 0 <= k < |r| ==> r[k].profile == states[k].profile && r[k].tracks == states[k].tracks
    ensures ctx.txId != MasterAnchorId ==> r == states
    ensures ctx.txId < |r| ==> r[ctx.txId] == states[ctx.txId]
  {
    seq(|states|, k requires 0 <= k < |states| => SyncedState(states[k], k, ctx, draws, num))
  }

  /**
   * The measurements of receivers 0 .. n-1, in index order, each made with
   * the receiver's offset as it stood before the slot; the transmitter
   * makes none. Entry j comes from receiver `AnchorAt(j, tx)`.
   */
  ghost function Received(states: seq<DroneState>, ctx: SlotContext, draws: SlotDraws, num: Numerics, n: nat)
    : (packet: seq<RangingMeasurement>)
    requires n <= |states| && |draws.channel| == |states| && |draws.receiverGpsNoise| == |states|
    ensures |packet| == if n <= ctx.txId then n else n - 1
    ensures forall j :: 0 <= j < |packet| ==>
      packet[j].targetId == ctx.txId && packet[j].anchorId == AnchorAt(j, ctx.txId) && packet[j].anchorId < n
    decreases n
  {
    if n == 0 then []
    else
      var a := n - 1;
      Received(states, ctx, draws, num, a)
        + if a == ctx.txId then []
          else [MeasurementOf(ctx, a, states[a].profile, states[a].offset, draws.channel[a], draws.receiverGpsNoise[a], num)]
  }

  /** The shared packet: empty in a master slot, otherwise every receiver's measurement. */
  ghost function PacketOf(states: seq<DroneState>, ctx: SlotContext, draws: SlotDraws, num: Numerics)
    : (packet: seq<RangingMeasurement>)
    requires ctx.txId < |states| && |draws.channel| == |states| && |draws.receiverGpsNoise| == |states|
    ensures ctx.txId == MasterAnchorId ==> packet == []
    ensures ctx.txId != MasterAnchorId ==> |packet| == |states| - 1
    ensures forall j :: 0 <= j < |packet| ==>
      packet[j].targetId == ctx.txId && packet[j].anchorId == AnchorAt(j, ctx.txId) && packet[j].anchorId < |states|
  {
    if ctx.txId == MasterAnchorId then [] else Received(states, ctx, draws, num, |states|)
  }

  /** The buffer of every drone: the transmitter gets none, every other drone its `Delivered` share. */
  function Buffers(packet: seq<RangingMeasurement>, tx: nat, loss: seq<seq<real>>)
    : (buffers: seq<seq<RangingMeasurement>>)
    requires forall k :: 0 <= k < |loss| ==> |packet| <= |loss[k]|
    ensures |buffers| == |loss|
    ensures tx < |buffers| ==> buffers[tx] == []
  {
    seq(|loss|, k requires 0 <= k < |loss| => if k == tx then [] else Delivered(packet, k, loss[k]))
  }

  /** Drone k's state after it ran its filter on `buffer`. */
  ghost function ObservedState(s: DroneState, k: nat, ctx: SlotContext, buffer: seq<RangingMeasurement>,
                               num: Numerics): DroneState
    requires WellFormedTracks(s.tracks) && NonNegativeNorm(num.norm)
  {
    s.(tracks := Observe(s.tracks, k, ctx.txId, ctx.claimed, ToMsmnts(buffer, ctx.txTimeSec), ctx.now,
                         num.norm, num.inverse))
  }

  ghost function ObservedStates(states: seq<DroneState>, ctx: SlotContext, buffers: seq<seq<RangingMeasurement>>,
                                num: Numerics): (r: seq<DroneState>)
    requires |buffers| == |states| && WellFormedStates(states) && NonNegativeNorm(num.norm)
    ensures |r| == |states|
  {
    seq(|states|, k requires 0 <= k < |states| => ObservedState(states[k], k, ctx, buffers[k], num))
  }

  /**
   * Observing keeps every drone's profile and clock offset, leaves the
   * transmitter alone, and changes an observer's tracks only in the
   * transmitter's entry, which it has afterwards.
   */
  lemma ObservedStatesProperties(states: seq<DroneState>, ctx: SlotContext, buffers: seq<seq<RangingMeasurement>>,
                                 num: Numerics)
    requires |buffers| == |states| && WellFormedStates(states) && NonNegativeNorm(num.norm)
    ensures var r := ObservedStates(states, ctx, buffers, num);
      && WellFormedStates(r)
      && (forall k :: 0 <= k < |r| ==> r[k].profile == states[k].profile && r[k].offset == states[k].offset)
      && (ctx.txId < |r| ==> r[ctx.txId] == states[ctx.txId])
      && (forall k :: 0 <= k < |r| && k != ctx.txId ==> r[k].tracks.Keys == states[k].tracks.Keys + {ctx.txId as int})
      && (forall k, other :: 0 <= k < |r| && other in states[k].tracks && other != ctx.txId ==>
            other in r[k].tracks && r[k].tracks[other] == states[k].tracks[other])
  {
  }

  /**
   * The drones' states after a slot: receivers synchronise, then every
   * drone observes its buffer of the packet. The transmitter's state does
   * not change, no drone's profile changes, a non-master slot moves no
   * clock, and an observer's tracks change only in the transmitter's entry,
   * which it has afterwards.
   */
  ghost function AfterSlot(states: seq<DroneState>, ctx: SlotContext, draws: SlotDraws, num: Numerics)
    : seq<DroneState>
    requires ctx.txId < |states| && DrawsFit(draws, |states|) && WellFormedStates(states) && NonNegativeNorm(num.norm)
  {
    var packet := PacketOf(states, ctx, draws, num);
    ObservedStates(Synced(states, ctx, draws, num), ctx, Buffers(packet, ctx.txId, draws.loss), num)
  }

  lemma AfterSlotProperties(states: seq<DroneState>, ctx: SlotContext, draws: SlotDraws, num: Numerics)
    requires ctx.txId < |states| && DrawsFit(draws, |states|) && WellFormedStates(states) && NonNegativeNorm(num.norm)
    ensures var r := AfterSlot(states, ctx, draws, num);
      && |r| == |states| && WellFormedStates(r)
      && r[ctx.txId] == states[ctx.txId]
      && (forall k :: 0 <= k < |r| ==> r[k].profile == states[k].profile)
      && (ctx.txId != MasterAnchorId ==> forall k :: 0 <= k < |r| ==> r[k].offset == states[k].offset)
      && (forall k :: 0 <= k < |r| && k != ctx.txId ==> r[k].tracks.Keys == states[k].tracks.Keys + {ctx.txId as int})
      && (forall k, other :: 0 <= k < |r| && other in states[k].tracks && other != ctx.txId ==>
            other in r[k].tracks && r[k].tracks[other] == states[k].tracks[other])
  {
    var synced := Synced(states, ctx, draws, num);
    ObservedStatesProperties(synced, ctx, Buffers(PacketOf(states, ctx, draws, num), ctx.txId, draws.loss), num);
  }

  /**
   * In a slot that is not the master's, every observer's buffer holds the
   * measurement it made itself, whatever the loss draws.
   */
  lemma OwnMeasurementDelivered(states: seq<DroneState>, ctx: SlotContext, draws: SlotDraws, num: Numerics, k: nat)
    requires ctx.txId < |states| && DrawsFit(draws, |states|) && ctx.txId != MasterAnchorId
    requires k < |states| && k != ctx.txId
    ensures var packet := PacketOf(states, ctx, draws, num);
      EntryOf(k, ctx.txId) < |packet| && packet[EntryOf(k, ctx.txId)].anchorId == k &&
      packet[EntryOf(k, ctx.txId)] in Buffers(packet, ctx.txId, draws.loss)[k]
  {
    var packet := PacketOf(states, ctx, draws, num);
    AnchorsCoverReceivers(ctx.txId, |states|);
    DeliveredKeeps(packet, k, draws.loss[k]);
  }

  /**
   * A master slot raises no alarm: if no drone had an alarm on the master
   * before, none has one after.
   */
  lemma MasterSlotKeepsAlarmsClear(states: seq<DroneState>, ctx: SlotContext, draws: SlotDraws, num: Numerics)
    requires ctx.txId < |states| && DrawsFit(draws, |states|) && WellFormedStates(states) && NonNegativeNorm(num.norm)
    requires ctx.txId == MasterAnchorId
    requires forall k :: 0 <= k < |states| && MasterAnchorId in states[k].tracks ==> !states[k].tracks[MasterAnchorId].alarm
    ensures var after := AfterSlot(states, ctx, draws, num);
      forall k :: 0 <= k < |after| && MasterAnchorId in after[k].tracks ==> !after[k].tracks[MasterAnchorId].alarm
  {
    var synced := Synced(states, ctx, draws, num);
    var buffers := Buffers(PacketOf(states, ctx, draws, num), ctx.txId, draws.loss);
    forall k | 0 <= k < |states|
      ensures var t := ObservedState(synced[k], k, ctx, buffers[k], num).tracks;
        MasterAnchorId in t ==> !t[MasterAnchorId].alarm
    {
      assert buffers[k] == [];
      MasterSlotRaisesNoAlarm(synced[k].tracks, k, ctx.claimed, ctx.txTimeSec, ctx.now, num.norm, num.inverse);
    }
  }

  /**
   * The transmission a report records: the sender, its message stamped at
   * `nowPs` plus its hardware drift (as a `uint64_t`), and the slot context.
   */
  ghost predicate ReportedTransmission(ctx: SlotContext, msg: UWBMessage, before: seq<DroneState>, nowPs: nat,
                                       draws: SlotDraws, unsetMask: bv32, environment: string, obstacles: seq<Obstacle>)
  {
    var tx := ctx.txId;
    var now := Seconds(nowPs);
    && tx < |before|
    && ctx == SlotContext(now, tx, before[tx].profile.truePosition, msg.gpsPosition,
                          Seconds(msg.txTimestampPs), environment, obstacles)
    && msg.senderId == tx && msg.voteBitmask == unsetMask
    && msg.txTimestampPs == TxStampPs(nowPs, before[tx].profile.clockDriftNs)
    && msg.gpsPosition == GpsFix(before[tx].profile, now, draws.senderGpsNoise)
  }

  /** Reception, the data link and the filters: the packet, the buffers and the states `after`. */
  ghost predicate ReportedPhases(r: SlotReport, before: seq<DroneState>, after: seq<DroneState>, draws: SlotDraws,
                                 num: Numerics)
  {
    var ctx := r.context;
    && ctx.txId < |before| && DrawsFit(draws, |before|) && WellFormedStates(before) && NonNegativeNorm(num.norm)
    && r.packet == PacketOf(before, ctx, draws, num)
    && r.buffers == Buffers(r.packet, ctx.txId, draws.loss)
    && after == AfterSlot(before, ctx, draws, num)
  }

  /** Consensus and recovery: the vote sum, the observers' estimates, the reset decision and the log. */
  ghost predicate ReportedConsensus(r: SlotReport, after: seq<DroneState>, masks: seq<bv32>,
                                    recover: (nat, map<int, Vec3>) -> Vec3)
  {
    var ctx := r.context;
    var tx := ctx.txId;
    && tx < |after| <= MaxSwarm && |masks| == |after| && WellFormedStates(after)
    && r.votes == VoteSum(masks, tx)
    && (forall k :: k in r.peerEstimates <==> 0 <= k < |after| && k != tx)
    && (forall k :: 0 <= k < |after| && k != tx ==> r.peerEstimates[k] == EstimateOf(after[k].tracks, tx))
    && (r.reset <==> r.votes <= VoteThreshold)
    && r.recovered == (if r.reset then recover(tx, r.peerEstimates) else ctx.claimed)
    && |r.log| == |after| - 1
    && (forall j :: 0 <= j < |r.log| ==> r.log[j] == LogEntry(ctx.now, tx, AnchorAt(j, tx), ctx.claimed, r.recovered))
  }

  /** The facts a slot's report states about the drones' states `before` and `after` it. */
  ghost predicate Reported(r: SlotReport, before: seq<DroneState>, after: seq<DroneState>, nowPs: nat,
                           draws: SlotDraws, masks: seq<bv32>, unsetMask: bv32,
                           recover: (nat, map<int, Vec3>) -> Vec3, num: Numerics,
                           environment: string, obstacles: seq<Obstacle>)
  {
    && ReportedTransmission(r.context, r.message, before, nowPs, draws, unsetMask, environment, obstacles)
    && ReportedPhases(r, before, after, draws, num)
    && ReportedConsensus(r, after, masks, recover)
  }

  // ---------------------------------------------------------- the scheduler

  class TdmaScheduler {
    const swarm: seq<Drone>
    const channel: UWBChannel
    var currentSlotIdx: nat

    /** Drone k has id k, the drones are distinct and each is consistent, and their number fits a vote mask. */
    ghost predicate Valid()
      reads swarm
    {
      && 1 <= |swarm| <= MaxSwarm
      && (forall k :: 0 <= k < |swarm| ==> swarm[k].id == k && swarm[k].Valid())
      && (forall j, k :: 0 <= j < k < |swarm| ==> swarm[j] != swarm[k])
    }

    /** The state of every drone, in index order. */
    ghost function States(): (states: seq<DroneState>)
      reads swarm
      requires Valid()
      ensures |states| == |swarm| && WellFormedStates(states)
      ensures forall k :: 0 <= k < |swarm| ==> states[k] == swarm[k].State()
    {
      var drones := swarm;
      seq(|drones|, k requires 0 <= k < |drones| && drones[k].Valid() reads drones => drones[k].State())
    }

    /** The states are `target` when every drone's state is the matching entry. */
    lemma StatesAre(target: seq<DroneState>)
      requires Valid() && |target| == |swarm|
      requires forall k :: 0 <= k < |swarm| ==> swarm[k].State() == target[k]
      ensures States() == target
    {
    }

    constructor (drones: seq<Drone>, uwb: UWBChannel)
      requires 1 <= |drones| <= MaxSwarm
      requires forall k :: 0 <= k < |drones| ==> drones[k].id == k && drones[k].Valid()
      ensures Valid() && swarm == drones && channel == uwb && currentSlotIdx == 0
    {
      swarm := drones;
      channel := uwb;
      currentSlotIdx := 0;
    }

    /** A master slot, receiver `i`: the clock offset is resynchronised and nothing else changes. */
    method SyncFrom(i: nat, ctx: SlotContext, draws: SlotDraws, num: Numerics)
      requires i < |swarm| && i != ctx.txId && ctx.txId == MasterAnchorId
      requires ctx.environment == channel.environment && ctx.obstacles == channel.obstacles
      requires |draws.channel| == |swarm| && |draws.receiverGpsNoise| == |swarm|
      modifies swarm[i]
      ensures swarm[i].clockOffsetCorrection == SyncedOffset(ctx, old(swarm[i].Profile()),
        old(swarm[i].clockOffsetCorrection), draws.channel[i], draws.receiverGpsNoise[i], num)
      ensures swarm[i].Profile() == old(swarm[i].Profile())
      ensures swarm[i].ekfBank == old(swarm[i].ekfBank) && swarm[i].lastCalcTime == old(swarm[i].lastCalcTime)
      ensures swarm[i].securityAlarm == old(swarm[i].securityAlarm)
    {
      var rx := swarm[i];
      var cond := channel.ComputeChannelCondition(ctx.txPos, rx.truePosition, SlotTxPowerDbm, draws.channel[i],
                                                  num.norm, num.exp, num.log10);
      var dist := num.norm(Sub(ctx.txPos, rx.truePosition));
      var raw := RawArrival(ctx.now, dist, cond.rangingErrorM, rx.clockDriftNs);
      assert raw == ArrivalAt(ctx, rx.Profile(), draws.channel[i], num);
      var geoDist := num.norm(Sub(ctx.claimed, rx.GpsPosition(ctx.now, draws.receiverGpsNoise[i])));
      rx.SetClockOffset(SmoothedOffset(rx.clockOffsetCorrection, raw, ctx.txTimeSec, geoDist));
    }

    /** Any other slot, receiver `i`: the arrival becomes a measurement and no drone changes. */
    method MeasureFrom(i: nat, ctx: SlotContext, draws: SlotDraws, num: Numerics)
      returns (m: RangingMeasurement)
      requires i < |swarm| && i != ctx.txId
      requires ctx.environment == channel.environment && ctx.obstacles == channel.obstacles
      requires |draws.channel| == |swarm| && |draws.receiverGpsNoise| == |swarm|
      ensures m == MeasurementOf(ctx, i, swarm[i].Profile(), swarm[i].clockOffsetCorrection, draws.channel[i],
                                 draws.receiverGpsNoise[i], num)
    {
      var rx := swarm[i];
      var cond := channel.ComputeChannelCondition(ctx.txPos, rx.truePosition, SlotTxPowerDbm, draws.channel[i],
                                                  num.norm, num.exp, num.log10);
      var dist := num.norm(Sub(ctx.txPos, rx.truePosition));
      var raw := RawArrival(ctx.now, dist, cond.rangingErrorM, rx.clockDriftNs);
      assert raw == ArrivalAt(ctx, rx.Profile(), draws.channel[i], num);
      m := RangingMeasurement(ctx.txId, i, rx.GpsPosition(ctx.now, draws.receiverGpsNoise[i]),
                              raw - rx.clockOffsetCorrection, cond.isLos);
    }

    /** The reception loop of a master slot: every drone ends in `Synced` of its state. */
    method SyncAll(ctx: SlotContext, draws: SlotDraws, num: Numerics, ghost states: seq<DroneState>)
      requires Valid() && ctx.txId < |swarm| && ctx.txId == MasterAnchorId
      requires ctx.environment == channel.environment && ctx.obstacles == channel.obstacles
      requires |draws.channel| == |swarm| && |draws.receiverGpsNoise| == |swarm|
      requires |states| == |swarm| && forall k :: 0 <= k < |swarm| ==> swarm[k].State() == states[k]
      modifies swarm
      ensures Valid()
      ensures forall k :: 0 <= k < |swarm| ==> swarm[k].State() == SyncedState(states[k], k, ctx, draws, num)
    {
      var i := 0;
      while i < |swarm|
        invariant 0 <= i <= |swarm|
        invariant forall k :: 0 <= k < |swarm| ==>
          && swarm[k].Profile() == states[k].profile
          && swarm[k].ekfBank == old(swarm[k].ekfBank) && swarm[k].lastCalcTime == old(swarm[k].lastCalcTime)
          && swarm[k].securityAlarm == old(swarm[k].securityAlarm)
        invariant forall k :: 0 <= k < |swarm| ==>
          swarm[k].clockOffsetCorrection == if k < i then SyncedState(states[k], k, ctx, draws, num).offset
                                            else states[k].offset
      {
        if i != ctx.txId {
          SyncFrom(i, ctx, draws, num);
        }
        i := i + 1;
      }
      forall k | 0 <= k < |swarm|
        ensures swarm[k].Valid() && swarm[k].State() == SyncedState(states[k], k, ctx, draws, num)
      {
        assert old(swarm[k].Valid() && swarm[k].State() == states[k]);
      }
    }

    /** The reception loop of any other slot: the packet is every receiver's measurement. */
    method CollectAll(ctx: SlotContext, draws: SlotDraws, num: Numerics, ghost states: seq<DroneState>)
      returns (packet: seq<RangingMeasurement>)
      requires ctx.txId < |swarm| && ctx.txId != MasterAnchorId
      requires ctx.environment == channel.environment && ctx.obstacles == channel.obstacles
      requires |draws.channel| == |swarm| && |draws.receiverGpsNoise| == |swarm| && |states| == |swarm|
      requires forall k :: 0 <= k < |swarm| ==>
        swarm[k].Profile() == states[k].profile && swarm[k].clockOffsetCorrection == states[k].offset
      ensures packet == Received(states, ctx, draws, num, |swarm|)
    {
      packet := [];
      var i := 0;
      while i < |swarm|
        invariant 0 <= i <= |swarm|
        invariant packet == Received(states, ctx, draws, num, i)
      {
        if i != ctx.txId {
          var m := MeasureFrom(i, ctx, draws, num);
          assert m == MeasurementOf(ctx, i, states[i].profile, states[i].offset, draws.channel[i],
                                    draws.receiverGpsNoise[i], num);
          packet := packet + [m];
        }
        i := i + 1;
      }
    }

    /**
     * The reception phase: the drones end in `Synced` of their states and
     * the packet is `PacketOf` them. Whether the slot is the master's is
     * fixed for the whole loop, so the two branches are two loops.
     */
    method ReceiveAll(ctx: SlotContext, draws: SlotDraws, num: Numerics, ghost states: seq<DroneState>)
      returns (packet: seq<RangingMeasurement>)
      requires Valid() && ctx.txId < |swarm|
      requires ctx.environment == channel.environment && ctx.obstacles == channel.obstacles
      requires |draws.channel| == |swarm| && |draws.receiverGpsNoise| == |swarm|
      requires |states| == |swarm| && forall k :: 0 <= k < |swarm| ==> swarm[k].State() == states[k]
      modifies swarm
      ensures Valid()
      ensures forall k :: 0 <= k < |swarm| ==> swarm[k].State() == Synced(states, ctx, draws, num)[k]
      ensures packet == PacketOf(states, ctx, draws, num)
    {
      if ctx.txId == MasterAnchorId {
        SyncAll(ctx, draws, num, states);
        packet := [];
      } else {
        packet := CollectAll(ctx, draws, num, states);
      }
    }

    /**
     * One iteration of the data-link loop, for drone `i`: its buffer is
     * entry i of `Buffers` and its new state entry i of `ObservedStates`.
     */
    method ObserveFrom(i: nat, ctx: SlotContext, packet: seq<RangingMeasurement>, loss: seq<seq<real>>, num: Numerics,
                       ghost states: seq<DroneState>)
      returns (buffer: seq<RangingMeasurement>)
      requires Valid() && i < |swarm| && NonNegativeNorm(num.norm)
      requires |loss| == |swarm| && forall k :: 0 <= k < |loss| ==> |packet| <= |loss[k]|
      requires |states| == |swarm| && WellFormedStates(states) && swarm[i].State() == states[i]
      modifies swarm[i]
      ensures Valid()
      ensures buffer == Buffers(packet, ctx.txId, loss)[i]
      ensures swarm[i].State() == ObservedStates(states, ctx, Buffers(packet, ctx.txId, loss), num)[i]
    {
      var drone := swarm[i];
      if drone.id == ctx.txId {
        buffer := [];
      } else {
        buffer := FilterBuffer(packet, drone.id, loss[i]);
        drone.ComputeNeighborPosition(ctx.txId, ctx.claimed, buffer, ctx.now, ctx.txTimeSec, num.norm, num.inverse);
      }
    }

    /**
     * The data-link loop: every drone but the transmitter gets its buffer
     * and runs its filter; the drones end in `ObservedStates` of their states.
     */
    method DeliverAll(ctx: SlotContext, packet: seq<RangingMeasurement>, loss: seq<seq<real>>, num: Numerics,
                      ghost states: seq<DroneState>)
      returns (buffers: seq<seq<RangingMeasurement>>)
      requires Valid() && NonNegativeNorm(num.norm)
      requires |loss| == |swarm| && forall k :: 0 <= k < |loss| ==> |packet| <= |loss[k]|
      requires |states| == |swarm| && WellFormedStates(states)
      requires forall k :: 0 <= k < |swarm| ==> swarm[k].State() == states[k]
      modifies swarm
      ensures Valid()
      ensures buffers == Buffers(packet, ctx.txId, loss)
      ensures forall k :: 0 <= k < |swarm| ==> swarm[k].State() == ObservedStates(states, ctx, buffers, num)[k]
    {
      ghost var all := Buffers(packet, ctx.txId, loss);
      ghost var target := ObservedStates(states, ctx, all, num);
      buffers := [];
      var i := 0;
      while i < |swarm|
        invariant 0 <= i <= |swarm| && Valid()
        invariant buffers == all[..i]
        invariant forall k :: 0 <= k < |swarm| ==> swarm[k].State() == if k < i then target[k] else states[k]
      {
        label Before:
        var buffer := ObserveFrom(i, ctx, packet, loss, num, states);
        forall k | 0 <= k < |swarm| && k != i
          ensures swarm[k].Valid() && swarm[k].State() == old@Before(swarm[k].State())
        {
          assert swarm[k] != swarm[i];
        }
        assert all[..i + 1] == all[..i] + [buffer];
        buffers := buffers + [buffer];
        i := i + 1;
      }
      assert all[..i] == all;
    }

    /**
     * Reception then the data link: the packet, the buffers, and every
     * drone's state after the slot.
     */
    method RunPhases(ctx: SlotContext, draws: SlotDraws, num: Numerics)
      returns (packet: seq<RangingMeasurement>, buffers: seq<seq<RangingMeasurement>>)
      requires Valid() && ctx.txId < |swarm| && NonNegativeNorm(num.norm) && DrawsFit(draws, |swarm|)
      requires ctx.environment == channel.environment && ctx.obstacles == channel.obstacles
      modifies swarm
      ensures Valid()
      ensures packet == PacketOf(old(States()), ctx, draws, num)
      ensures buffers == Buffers(packet, ctx.txId, draws.loss)
      ensures States() == AfterSlot(old(States()), ctx, draws, num)
    {
      ghost var before := States();
      packet := ReceiveAll(ctx, draws, num, before);
      ghost var synced := Synced(before, ctx, draws, num);
      buffers := DeliverAll(ctx, packet, draws.loss, num, synced);
      StatesAre(AfterSlot(before, ctx, draws, num));
    }

    /** The voting loop: the vote sum and every observer's estimate of the transmitter. */
    method TallyVotes(tx: nat, masks: seq<bv32>, ghost states: seq<DroneState>)
      returns (total: int, estimates: map<int, Vec3>)
      requires Valid() && tx < |swarm| && |masks| == |swarm|
      requires |states| == |swarm| && WellFormedStates(states)
      requires forall k :: 0 <= k < |swarm| ==> swarm[k].State() == states[k]
      ensures total == VoteSum(masks, tx)
      ensures forall k :: k in estimates <==> 0 <= k < |swarm| && k != tx
      ensures forall k :: 0 <= k < |swarm| && k != tx ==> estimates[k] == EstimateOf(states[k].tracks, tx)
    {
      total := 0;
      estimates := map[];
      var i := 0;
      while i < |swarm|
        invariant 0 <= i <= |swarm|
        invariant total == VoteSum(masks[..i], tx)
        invariant forall k :: k in estimates <==> 0 <= k < i && k != tx
        invariant forall k :: 0 <= k < i && k != tx ==> estimates[k] == EstimateOf(states[k].tracks, tx)
      {
        assert masks[..i + 1][..i] == masks[..i];
        var observer := swarm[i].id;
        if observer != tx {
          estimates := estimates[observer := swarm[i].EstimatedPositionOf(tx)];
          total := total + (if VoteBit(masks[i], tx) then 1 else -1);
        }
        i := i + 1;
      }
      assert masks[..i] == masks;
    }

    /** The log lines: one per observer, in index order. */
    method LogEntries(now: real, tx: nat, claimed: Vec3, recovered: Vec3) returns (log: seq<LogEntry>)
      requires Valid() && tx < |swarm|
      ensures |log| == |swarm| - 1
      ensures forall j :: 0 <= j < |log| ==> log[j] == LogEntry(now, tx, AnchorAt(j, tx), claimed, recovered)
    {
      log := [];
      var i := 0;
      while i < |swarm|
        invariant 0 <= i <= |swarm|
        invariant |log| == if i <= tx then i else i - 1
        invariant forall j :: 0 <= j < |log| ==> log[j] == LogEntry(now, tx, AnchorAt(j, tx), claimed, recovered)
      {
        if i != tx {
          log := log + [LogEntry(now, tx, i, claimed, recovered)];
        }
        i := i + 1;
      }
    }

    /**
     * Voting, recovery and logging: the report of a slot whose transmission
     * was `msg` in context `ctx` and whose drones are now in states `after`.
     */
    method Consensus(ctx: SlotContext, msg: UWBMessage, packet: seq<RangingMeasurement>,
                     buffers: seq<seq<RangingMeasurement>>, masks: seq<bv32>,
                     recover: (nat, map<int, Vec3>) -> Vec3, ghost after: seq<DroneState>)
      returns (r: SlotReport)
      requires Valid() && ctx.txId < |swarm| && |masks| == |swarm| && msg.gpsPosition == ctx.claimed
      requires |after| == |swarm| && WellFormedStates(after)
      requires forall k :: 0 <= k < |swarm| ==> swarm[k].State() == after[k]
      ensures r.context == ctx && r.message == msg && r.packet == packet && r.buffers == buffers
      ensures ReportedConsensus(r, after, masks, recover)
    {
      var tx := ctx.txId;
      var votes, estimates := TallyVotes(tx, masks, after);
      var reset := votes <= VoteThreshold;
      var recovered := if reset then recover(tx, estimates) else msg.gpsPosition;
      var log := LogEntries(ctx.now, tx, msg.gpsPosition, recovered);
      r := SlotReport(ctx, msg, packet, buffers, votes, estimates, reset, recovered, log);
    }

    /** Moves on to the next slot; no drone changes. */
    method AdvanceSlot()
      requires Valid()
      modifies this
      ensures currentSlotIdx == old(currentSlotIdx) + 1
      ensures Valid() && States() == old(States())
    {
      currentSlotIdx := currentSlotIdx + 1;
    }

    /**
     * One TDMA slot at time `nowPs`. After the end of the simulation nothing
     * happens; otherwise drone `slot mod N` transmits, the slot counter
     * advances, the drones move to `AfterSlot` of their states and the
     * report says what happened (`Reported`).
     */
    method ExecuteSlot(nowPs: nat, draws: SlotDraws, masks: seq<bv32>, unsetMask: bv32,
                       recover: (nat, map<int, Vec3>) -> Vec3, num: Numerics)
      returns (report: Option<SlotReport>)
      requires Valid() && NonNegativeNorm(num.norm) && DrawsFit(draws, |swarm|) && |masks| == |swarm|
      modifies this, swarm
      ensures Valid()
      ensures Seconds(nowPs) > SimTimeS ==>
        report.None? && currentSlotIdx == old(currentSlotIdx) && States() == old(States())
      ensures Seconds(nowPs) <= SimTimeS ==>
        && report.Some?
        && currentSlotIdx == old(currentSlotIdx) + 1
        && report.value.context.txId == old(currentSlotIdx) % |swarm|
      ensures report.Some? ==>
        Reported(report.value, old(States()), States(), nowPs, draws, masks, unsetMask, recover, num,
                 old(channel.environment), old(channel.obstacles))
    {
      var now := Seconds(nowPs);
      if now > SimTimeS {
        return None;
      }
      ghost var before := States();
      var tx := currentSlotIdx % |swarm|;
      var sender := swarm[tx];
      var msg := sender.CreateTDMAMessage(nowPs, draws.senderGpsNoise, unsetMask);
      assert msg.txTimestampPs == TxStampPs(nowPs, before[tx].profile.clockDriftNs);
      var ctx := SlotContext(now, tx, sender.truePosition, msg.gpsPosition, Seconds(msg.txTimestampPs),
                             channel.environment, channel.obstacles);
      assert ReportedTransmission(ctx, msg, before, nowPs, draws, unsetMask, channel.environment, channel.obstacles);
      var packet, buffers := RunPhases(ctx, draws, num);
      var r := Consensus(ctx, msg, packet, buffers, masks, recover, States());
      AdvanceSlot();
      report := Some(r);
    }
  }
}
