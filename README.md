# Drone-swarm TDoA localisation with SwarmRaft voting, in Dafny

This project models the core of an ns-3 simulation of a drone swarm. The
drones localise each other by time difference of arrival (TDoA) over
ultra-wideband (UWB) radio, and they vote out a drone whose GPS claims
disagree with where its neighbours place it.

- **Slots.** One drone transmits per TDMA slot, in round-robin order.
- **Reception.** Every other drone receives the slot's broadcast through a
  simulated UWB channel. The channel decides line of sight from obstacles
  and a random draw, then adds path loss, delay spread and a ranging error.
- **Clock sync.** A broadcast from the master anchor (drone 1) disciplines
  the receivers' clock offsets. Any other broadcast becomes one ranging
  measurement per receiver.
- **Data link.** The measurements are shared over a lossy link. Each
  observer always keeps its own measurement and keeps any other one when
  its loss draw exceeds 0.10.
- **Filters.** Each observer runs a per-neighbour extended Kalman filter
  (EKF). The state is position, velocity and clock bias. The observer
  raises an alarm when the estimate is more than 10 m from the
  transmitter's claimed GPS position.
- **Voting.** The observers vote with one bit each. A sum of -3 or less
  triggers recovery of the transmitter's position.
- **Multilateration.** A separate closed-form multilateration solver
  (`mlat_core.cpp`) locates an emitter from four anchors, or from five or
  more.

## Modules

| module | file | models |
|---|---|---|
| `Geometry` | geometry.dfy | 3-vectors, squared norms, comparisons on squares |
| `Matrices` | matrices.dfy | vectors and matrices as sequences, products, identity |
| `Messages` | messages.dfy | `UWBMessage` and `RangingMeasurement` (UWBMessage.h) |
| `Ekf` | ekf.dfy | `TDoAEKF` (TDoAEKF.h, TDoAEKF.cpp) |
| `Channel` | channel.dfy | `UWBChannel` (UWBChannel.h, UWBChannel.cpp) |
| `Drones` | drone.dfy | `Drone` (Drone.h, Drone.cpp) |
| `Tdma` | scheduler.dfy | `TDMAScheduler::ExecuteSlot` (tdoa_main.cpp, tdoa_uwb_sim.cpp) |
| `Mlat` | mlat.dfy | `select_best_solution` and `mlat_solver` (mlat_core.cpp) |

### How each part is modelled

The classes whose fields the source updates in place are Dafny classes:
`TDoAEKF`, `UWBChannel`, `Drone` and `TdmaScheduler`. Each method is
proved against a function on values:

- `TDoAEKF.Predict` against `Predicted`;
- `Drone.ComputeNeighborPosition` against `Observe`, over the drone's
  per-neighbour `Track`s;
- `TdmaScheduler.ExecuteSlot` against `AfterSlot` and `Reported`, over
  `DroneState`s.

The properties are lemmas about those functions.

`tdoa_main.cpp` and `tdoa_uwb_sim.cpp` contain the same `ExecuteSlot`,
differing only in names and comments. The table cites `tdoa_main.cpp`.
The matching lines of `tdoa_uwb_sim.cpp` are:

| part of the slot | tdoa_uwb_sim.cpp | tdoa_main.cpp |
|---|---|---|
| time guard and round robin | 44-47 | 93-96 |
| master sync | 75-93 | 116-126 |
| data link | 115-129 | 143-157 |
| votes and recovery | 134-156 | 160-180 |
| slot increment | 158 | 182 |

Every random draw is a parameter: uniform draws in [0, 1) and standard
normal draws, which the model scales by the source's constants. So are
the primitives the source computes in floating point: the Euclidean norm,
square root, `exp`, `log10`, the matrix inverse of the Kalman gain and the
QR solve. Wherever a proof needs more than an arbitrary function, it says
what the primitive must satisfy, for example `EuclideanNorm(norm)` or
`ExactSqrt(sqrt)`. Arithmetic is exact over `real`.

### Where the code departs from its own comments (the model follows the code)

- **`SetMalicious` can clear the flag** (`Drone.cpp:28-35`). A later rising
  edge records a new attack start.
- **`GetVoteBitmask`, `GetRecoveredPosition` and `ResetState` are not in
  this model.** They are called at `tdoa_main.cpp:166,172-173`, but neither
  `Drone.h` nor `Drone.cpp` declares or defines them. The model therefore
  takes as parameters:
  - the vote masks;
  - the recovery function, which the header comment of `tdoa_main.cpp`
    (lines 24-26) describes as using the group's medians;
  - the reset request, which becomes the report's `reset` flag and its
    `recovered` position.
- **`CreateTDMAMessage` never sets `vote_bitmask`** (`Drone.cpp:91-100`).
  The message carries a caller-supplied value for that field.

## Model

| member | source | states |
|---|---|---|
| Ekf.InitialState | TDoAEKF.cpp:14-16 | `Init` seeds the state with the position, zero velocity and zero clock bias |
| Ekf.InitialCovariance | TDoAEKF.cpp:18-21 | the initial P is diagonal: 5 on the position entries, 1 on velocity, 500 on the bias, 0 off the diagonal |
| Ekf.InitialNoise | TDoAEKF.cpp:23-24 | the process noise Q, scaled by 1 with Q(6,6) = 1, is exactly the identity |
| Ekf.Initial | TDoAEKF.cpp:13-25 | the initialised filter is well formed: a 7-state, a 7x7 covariance and Q = I |
| Ekf.Transition | TDoAEKF.cpp:30-33 | F is the identity with F(i, i+3) = dt for the three position rows and 0 elsewhere |
| Ekf.Predicted | TDoAEKF.cpp:27-37 | prediction keeps a filter well formed |
| Ekf.PredictAdvancesPosition | TDoAEKF.cpp:28-35 | dt <= 0 changes nothing; otherwise position i becomes x_i + dt v_i and velocity and bias are unchanged |
| Ekf.PredictGrowsBiasVariance | TDoAEKF.cpp:24-36 | each prediction with dt > 0 adds exactly 1 to the bias variance P(6,6); dt <= 0 leaves it unchanged |
| Ekf.Updated | TDoAEKF.cpp:39-73 | the update keeps a filter well formed |
| Ekf.Linearize | TDoAEKF.cpp:52-65 | the loop builds, for each measurement in order, the residual (toa - tx)c, the prediction norm(est - anchor) + bias, and a Jacobian row with 0 in the velocity columns and 1 for the bias |
| Ekf.TDoAEKF.constructor | TDoAEKF.cpp:7-11 | a new filter has zero state and P = Q = I |
| Ekf.TDoAEKF.Init | TDoAEKF.cpp:13-25 | the filter becomes `Initial(p)`, whatever it held before |
| Ekf.TDoAEKF.Predict | TDoAEKF.cpp:27-37 | the filter becomes `Predicted` of its old value, and is unchanged for dt <= 0 |
| Ekf.TDoAEKF.Update | TDoAEKF.cpp:39-73 | the filter becomes `Updated` of its old value, and is unchanged for an empty measurement list |
| Ekf.TDoAEKF.Position | TDoAEKF.cpp:75 | the position is exactly state components 0..2 |
| Channel.InsideMatchesNorm | UWBChannel.cpp:46-47 | the squared test for "inside an obstacle" holds exactly when the true distance is below the radius |
| Channel.LosScale | UWBChannel.cpp:56-62 | the LOS distance scale is positive for every environment label |
| Channel.PathLossNlosExcess | UWBChannel.cpp:68-89 | NLOS path loss is LOS path loss plus the environment's excess term (5 + 10 log10(d/10) outdoors, 10 + 15 log10(d/10) elsewhere) plus the extra shadowing (6 - 3) dB x the standard normal draw; without shadowing, and wherever log10(d/10) >= 0 (d >= 10 m for the true log10), NLOS loss exceeds LOS loss |
| Channel.DelaySpreadOrdering | UWBChannel.cpp:91-102 | for d >= 0 the spread is at least 5 ns, and the NLOS spread exceeds the LOS spread in every environment |
| Channel.NlosBias | UWBChannel.cpp:113-115 | a uniform draw in [0, 1) gives an NLOS bias in [0.3, 2.5) |
| Channel.RangingErrorScaling | UWBChannel.cpp:118-119 | for d >= 0 the scaled error is at least the base error in magnitude and has the same sign |
| Channel.UWBChannel.constructor | UWBChannel.cpp:16-21 | the environment defaults to "outdoor", with no obstacles |
| Channel.UWBChannel.SetEnvironment | UWBChannel.cpp:25-28 | the label is overwritten and the obstacles are kept |
| Channel.UWBChannel.AddObstacle | UWBChannel.cpp:30-33 | one obstacle is appended after the existing ones; the label is kept |
| Channel.UWBChannel.DetermineLOS | UWBChannel.cpp:35-66 | a blocked sample among the 20 points before rx gives NLOS whatever the draw; otherwise LOS iff u < exp(-d / scale) |
| Channel.UWBChannel.ComputeChannelCondition | UWBChannel.cpp:122-137 | one LOS decision feeds path loss, delay spread and ranging error; rssi = tx power - path loss; a blocked link is NLOS |
| Drones.SpoofOffset | Drone.cpp:56-76 | the spoof offset lies in [0, 15], is 0 before the attack starts and exactly 15 from 10 s after it |
| Drones.SpoofOffsetMonotone | Drone.cpp:65-75 | the spoof offset never decreases as time goes on |
| Drones.TruncTowardZero | Drone.cpp:97 | the cast drops the fraction toward zero: within 1 of the value, no larger in magnitude, never changing sign |
| Drones.FirstContact | Drone.cpp:108-113 | a neighbour's first track holds a well-formed initialised filter |
| Drones.AlarmMatchesNorm | Drone.cpp:137-140 | the alarm test on squares is exactly "distance > 10", strictly |
| Drones.NeighborStep | Drone.cpp:115-140 | a filter step keeps the filter well formed |
| Drones.NeighborStepNeedsFour | Drone.cpp:116 | with fewer than 4 measurements the track is unchanged |
| Drones.NeighborStepAlarm | Drone.cpp:136-140 | with 4 or more measurements the alarm is exactly the new estimate's comparison with the claim |
| Drones.NeighborStepTiming | Drone.cpp:128-134 | the filter runs, and its time becomes now, only when dt > 0; otherwise the filter and time stay; the time never goes back |
| Drones.NeighborStepIdempotent | Drone.cpp:128-140 | a second observation at the same instant with the same data changes nothing |
| Drones.Observe | Drone.cpp:103-141 | observing keeps every filter well formed |
| Drones.ObserveProperties | Drone.cpp:106-116 | a drone's own transmissions change nothing; otherwise the sender gains a track, other tracks are kept, and with fewer than 4 measurements the sender's track is the fresh one or the old one |
| Drones.BuildFilterInputs | Drone.cpp:118-126 | one filter input per measurement, in order, carrying its anchor, its arrival and the transmit time |
| Drones.Advance | Drone.cpp:128-140 | the filter step of a drone with 4 or more measurements is `NeighborStep` and keeps the filter well formed |
| Drones.ObserveIsStep | Drone.cpp:108-141 | when the drone is not the sender, the sender's entry becomes the step of its prior track and nothing else changes |
| Drones.ObserveFewMeasurements | Drone.cpp:108-116 | with fewer than 4 measurements the only change is the lazy creation of the sender's track |
| Drones.TracksOf | Drone.h:75-77 | the three per-neighbour maps, with shared keys, read as one track per key |
| Drones.TracksOfUpdate | Drone.cpp:131-139 | writing a key in all three maps writes that key's track and no other |
| Drones.Drone.constructor | Drone.cpp:16-21 | a new drone has id 0, is honest, has no drift or offset and tracks no neighbour |
| Drones.Drone.SetId | Drone.cpp:25 | the id is set and nothing else changes |
| Drones.Drone.SetMalicious | Drone.cpp:28-35 | the flag becomes b; the attack start moves to now iff b and the flag was clear; nothing else changes |
| Drones.Drone.SetTruePosition | Drone.cpp:36-42 | the ground-truth position is set and nothing else changes |
| Drones.Drone.SetClockDrift | Drone.cpp:84 | the drift is set and nothing else changes |
| Drones.Drone.SetClockOffset | Drone.cpp:87 | the offset correction is set and nothing else changes |
| Drones.Drone.GpsPosition | Drone.cpp:44-79 | x and z are truth plus noise; y gets the spoof ramp only when malicious, within [0, 15] on top of the noise, 0 before the start and 15 from 10 s after it |
| Drones.Drone.CreateTDMAMessage | Drone.cpp:91-101 | the message carries the id and the GPS fix; the timestamp is (now + trunc(drift x 1000)) mod 2^64 ps, the uint64 sum, so it equals now + trunc(drift x 1000) when that fits in 64 bits and is never before now for a non-negative drift |
| Drones.Drone.ComputeNeighborPosition | Drone.cpp:103-141 | the tracks become `Observe` of the old ones; identity, flags, positions, drift and offset are unchanged |
| Drones.Drone.InitTrackIfNew | Drone.cpp:108-113 | an unknown sender gets an `Init(claimed)` filter, time 0 and no alarm; a known one keeps its track |
| Drones.Drone.StoreTrack | Drone.cpp:131-140 | the sender's filter, time and alarm are written back; no other neighbour changes |
| Drones.Drone.EstimatedPositionOf | Drone.cpp:143-146 | the filtered position of a known neighbour, the origin for an unknown one; nothing is inserted |
| Drones.Drone.IsAlarmActiveFor | Drone.cpp:148-151 | true iff the neighbour is known and its alarm is raised; nothing is inserted |
| Tdma.PseudorangeOfArrival | tdoa_main.cpp:110-114 | the pseudorange of a corrected arrival is distance + ranging error + c x (send-time gap + drift - offset) |
| Tdma.SmoothedOffset | tdoa_main.cpp:117-124 | the new offset is 0.2 old + 0.8 clock error: its distance to the error shrinks to a fifth, and a correct offset stays put |
| Tdma.AnchorsCoverReceivers | tdoa_main.cpp:103-135 | the packet's entries name every receiver but the transmitter, once each, in increasing order |
| Tdma.DeliveredIsSubsequence | tdoa_main.cpp:143-155 | each buffer is an order-preserving subsequence of the packet |
| Tdma.DeliveredKeeps | tdoa_main.cpp:147-155 | every kept entry reaches the buffer, and the observer's own measurement always does |
| Tdma.DeliveredFromPacket | tdoa_main.cpp:146-155 | a buffer holds only entries of the packet |
| Tdma.DeliveredExactly | tdoa_main.cpp:147-155 | with distinct anchors, an entry reaches an observer iff it is its own or its loss draw exceeds 0.10 |
| Tdma.FilterBuffer | tdoa_main.cpp:146-155 | the buffer loop computes `Delivered` |
| Tdma.MasterSlotRaisesNoAlarm | tdoa_main.cpp:116-156 | with the master's empty packet, an observer's track of the master never gains an alarm |
| Tdma.VoteSumByDistrust | tdoa_main.cpp:161-169 | vote sum = observers - 2 x distrusting votes; so it is at most the observer count in size and has its parity |
| Tdma.RecoveryNeedsFourOfFive | tdoa_main.cpp:161-171 | with six drones, recovery happens iff at least four of the five observers have the bit cleared |
| Tdma.Synced | tdoa_main.cpp:116-126 | profiles and tracks are unchanged; a non-master slot moves no clock; the transmitter is untouched |
| Tdma.Received | tdoa_main.cpp:103-136 | one measurement per receiver but the transmitter, in index order, targeting the transmitter |
| Tdma.PacketOf | tdoa_main.cpp:102-136 | a master slot shares an empty packet; any other slot shares N-1 entries, entry j from receiver `AnchorAt(j, tx)` |
| Tdma.Buffers | tdoa_main.cpp:143-157 | one buffer per drone; the transmitter's is empty |
| Tdma.ObservedStatesProperties | tdoa_main.cpp:143-157 | filtering keeps profiles and offsets, leaves the transmitter alone, and changes an observer's tracks only in the transmitter's entry |
| Tdma.AfterSlotProperties | tdoa_main.cpp:102-157 | after a slot the transmitter is unchanged, no profile changes, a non-master slot moves no clock, and observers gain or update only the transmitter's track |
| Tdma.OwnMeasurementDelivered | tdoa_main.cpp:147-149 | in a non-master slot every observer's buffer holds its own measurement whatever the draws |
| Tdma.MasterSlotKeepsAlarmsClear | tdoa_main.cpp:116-156 | a master slot raises no alarm against the master |
| Tdma.TdmaScheduler.constructor | tdoa_main.cpp:80-81 | the scheduler holds the swarm and channel and starts at slot 0 |
| Tdma.TdmaScheduler.SyncFrom | tdoa_main.cpp:106-126 | a master broadcast sets the receiver's offset to `SyncedOffset` and changes nothing else |
| Tdma.TdmaScheduler.MeasureFrom | tdoa_main.cpp:106-135 | any other broadcast gives the receiver's measurement: its GPS fix and its offset-corrected arrival |
| Tdma.TdmaScheduler.SyncAll | tdoa_main.cpp:103-126 | the master slot's reception loop leaves every drone in `SyncedState` |
| Tdma.TdmaScheduler.CollectAll | tdoa_main.cpp:102-136 | the reception loop of any other slot builds the packet `Received` |
| Tdma.TdmaScheduler.ReceiveAll | tdoa_main.cpp:102-136 | reception leaves the drones in `Synced` and the packet as `PacketOf` |
| Tdma.TdmaScheduler.ObserveFrom | tdoa_main.cpp:143-156 | one data-link iteration gives the drone its buffer and its `ObservedState` |
| Tdma.TdmaScheduler.DeliverAll | tdoa_main.cpp:143-157 | the data-link loop gives the buffers `Buffers` and the states `ObservedStates` |
| Tdma.TdmaScheduler.RunPhases | tdoa_main.cpp:102-157 | reception and the data link take the drones to `AfterSlot` |
| Tdma.TdmaScheduler.TallyVotes | tdoa_main.cpp:160-169 | the vote sum is `VoteSum`; every observer, and only observers, reports its estimate of the transmitter |
| Tdma.TdmaScheduler.LogEntries | tdoa_main.cpp:177-180 | exactly N-1 log lines, one per observer in index order, with the claimed and recovered positions |
| Tdma.TdmaScheduler.Consensus | tdoa_main.cpp:160-180 | reset iff vote sum <= -3; the recovered position is the recovery function's answer then, the claim otherwise |
| Tdma.TdmaScheduler.AdvanceSlot | tdoa_main.cpp:182 | the slot counter grows by exactly one and no drone changes |
| Tdma.TdmaScheduler.ExecuteSlot | tdoa_main.cpp:92-184 | after the horizon nothing changes; otherwise drone slot mod N transmits a message stamped (now + its drift) mod 2^64 with its GPS fix, the counter grows by one, the drones reach `AfterSlot`, and the report is `Reported` |
| Mlat.SelectBestSolution | mlat_core.cpp:9-22 | the choice is one of the two candidates, plausible (z >= -5) when either is, the first when there is no history and neither or both are plausible, and the second when there is history, neither or both are plausible and the first is not strictly nearer (a tie goes to the second) |
| Mlat.SelectNearest | mlat_core.cpp:16-20 | given history and two equally plausible candidates, the strictly nearer one to the last position is chosen and a tie goes to the second; the choice is no farther than either |
| Mlat.Multilaterate | mlat_core.cpp:25-75 | fewer than 4 anchors fail with the origin; 5 or more always succeed; with exactly 4 the solver succeeds iff the discriminant of the range quadratic is >= 0, and then returns `SelectBestSolution` of the two candidates S + t Q; a failure reports the origin |
| Mlat.FillLeastSquares | mlat_core.cpp:33-44 | the loop fills A and b with the least-squares rows of anchors 1.. |
| Mlat.FillQuadratic | mlat_core.cpp:50-58 | the loop fills the 3x3 A, b and the drift column v for anchors 1..3 |
| Mlat.MlatSolver | mlat_core.cpp:25-75 | the solver's answer is `Multilaterate` |
| Mlat.RowIdentity | mlat_core.cpp:40-43 | with true ranges r_0, r_i and dd = r_i - r_0, the linearised row holds: 2(ref - a).p = rhs + 2 dd r_0 |
| Mlat.ExactTimesSolveLeastSquares | mlat_core.cpp:33-45 | with exact arrival times, (p, r_0) solves the least-squares system exactly |
| Mlat.ExactTimesSolveQuadSystem | mlat_core.cpp:50-58 | with exact arrival times, p solves A p = b + r_0 v |
| Mlat.TrueRangeIsRoot | mlat_core.cpp:63-67 | if S + r_0 Q is at distance r_0 from the reference, r_0 is a root of the solver's quadratic |
| Mlat.QuadraticAlongLine | mlat_core.cpp:63-67 | the quadratic at t is abs(S + tQ - ref)^2 - t^2 |
| Mlat.RootDiscriminant | mlat_core.cpp:68-69 | a quadratic with a real root has discriminant (2ax + b)^2 >= 0, so the delta < 0 guard never rejects it |
| Mlat.RootIsComputed | mlat_core.cpp:70-71 | given an exact square root and a != 0, every root is one of the two the solver computes |
| Mlat.LeastSquaresFindsExact | mlat_core.cpp:31-47 | with 5+ anchors, exact times, an exact solve and a full-rank system, the solver returns the true position |
| Mlat.ExactSolvesGiveLine | mlat_core.cpp:60-63 | with exact times and exact solves of a non-singular 3x3 system, the true position is S + r_0 Q |
| Mlat.FourAnchorsFindExact | mlat_core.cpp:48-73 | with 4 anchors, exact times and exact solves, the solver succeeds; with an exact sqrt and a != 0, the true position is one of its two candidates |

## Left out

- Randomness: every draw of `m_rng` and of the slot's loss generator is a parameter, so distributions and rates are not modelled. This covers the GPS noise, the LOS draw, shadow fading, the ranging noise and the NLOS bias.
- Tdma.TdmaScheduler.DeliverAll: takes one loss draw per (observer, packet entry), including entries the source keeps without a draw (the observer's own). This is the same behaviour under a different numbering of one shared generator's draws.
- Floating point: reals are exact. IEEE rounding, overflow to infinity and NaN are not modelled.
- Primitives are parameters:
  - the Euclidean norm, `sqrt`, `exp` and `log10`;
  - Eigen's matrix inverse in the Kalman gain (`TDoAEKF.cpp:69`);
  - the column-pivoting QR solve (`mlat_core.cpp:45,60-62`).
  The path-loss formula is modelled over a given `log10`.
- Ekf.Updated: states that the update keeps the filter well formed. It does not prove covariance symmetry or positive definiteness, which depend on the inverse.
- Channel.UWBChannel.DetermineLOS: the sample points are tx + (i/20)(rx - tx). This equals the source's normalised direction times (i/20)|rx - tx|, including for rx = tx, where Eigen leaves the zero vector unnormalised.
- Drones.Drone.CreateTDMAMessage: the uint64 drift cast `(uint64_t)(drift_ns * 1000)` is modelled as truncation toward zero followed by reduction mod 2^64. C++ leaves the negative drifts that `main` draws undefined.
- Drones.Drone.SetTruePosition: stands for both `SetInitialPosition` and `UpdatePosition`. The trajectory functions (`Trajectories.cpp`) are not part of this model; ground truth is an input.
- `GetVoteBitmask`, `GetRecoveredPosition` and `ResetState` are not part of this model, since they are not defined in the repository's sources. Vote masks and the recovery function are parameters, and a reset is reported in the slot report rather than applied.
- Tdma.TdmaScheduler.ExecuteSlot:
  - the ns-3 event loop (`Simulator::Schedule`, `Start`, `ScheduleNextSlot`) is left out, and the simulator clock is the `nowPs` argument;
  - the transmitter is `swarm[slot mod N]`, and the model requires drone k to have id k, as `main` sets up;
  - the source's single reception loop is modelled as two loops, one for a master slot and one for any other slot, because that choice is fixed for the whole loop;
  - the vote masks are 32 bits wide, so the swarm has at most 32 drones.
- SimulationLogger output: the CSV file is not written. Each log call becomes a `LogEntry` in the slot report.
- `main` in both simulation files is not part of this model: swarm set-up, drift draws, the attack at t = 200 s and the position schedule. Neither are `Trajectories.cpp`, `mlatcpp_din5.cpp` and the Python scripts.
- Mlat.Root: a zero leading coefficient divides by zero in C++. The model reads that root as 0, and FourAnchorsFindExact assumes a != 0 for its second conclusion.
- Mlat.FillLeastSquares: Eigen's dynamically sized `A` and `b` are fresh arrays local to the call. No aliasing is involved.
- Mlat.LeastSquaresFindsExact: assumes exact arrival times, an exact solve and a full-rank system. Mlat.FourAnchorsFindExact assumes exact solves and a non-singular 3x3 system. Noisy inputs are not covered.
- The drone's filter bank is a map of filter values, as `std::map<int, TDoAEKF>` holds filters by value. First contact still builds a `TDoAEKF` object, initialises it and stores its value.
- Getters such as `GetId`, `GetTruePosition` and `GetClockDrift` are field reads of the `Drone` class.
