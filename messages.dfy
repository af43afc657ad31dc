/** The records exchanged on the UWB medium (UWBMessage.h). */
module Messages {
  import opened Geometry

  const TwoTo64: nat := 0x1_0000_0000_0000_0000

  /** A `uint64_t` value. */
  type Uint64 = x: nat | x < TwoTo64

  /**
   * The broadcast a drone makes in its TDMA slot: who sends, the send time
   * in picoseconds with the sender's hardware drift applied, the GPS position
   * it claims and its 32-bit vote mask.
   */
  datatype UWBMessage = UWBMessage(
    senderId: nat,
    txTimestampPs: Uint64,
    gpsPosition: Vec3,
    voteBitmask: bv32)

  /**
   * One receiver's observation of one transmission: the transmitter
   * (`targetId`), the receiving anchor and the position it reports, the
   * clock-corrected time of arrival and the line-of-sight flag.
   */
  datatype RangingMeasurement = RangingMeasurement(
    targetId: nat,
    anchorId: nat,
    anchorPos: Vec3,
    toaSeconds: real,
    isLos: bool)
}
