/**
 * The already-parsed transport stream packet the analyzer consumes
 * (ISO/IEC 13818-1, section 2.4.3.2 and 2.4.3.4). Only the fields the
 * metrics read are kept. The decoder's adaptation field and PES header are
 * value types, so a packet without an adaptation field still carries one,
 * holding whatever the decoder left in it.
 */
module TsPackets {
  import opened Numerics

  /** The null (stuffing) PID, exempt from continuity checking. */
  const NullPid: int := 0x1FFF

  /** A 13-bit packet identifier. */
  type Pid = x: int | 0 <= x < 0x2000

  /** A 4-bit continuity counter. */
  type Cc = x: int | 0 <= x < 16

  datatype AdaptationField = AdaptationField(
    pcrFlag: bool,
    fieldSize: int,
    discontinuityIndicator: bool,
    pcr: u64)

  datatype PesHeader = PesHeader(pts: i64)

  datatype TsPacket = TsPacket(
    pid: Pid,
    continuityCounter: Cc,
    transportErrorIndicator: bool,
    containsPayload: bool,
    adaptationFieldExists: bool,
    adaptationField: AdaptationField,
    pesHeader: PesHeader)
}
