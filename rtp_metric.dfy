/**
 * Loss estimation from the 16-bit sequence number of the RTP fixed header
 * (section 5.1 of RFC 3550). Bytes 2-3 hold the sequence number, bytes 4-7
 * the timestamp and bytes 8-11 the SSRC, all big-endian.
 */
module RtpMetrics {
  import opened Numerics
  import opened MetricBase

  const RtpHeaderLength: int := 12

  /** `ushort.MaxValue`: the largest sequence number. */
  const MaxSequenceNumber: int := 65535

  /** A computed loss above this is taken for a stream reset and booked as one packet. */
  const LossClampThreshold: int := 30000

  // ---------------------------------------------------------------------------
  // Big-endian header fields and their encodings

  function ReadUInt16(hi: byte, lo: byte): (r: u16)
    ensures r / 0x100 == hi && r % 0x100 == lo
  {
    hi * 0x100 + lo
  }

  function WriteUInt16(x: u16): (bytes: (byte, byte))
  {
    (x / 0x100, x % 0x100)
  }

  function ReadUInt32(b0: byte, b1: byte, b2: byte, b3: byte): (r: u32)
  {
    ReadUInt16(b0, b1) * 0x1_0000 + ReadUInt16(b2, b3)
  }

  function WriteUInt32(x: u32): (bytes: seq<byte>)
    ensures |bytes| == 4
  {
    var hi := WriteUInt16(x / 0x1_0000);
    var lo := WriteUInt16(x % 0x1_0000);
    [hi.0, hi.1, lo.0, lo.1]
  }

  lemma UInt16RoundTrip(x: u16, hi: byte, lo: byte)
    ensures ReadUInt16(WriteUInt16(x).0, WriteUInt16(x).1) == x
    ensures WriteUInt16(ReadUInt16(hi, lo)) == (hi, lo)
  {
  }

  lemma SplitAt16(h: int, l: int)
    requires 0 <= l < 0x1_0000
    ensures (h * 0x1_0000 + l) / 0x1_0000 == h
    ensures (h * 0x1_0000 + l) % 0x1_0000 == l
  {
  }

  lemma {:induction false} DecodeEncodeUInt32(x: u32)
    ensures var e := WriteUInt32(x); ReadUInt32(e[0], e[1], e[2], e[3]) == x
  {
    var hi: u16, lo: u16 := x / 0x1_0000, x % 0x1_0000;
    var e := WriteUInt32(x);
    UInt16RoundTrip(hi, 0, 0);
    UInt16RoundTrip(lo, 0, 0);
    assert ReadUInt16(e[0], e[1]) == hi;
    assert ReadUInt16(e[2], e[3]) == lo;
  }

  lemma {:induction false} EncodeDecodeUInt32(b: seq<byte>)
    requires |b| == 4
    ensures WriteUInt32(ReadUInt32(b[0], b[1], b[2], b[3])) == b
  {
    var h: int := ReadUInt16(b[0], b[1]);
    var l: int := ReadUInt16(b[2], b[3]);
    SplitAt16(h, l);
    var r := ReadUInt32(b[0], b[1], b[2], b[3]);
    assert r / 0x1_0000 == h && r % 0x1_0000 == l;
    UInt16RoundTrip(0, b[0], b[1]);
    UInt16RoundTrip(0, b[2], b[3]);
  }

  // ---------------------------------------------------------------------------
  // The loss estimate, as a reference definition

  /** `seqNum` directly follows `last` in the 16-bit sequence space (65535 is followed by 0). */
  predicate IsSuccessor(last: u16, seqNum: u16)
  {
    seqNum == (last + 1) % 0x1_0000
  }

  /** How many sequence numbers lie strictly between `last` and `seqNum`, going forward with wrap. */
  function Missing(last: u16, seqNum: u16): (n: nat)
    ensures n < 0x1_0000
  {
    (seqNum - last - 1) % 0x1_0000
  }

  function Clamp(n: nat): (r: nat)
    ensures r <= LossClampThreshold
    ensures r == 0 <==> n == 0
  {
    if n > LossClampThreshold then 1 else n
  }

  /**
   * The loss booked when `seqNum` arrives after `last`: nothing for the
   * successor; otherwise the forward distance when the sequence moved forward
   * without passing 0, and the number of skipped values when it wrapped (or
   * landed on 0), clamped to 1 when above the threshold.
   */
  function EstimatedLoss(last: u16, seqNum: u16): (lost: nat)
  {
    if IsSuccessor(last, seqNum) then 0
    else if 0 < seqNum && last <= seqNum then Clamp(seqNum - last)
    else Clamp(Missing(last, seqNum))
  }

  lemma LossRange(last: u16, seqNum: u16)
    ensures EstimatedLoss(last, seqNum) <= LossClampThreshold
    ensures EstimatedLoss(last, seqNum) == 0
        <==> IsSuccessor(last, seqNum) || (seqNum == last && seqNum != 0)
  {
    if !IsSuccessor(last, seqNum) && !(0 < seqNum && last <= seqNum) {
      assert Missing(last, seqNum) != 0;
    }
  }

  /**
   * The estimate against the number of sequence numbers actually skipped:
   * a forward jump books one more than were skipped, a wrapped jump books
   * exactly the number skipped, and a repeat of a non-zero number books none.
   */
  lemma {:induction false} LossVersusMissing(last: u16, seqNum: u16)
    ensures last < seqNum && !IsSuccessor(last, seqNum)
        ==> EstimatedLoss(last, seqNum) == Clamp(Missing(last, seqNum) + 1)
    ensures (seqNum < last || seqNum == 0) && !IsSuccessor(last, seqNum)
        ==> EstimatedLoss(last, seqNum) == Clamp(Missing(last, seqNum))
    ensures 0 < seqNum == last ==> EstimatedLoss(last, seqNum) == 0
  {
    if last < seqNum {
      assert Missing(last, seqNum) == seqNum - last - 1;
    }
  }

  /** Loss booked over a run of frames, each after the one before it. */
  function LossOver(last: u16, seqs: seq<u16>): (r: nat)
    decreases |seqs|
  {
    if seqs == [] then 0 else EstimatedLoss(last, seqs[0]) + LossOver(seqs[0], seqs[1..])
  }

  /** A run in which every frame follows its predecessor books no loss. */
  lemma {:induction false} NoLossWhenConsecutive(last: u16, seqs: seq<u16>)
    requires |seqs| > 0 ==> IsSuccessor(last, seqs[0])
    requires forall i :: 0 < i < |seqs| ==> IsSuccessor(seqs[i - 1], seqs[i])
    ensures LossOver(last, seqs) == 0
    decreases |seqs|
  {
    if seqs != [] {
      var rest := seqs[1..];
      forall i | 0 < i < |rest|
        ensures IsSuccessor(rest[i - 1], rest[i])
      {
        assert IsSuccessor(seqs[i], seqs[i + 1]);
      }
      NoLossWhenConsecutive(seqs[0], rest);
    }
  }

  /** The worked cases: 65533..1 through the wrap, 10 then 12, and 65534 then 3. */
  lemma LossExamples()
    ensures LossOver(65533, [65534, 65535, 0, 1]) == 0
    ensures EstimatedLoss(10, 12) == 2
    ensures EstimatedLoss(65534, 3) == 4
    ensures EstimatedLoss(0, 0) == 1 && EstimatedLoss(7, 7) == 0
  {
    var run: seq<u16> := [65534, 65535, 0, 1];
    assert IsSuccessor(65533, run[0]) && IsSuccessor(run[0], run[1]);
    assert IsSuccessor(run[1], run[2]) && IsSuccessor(run[2], run[3]);
    NoLossWhenConsecutive(65533, run);
  }

  // ---------------------------------------------------------------------------
  // The tracker

  class RtpMetric {
    const base: Metric

    /** Frames seen; only its being zero matters. */
    var totalPackets: nat
    var estimatedLostPackets: nat
    /** Loss booked in the open period. */
    var windowEstimatedLostPackets: nat
    /** Loss booked in the last completed period. */
    var periodEstimatedLostPackets: nat
    var lastSequenceNumber: u16
    var ssrc: u32
    var lastTimestamp: u32

    /** Number of SequenceDiscontinuityDetected events raised. */
    ghost var sequenceDiscontinuities: nat

    /**
     * The open period's loss is part of the total, and every booked loss came
     * with an event, each event booking at most the clamp threshold.
     */
    ghost predicate Valid()
      reads this
    {
      windowEstimatedLostPackets <= estimatedLostPackets
      && estimatedLostPackets <= LossClampThreshold * sequenceDiscontinuities
    }

    constructor (samplingPeriod: int, now: Timestamp)
      ensures Valid() && fresh(base)
      ensures base.samplingPeriod == samplingPeriod
      ensures base.sampleCount == 1 && base.lastPeriodEndTime == Options.Some(now)
      ensures totalPackets == 0 && estimatedLostPackets == 0
      ensures windowEstimatedLostPackets == 0 && periodEstimatedLostPackets == 0
      ensures lastSequenceNumber == 0 && sequenceDiscontinuities == 0
    {
      base := new Metric();
      totalPackets := 0;
      estimatedLostPackets := 0;
      windowEstimatedLostPackets := 0;
      periodEstimatedLostPackets := 0;
      lastSequenceNumber := 0;
      ssrc := 0;
      lastTimestamp := 0;
      sequenceDiscontinuities := 0;
      new;
      SetSamplingPeriod(samplingPeriod, now);
    }

    /** Close the period: publish its loss, restart the accumulator, then the base step. */
    method ResetPeriod(now: Timestamp)
      requires Valid()
      modifies this`periodEstimatedLostPackets, this`windowEstimatedLostPackets, base
      ensures Valid()
      ensures periodEstimatedLostPackets == old(windowEstimatedLostPackets)
      ensures windowEstimatedLostPackets == 0
      ensures base.sampleCount == old(base.sampleCount) + 1
      ensures base.lastPeriodEndTime == Options.Some(now)
      ensures base.samplingPeriod == old(base.samplingPeriod)
    {
      periodEstimatedLostPackets := windowEstimatedLostPackets;
      windowEstimatedLostPackets := 0;
      base.FinishPeriod(now);
    }

    /** The SamplingPeriod setter: store the value and roll over at once. */
    method SetSamplingPeriod(value: int, now: Timestamp)
      requires Valid()
      modifies this`periodEstimatedLostPackets, this`windowEstimatedLostPackets, base
      ensures Valid()
      ensures base.samplingPeriod == value
      ensures periodEstimatedLostPackets == old(windowEstimatedLostPackets)
      ensures windowEstimatedLostPackets == 0
      ensures base.sampleCount == old(base.sampleCount) + 1
      ensures base.lastPeriodEndTime == Options.Some(now)
    {
      base.samplingPeriod := value;
      ResetPeriod(now);
    }

    /**
     * Account one network frame. A frame too short for the field being read
     * throws (`thrown`), leaving whatever was already written: nothing below 8
     * bytes, the timestamp alone below 12.
     */
    method AddPacket(data: seq<byte>) returns (thrown: bool)
      requires Valid()
      modifies this`totalPackets, this`estimatedLostPackets, this`windowEstimatedLostPackets,
        this`lastSequenceNumber, this`ssrc, this`lastTimestamp, this`sequenceDiscontinuities
      ensures Valid()
      ensures thrown <==> |data| < RtpHeaderLength
      ensures |data| < 8 ==> lastTimestamp == old(lastTimestamp)
      ensures 8 <= |data| ==> lastTimestamp == ReadUInt32(data[4], data[5], data[6], data[7])
      ensures thrown ==>
        && ssrc == old(ssrc) && lastSequenceNumber == old(lastSequenceNumber)
        && totalPackets == old(totalPackets) && estimatedLostPackets == old(estimatedLostPackets)
        && windowEstimatedLostPackets == old(windowEstimatedLostPackets)
        && sequenceDiscontinuities == old(sequenceDiscontinuities)
      ensures !thrown ==>
        var s := ReadUInt16(data[2], data[3]);
        var first := old(totalPackets) == 0;
        var lost := if first then 0 else EstimatedLoss(old(lastSequenceNumber), s);
        ssrc == ReadUInt32(data[8], data[9], data[10], data[11])
        && lastSequenceNumber == s
        && totalPackets == old(totalPackets) + 1
        && estimatedLostPackets == old(estimatedLostPackets) + lost
        && windowEstimatedLostPackets == old(windowEstimatedLostPackets) + lost
        && sequenceDiscontinuities == old(sequenceDiscontinuities)
             + (if first || IsSuccessor(old(lastSequenceNumber), s) then 0 else 1)
    {
      if |data| < 4 {
        return true;
      }
      var seqNum: u16 := (data[2] as int) * 0x100 + data[3] as int;
      if |data| < 8 {
        return true;
      }
      lastTimestamp := ReadUInt32(data[4], data[5], data[6], data[7]);
      if |data| < RtpHeaderLength {
        return true;
      }
      ssrc := ReadUInt32(data[8], data[9], data[10], data[11]);
      thrown := false;

      if totalPackets == 0 {
        RegisterFirstPacket(seqNum);
        return;
      }

      totalPackets := totalPackets + 1;
      TrackSequence(seqNum);
    }

    /** Book the loss a sequence number implies after the stored one, then store it. */
    method TrackSequence(seqNum: u16)
      requires Valid()
      modifies this`estimatedLostPackets, this`windowEstimatedLostPackets, this`lastSequenceNumber,
        this`sequenceDiscontinuities
      ensures Valid()
      ensures var lost := EstimatedLoss(old(lastSequenceNumber), seqNum);
        && estimatedLostPackets == old(estimatedLostPackets) + lost
        && windowEstimatedLostPackets == old(windowEstimatedLostPackets) + lost
        && sequenceDiscontinuities == old(sequenceDiscontinuities)
             + (if IsSuccessor(old(lastSequenceNumber), seqNum) then 0 else 1)
      ensures lastSequenceNumber == seqNum
    {
      LossRange(lastSequenceNumber, seqNum);
      if seqNum == 0 {
        if lastSequenceNumber != MaxSequenceNumber {
          var lost := MaxSequenceNumber - lastSequenceNumber;
          if lost > LossClampThreshold {
            lost := 1;
          }
          estimatedLostPackets := estimatedLostPackets + lost;
          windowEstimatedLostPackets := windowEstimatedLostPackets + lost;
          OnSequenceDiscontinuityDetected();
        }
      } else if lastSequenceNumber + 1 != seqNum {
        var seqDiff := seqNum - lastSequenceNumber;
        if seqDiff < 0 {
          seqDiff := seqNum + MaxSequenceNumber - lastSequenceNumber;
        }
        if seqDiff > LossClampThreshold {
          seqDiff := 1;
        }
        estimatedLostPackets := estimatedLostPackets + seqDiff;
        windowEstimatedLostPackets := windowEstimatedLostPackets + seqDiff;
        OnSequenceDiscontinuityDetected();
      }

      lastSequenceNumber := seqNum;
    }

    method RegisterFirstPacket(seqNum: u16)
      modifies this`lastSequenceNumber, this`totalPackets
      ensures lastSequenceNumber == seqNum
      ensures totalPackets == old(totalPackets) + 1
    {
      lastSequenceNumber := seqNum;
      totalPackets := totalPackets + 1;
    }

    method OnSequenceDiscontinuityDetected()
      modifies this`sequenceDiscontinuities
      ensures sequenceDiscontinuities == old(sequenceDiscontinuities) + 1
    {
      sequenceDiscontinuities := sequenceDiscontinuities + 1;
    }
  }
}
