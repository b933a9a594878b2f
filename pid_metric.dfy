/**
 * Per-PID continuity counter validation (section 2.4.3.3 of ISO/IEC 13818-1)
 * and PCR reference tracking (section 2.4.3.5 of ISO/IEC 13818-1).
 *
 * The wall clock and the floating-point drift are not modelled: a packet is
 * processed together with a `PcrClock` saying whether the ten-second warm-up
 * has passed, what the drift (in the units the tracker computes it) is, and
 * what the converted high-resolution clock reads.
 */
module PidMetrics {
  import opened Numerics
  import opened Options
  import opened TsPackets
  import opened MetricBase

  /** The limit each drift value is compared with: 100 ms in 27 MHz ticks. */
  const PcrDriftLimit: real := 2700000.0

  /** After more excursions than this the PCR reference is resynchronised. */
  const MaxLargeDriftCount: int := 5

  datatype PcrClock = PcrClock(warmedUp: bool, drift: real, stopwatch: real)

  // ---------------------------------------------------------------------------
  // Continuity counter

  datatype CcVerdict = CcOk | CcRepeat | CcJump

  /**
   * The verdict on one non-TEI packet, given how many packets the metric had
   * counted and the last counter it stored: the first packet and the null PID
   * are never checked; a repeated counter is an error only with payload; the
   * successor modulo 16 is fine; anything else is a discontinuity.
   */
  function CheckCc(packetCount: nat, lastCc: Cc, p: TsPacket): (r: CcVerdict)
  {
    if packetCount == 0 || p.pid == NullPid then CcOk
    else if p.continuityCounter == lastCc then (if p.containsPayload then CcRepeat else CcOk)
    else if p.continuityCounter == (lastCc + 1) % 16 then CcOk
    else CcJump
  }

  datatype CcTrack = CcTrack(lastCc: Cc, errors: nat, discontinuities: nat)

  /** Counter state after a metric has been given `ps`, TEI packets included. */
  function CcReplay(ps: seq<TsPacket>): (r: CcTrack)
    decreases |ps|
  {
    if ps == [] then CcTrack(0, 0, 0)
    else
      var prior := CcReplay(ps[..|ps| - 1]);
      var p := ps[|ps| - 1];
      if p.transportErrorIndicator then prior
      else
        var v := CheckCc(|ps| - 1, prior.lastCc, p);
        CcTrack(p.continuityCounter,
                prior.errors + (if v == CcOk then 0 else 1),
                prior.discontinuities + (if v == CcJump then 1 else 0))
  }

  /** Number of TEI-flagged packets. */
  function TeiCount(ps: seq<TsPacket>): (r: nat)
    decreases |ps|
  {
    if ps == [] then 0
    else TeiCount(ps[..|ps| - 1]) + (if ps[|ps| - 1].transportErrorIndicator then 1 else 0)
  }

  /** Appending one packet: how the replayed counter state and the TEI count move. */
  lemma AppendPacket(ps: seq<TsPacket>, p: TsPacket)
    ensures TeiCount(ps + [p]) == TeiCount(ps) + (if p.transportErrorIndicator then 1 else 0)
    ensures p.transportErrorIndicator ==> CcReplay(ps + [p]) == CcReplay(ps)
    ensures !p.transportErrorIndicator ==>
      var v := CheckCc(|ps|, CcReplay(ps).lastCc, p);
      CcReplay(ps + [p]) == CcTrack(p.continuityCounter,
        CcReplay(ps).errors + (if v == CcOk then 0 else 1),
        CcReplay(ps).discontinuities + (if v == CcJump then 1 else 0))
  {
    assert (ps + [p])[..|ps|] == ps;
  }

  /** Every discontinuity is an error, and the first packet is never one. */
  lemma {:induction false} CcReplayBounds(ps: seq<TsPacket>)
    ensures CcReplay(ps).discontinuities <= CcReplay(ps).errors
    ensures CcReplay(ps).errors <= if ps == [] then 0 else |ps| - 1
    decreases |ps|
  {
    if ps != [] {
      CcReplayBounds(ps[..|ps| - 1]);
    }
  }

  /** Counters that advance by one modulo 16 on every packet never produce an error. */
  lemma {:induction false} SteadyCounterHasNoErrors(ps: seq<TsPacket>)
    requires forall i :: 0 <= i < |ps| ==> !ps[i].transportErrorIndicator
    requires forall i :: 0 < i < |ps| ==> ps[i].continuityCounter == (ps[i - 1].continuityCounter + 1) % 16
    ensures CcReplay(ps).errors == 0 && CcReplay(ps).discontinuities == 0
    ensures ps != [] ==> CcReplay(ps).lastCc == ps[|ps| - 1].continuityCounter
    decreases |ps|
  {
    if ps != [] {
      SteadyCounterHasNoErrors(ps[..|ps| - 1]);
    }
  }

  /** The null PID is exempt from continuity checking. */
  lemma {:induction false} NullPidHasNoErrors(ps: seq<TsPacket>)
    requires forall i :: 0 <= i < |ps| ==> ps[i].pid == NullPid
    ensures CcReplay(ps).errors == 0
    decreases |ps|
  {
    if ps != [] {
      NullPidHasNoErrors(ps[..|ps| - 1]);
    }
  }

  /**
   * One more packet, neither TEI-flagged nor of the null PID, after any
   * non-empty history whose stored counter is `a`: repeating `a` is one more
   * error with payload and none without, never a discontinuity; the successor
   * of `a` modulo 16 is neither; any other value is one more error and one
   * more discontinuity. Either way its counter is stored.
   */
  lemma CcNextPacket(ps: seq<TsPacket>, q: TsPacket)
    requires ps != [] && q.pid != NullPid && !q.transportErrorIndicator
    ensures var before, after, a := CcReplay(ps), CcReplay(ps + [q]), CcReplay(ps).lastCc;
      && after.lastCc == q.continuityCounter
      && (q.continuityCounter == a && q.containsPayload ==>
            after.errors == before.errors + 1 && after.discontinuities == before.discontinuities)
      && (q.continuityCounter == a && !q.containsPayload ==>
            after.errors == before.errors && after.discontinuities == before.discontinuities)
      && (q.continuityCounter == (a + 1) % 16 ==>
            after.errors == before.errors && after.discontinuities == before.discontinuities)
      && (q.continuityCounter != a && q.continuityCounter != (a + 1) % 16 ==>
            after.errors == before.errors + 1 && after.discontinuities == before.discontinuities + 1)
  {
    AppendPacket(ps, q);
  }

  // ---------------------------------------------------------------------------
  // PCR reference and delta tracking

  datatype PcrTrack = PcrTrack(
    lastPcr: u64,
    referencePcr: u64,
    referenceTime: real,
    largestDelta: u64,
    largestDrift: real,
    lowestDrift: real,
    largeDriftCount: nat)

  /** Re-base the drift reference; a zero PCR clears the reference time too. */
  function ResetReference(t: PcrTrack, newPcr: u64, stopwatch: real): (r: PcrTrack)
  {
    t.(referencePcr := newPcr, lastPcr := 0, referenceTime := if newPcr == 0 then 0.0 else stopwatch)
  }

  /** The packet carries a PCR the tracker uses. */
  predicate PcrUsable(p: TsPacket)
  {
    p.adaptationFieldExists && p.adaptationField.pcrFlag
    && p.adaptationField.fieldSize >= 1 && !p.adaptationField.discontinuityIndicator
  }

  /** Fold one PCR into the window's largest delta and drifts, counting excursions. */
  function TrackDelta(t: PcrTrack, pcr: u64, drift: real): (r: PcrTrack)
  {
    t.(largestDelta := Max(t.largestDelta, SubU64(pcr, t.lastPcr)),
       largestDrift := MaxReal(t.largestDrift, drift),
       lowestDrift := MaxReal(t.lowestDrift, -drift),
       largeDriftCount := t.largeDriftCount
         + (if drift > PcrDriftLimit then 1 else 0)
         + (if -drift > PcrDriftLimit then 1 else 0))
  }

  function PcrStep(t: PcrTrack, p: TsPacket, c: PcrClock): (r: PcrTrack)
  {
    if !PcrUsable(p) then t
    else
      var pcr := p.adaptationField.pcr;
      if t.lastPcr == 0 && !c.warmedUp then t
      else
        var t1 := if t.lastPcr != 0 then TrackDelta(t, pcr, c.drift) else ResetReference(t, pcr, c.stopwatch);
        var t2 := if t1.largeDriftCount > MaxLargeDriftCount then ResetReference(t1, pcr, c.stopwatch) else t1;
        t2.(lastPcr := pcr)
  }

  lemma PcrStepCases(t: PcrTrack, p: TsPacket, c: PcrClock)
    ensures !PcrUsable(p) ==> PcrStep(t, p, c) == t
    ensures PcrUsable(p) && t.lastPcr == 0 && !c.warmedUp ==> PcrStep(t, p, c) == t
    ensures PcrUsable(p) && t.lastPcr != 0 ==>
      && PcrStep(t, p, c).largestDelta == Max(t.largestDelta, SubU64(p.adaptationField.pcr, t.lastPcr))
      && PcrStep(t, p, c).largestDelta >= t.largestDelta
      && PcrStep(t, p, c).lastPcr == p.adaptationField.pcr
    ensures PcrUsable(p) && (t.lastPcr != 0 || c.warmedUp) && PcrStep(t, p, c).largeDriftCount > MaxLargeDriftCount
      ==> PcrStep(t, p, c).referencePcr == p.adaptationField.pcr
  {
  }

  /** One packet of the PCR state machine as the metric applies it, continuity reset included. */
  function PacketPcrStep(t: PcrTrack, v: CcVerdict, p: TsPacket, c: PcrClock): (r: PcrTrack)
  {
    if p.transportErrorIndicator then ResetReference(t, p.adaptationField.pcr, c.stopwatch)
    else PcrStep(if v == CcJump then ResetReference(t, 0, c.stopwatch) else t, p, c)
  }

  /** The PCR state after a run of packets with their clocks and continuity verdicts. */
  function PcrRun(t: PcrTrack, vs: seq<CcVerdict>, ps: seq<TsPacket>, cs: seq<PcrClock>): (r: PcrTrack)
    requires |vs| == |ps| == |cs|
    decreases |ps|
  {
    if ps == [] then t else PcrRun(PacketPcrStep(t, vs[0], ps[0], cs[0]), vs[1..], ps[1..], cs[1..])
  }

  /** One packet never lowers the excursion counter or the window's extremes, and keeps a zero reference timeless. */
  lemma PacketPcrStepMonotone(t: PcrTrack, v: CcVerdict, p: TsPacket, c: PcrClock)
    requires t.referencePcr == 0 ==> t.referenceTime == 0.0
    ensures PacketPcrStep(t, v, p, c).largeDriftCount >= t.largeDriftCount
    ensures PacketPcrStep(t, v, p, c).largestDelta >= t.largestDelta
    ensures PacketPcrStep(t, v, p, c).largestDrift >= t.largestDrift
    ensures PacketPcrStep(t, v, p, c).lowestDrift >= t.lowestDrift
    ensures PacketPcrStep(t, v, p, c).referencePcr == 0 ==> PacketPcrStep(t, v, p, c).referenceTime == 0.0
  {
  }

  /**
   * Over any run, the excursion counter never goes down (nothing resets it),
   * the window's largest delta never goes down, and a zero reference PCR
   * always comes with a zero reference time.
   */
  lemma {:induction false} PcrRunMonotone(t: PcrTrack, vs: seq<CcVerdict>, ps: seq<TsPacket>, cs: seq<PcrClock>)
    requires |vs| == |ps| == |cs|
    requires t.referencePcr == 0 ==> t.referenceTime == 0.0
    ensures PcrRun(t, vs, ps, cs).largeDriftCount >= t.largeDriftCount
    ensures PcrRun(t, vs, ps, cs).largestDelta >= t.largestDelta
    ensures PcrRun(t, vs, ps, cs).largestDrift >= t.largestDrift
    ensures PcrRun(t, vs, ps, cs).lowestDrift >= t.lowestDrift
    ensures PcrRun(t, vs, ps, cs).referencePcr == 0 ==> PcrRun(t, vs, ps, cs).referenceTime == 0.0
    decreases |ps|
  {
    if ps != [] {
      PacketPcrStepMonotone(t, vs[0], ps[0], cs[0]);
      PcrRunMonotone(PacketPcrStep(t, vs[0], ps[0], cs[0]), vs[1..], ps[1..], cs[1..]);
    }
  }

  /** Once more than five excursions were counted, every PCR that is stored re-bases the reference. */
  lemma {:induction false} ResyncPersists(t: PcrTrack, vs: seq<CcVerdict>, ps: seq<TsPacket>, cs: seq<PcrClock>)
    requires |vs| == |ps| == |cs|
    requires t.largeDriftCount > MaxLargeDriftCount
    requires t.lastPcr != 0 ==> t.referencePcr == t.lastPcr
    ensures PcrRun(t, vs, ps, cs).largeDriftCount > MaxLargeDriftCount
    ensures PcrRun(t, vs, ps, cs).lastPcr != 0 ==> PcrRun(t, vs, ps, cs).referencePcr == PcrRun(t, vs, ps, cs).lastPcr
    decreases |ps|
  {
    if ps != [] {
      ResyncPersists(PacketPcrStep(t, vs[0], ps[0], cs[0]), vs[1..], ps[1..], cs[1..]);
    }
  }

  // ---------------------------------------------------------------------------
  // The metric

  /** The values of the last completed period. */
  datatype PeriodValues = PeriodValues(
    packetCount: nat,
    ccErrorCount: nat,
    teiCount: nat,
    largestPcrDelta: u64,
    largestPcrDrift: real,
    lowestPcrDrift: real)

  /** The counting state of a metric next to the packets it was given (the latter are ghost). */
  datatype Ledger = Ledger(
    received: seq<TsPacket>,
    thisPeriod: seq<TsPacket>,
    packetCount: nat,
    windowPacketCount: nat,
    teiCount: nat,
    windowTeiCount: nat,
    teiEvents: nat,
    lastCc: Cc,
    ccErrorCount: nat,
    windowCcErrorCount: nat,
    discontinuityEvents: nat)

  /**
   * The counters are those of the packets received: every packet is of the
   * metric's PID, packets and TEI packets are counted, the continuity state is
   * the replay of the packets, and the open period's counts are those of the
   * packets since the last rollover.
   */
  ghost predicate Balanced(pid: int, l: Ledger)
  {
    && |l.thisPeriod| <= |l.received|
    && l.thisPeriod == l.received[|l.received| - |l.thisPeriod|..]
    && (forall p | p in l.received :: p.pid == pid)
    && l.packetCount == |l.received| && l.windowPacketCount == |l.thisPeriod|
    && l.teiCount == TeiCount(l.received) && l.windowTeiCount == TeiCount(l.thisPeriod)
    && l.teiEvents == l.teiCount
    && l.lastCc == CcReplay(l.received).lastCc
    && l.ccErrorCount == CcReplay(l.received).errors
    && l.discontinuityEvents == CcReplay(l.received).discontinuities
    && l.windowCcErrorCount + CcReplay(l.received[..|l.received| - |l.thisPeriod|]).errors == l.ccErrorCount
  }

  /** The ledger after a packet of the metric's PID: AddPacket's effect on the counters. */
  ghost function Booked(l: Ledger, p: TsPacket): (r: Ledger)
  {
    var tei := if p.transportErrorIndicator then 1 else 0;
    var v := CheckCc(l.packetCount, l.lastCc, p);
    var e := if p.transportErrorIndicator || v == CcOk then 0 else 1;
    Ledger(l.received + [p], l.thisPeriod + [p], l.packetCount + 1, l.windowPacketCount + 1,
           l.teiCount + tei, l.windowTeiCount + tei, l.teiEvents + tei,
           if p.transportErrorIndicator then l.lastCc else p.continuityCounter,
           l.ccErrorCount + e, l.windowCcErrorCount + e,
           l.discontinuityEvents + (if !p.transportErrorIndicator && v == CcJump then 1 else 0))
  }

  /** The ledger after a rollover: the open period is empty. */
  ghost function RolledOver(l: Ledger): (r: Ledger)
  {
    l.(thisPeriod := [], windowPacketCount := 0, windowTeiCount := 0, windowCcErrorCount := 0)
  }

  /** The ledger of a metric that has seen nothing. */
  const EmptyLedger := Ledger([], [], 0, 0, 0, 0, 0, 0, 0, 0, 0)

  lemma EmptyIsBalanced(pid: int)
    ensures Balanced(pid, EmptyLedger)
  {
    assert EmptyLedger.received[..0] == [];
  }

  lemma RolloverKeepsBalance(pid: int, l: Ledger)
    requires Balanced(pid, l)
    ensures Balanced(pid, RolledOver(l))
  {
    assert l.received[..|l.received| - 0] == l.received;
    assert l.received[|l.received| - 0..] == [];
  }

  lemma {:induction false} BookingKeepsBalance(pid: int, l: Ledger, p: TsPacket, next: Ledger)
    requires Balanced(pid, l)
    requires p.pid == pid && next == Booked(l, p)
    ensures Balanced(pid, next)
  {
    AppendPacket(l.received, p);
    AppendPacket(l.thisPeriod, p);
    var r := l.received + [p];
    assert r[..|r| - (|l.thisPeriod| + 1)] == l.received[..|l.received| - |l.thisPeriod|];
    assert l.thisPeriod + [p] == r[|r| - (|l.thisPeriod| + 1)..];
    forall q | q in r ensures q.pid == pid {
      if q != p { assert q in l.received; }
    }
  }

  /** All zero: a fresh window. */
  const EmptyPeriod := PeriodValues(0, 0, 0, 0, 0.0, 0.0)

  /** 27 MHz PCR ticks in one millisecond. */
  const PcrTicksPerMillisecond: nat := 27000

  /**
   * A PCR delta in 27 MHz ticks as whole milliseconds, the way the rollover
   * converts it: divided by 2.7 into 100-nanosecond time-span ticks
   * (truncated), then into milliseconds (truncated again). The two
   * truncations lose nothing against a single division by 27000.
   */
  function DeltaMilliseconds(ticks: u64): (ms: u64)
    ensures ms * PcrTicksPerMillisecond <= ticks < (ms + 1) * PcrTicksPerMillisecond
  {
    var spanTicks := ticks * 10 / 27;
    var ms := spanTicks / 10000;
    assert 27 * spanTicks <= ticks * 10 < 27 * spanTicks + 27;
    assert 10000 * ms <= spanTicks < 10000 * ms + 10000;
    assert 270000 * ms <= 27 * spanTicks;
    assert 27 * spanTicks + 27 <= 270000 * ms + 270000;
    ms
  }

  /** What a rollover publishes for the window it closes: the largest delta becomes milliseconds. */
  function Published(w: PeriodValues): (r: PeriodValues)
    ensures r.largestPcrDelta * PcrTicksPerMillisecond <= w.largestPcrDelta
    ensures w.largestPcrDelta < (r.largestPcrDelta + 1) * PcrTicksPerMillisecond
    ensures r.packetCount == w.packetCount && r.ccErrorCount == w.ccErrorCount && r.teiCount == w.teiCount
    ensures r.largestPcrDrift == w.largestPcrDrift && r.lowestPcrDrift == w.lowestPcrDrift
  {
    w.(largestPcrDelta := DeltaMilliseconds(w.largestPcrDelta))
  }

  /**
   * The metric for one PID. `window` accumulates the open period; `period`
   * holds the values of the last completed one.
   */
  class PidMetric {
    const base: Metric
    const pid: int

    var packetCount: nat
    var teiCount: nat
    var ccErrorCount: nat
    var lastCc: Cc

    var lastPcr: u64
    var referencePcr: u64
    var referenceTime: real
    var largePcrDriftCount: nat

    var window: PeriodValues
    var period: PeriodValues

    /** Packets accepted since creation, and since the last rollover. */
    ghost var received: seq<TsPacket>
    ghost var receivedThisPeriod: seq<TsPacket>
    /** DiscontinuityDetected and TeiDetected events raised. */
    ghost var discontinuityEvents: nat
    ghost var teiEvents: nat

    ghost function PcrView(): (r: PcrTrack)
      reads this
    {
      PcrTrack(lastPcr, referencePcr, referenceTime, window.largestPcrDelta,
               window.largestPcrDrift, window.lowestPcrDrift, largePcrDriftCount)
    }

    ghost function Books(): (r: Ledger)
      reads this
    {
      Ledger(received, receivedThisPeriod, packetCount, window.packetCount, teiCount, window.teiCount,
             teiEvents, lastCc, ccErrorCount, window.ccErrorCount, discontinuityEvents)
    }

    /** The counters balance against the packets received, and a zero reference has no time. */
    ghost predicate Valid()
      reads this
    {
      && Balanced(pid, Books())
      && (referencePcr == 0 ==> referenceTime == 0.0)
    }

    constructor (samplingPeriod: int, pid: int, now: Timestamp)
      ensures Valid() && fresh(base) && this.pid == pid
      ensures base.samplingPeriod == samplingPeriod
      ensures base.sampleCount == 1 && base.lastPeriodEndTime == Some(now)
      ensures received == [] && packetCount == 0 && lastCc == 0 && Books() == EmptyLedger
      ensures PcrView() == PcrTrack(0, 0, 0.0, 0, 0.0, 0.0, 0)
      ensures period == EmptyPeriod
    {
      // The setter's rollover publishes a window that is still empty, so of
      // that call only the base step is visible.
      var m := new Metric();
      m.SetSamplingPeriod(samplingPeriod, now);
      base := m;
      this.pid := pid;
      packetCount, teiCount, ccErrorCount, lastCc := 0, 0, 0, 0;
      lastPcr, referencePcr, referenceTime, largePcrDriftCount := 0, 0, 0.0, 0;
      window, period := EmptyPeriod, EmptyPeriod;
      received, receivedThisPeriod := [], [];
      discontinuityEvents, teiEvents := 0, 0;
      new;
      EmptyIsBalanced(pid);
      assert Books() == EmptyLedger;
    }

    /** Close the period: publish the window, start an empty one, then the base step. */
    method ResetPeriod(now: Timestamp)
      requires Valid()
      modifies this`window, this`period, this`receivedThisPeriod, base`sampleCount, base`lastPeriodEndTime
      ensures Valid()
      ensures period == Published(old(window)) && window == EmptyPeriod && receivedThisPeriod == []
      ensures base.sampleCount == old(base.sampleCount) + 1
      ensures base.lastPeriodEndTime == Some(now)
    {
      RolloverKeepsBalance(pid, Books());
      period := Published(window);
      window := EmptyPeriod;
      receivedThisPeriod := [];
      base.FinishPeriod(now);
    }

    /** The SamplingPeriod setter: store the value and roll over at once. */
    method SetSamplingPeriod(value: int, now: Timestamp)
      requires Valid()
      modifies this`window, this`period, this`receivedThisPeriod, base
      ensures Valid()
      ensures base.samplingPeriod == value
      ensures period == Published(old(window)) && window == EmptyPeriod && receivedThisPeriod == []
      ensures base.sampleCount == old(base.sampleCount) + 1
      ensures base.lastPeriodEndTime == Some(now)
    {
      base.samplingPeriod := value;
      ResetPeriod(now);
    }

    /**
     * Account one packet. A packet of another PID throws inside and the
     * exception is swallowed, so nothing changes.
     */
    method AddPacket(p: TsPacket, clock: PcrClock)
      requires Valid()
      modifies this`packetCount, this`teiCount, this`ccErrorCount, this`lastCc, this`lastPcr,
        this`referencePcr, this`referenceTime, this`largePcrDriftCount, this`window,
        this`received, this`receivedThisPeriod, this`discontinuityEvents, this`teiEvents
      ensures Valid()
      ensures period == old(period)
      ensures p.pid != pid ==> unchanged(this)
      ensures p.pid == pid ==>
        && received == old(received) + [p]
        && receivedThisPeriod == old(receivedThisPeriod) + [p]
        && Books() == Booked(old(Books()), p)
        && PcrView() == PacketPcrStep(old(PcrView()), CheckCc(old(packetCount), old(lastCc), p), p, clock)
    {
      if p.pid != pid {
        return;
      }
      if p.transportErrorIndicator {
        AcceptErrored(p, clock);
      } else {
        AcceptClean(p, clock);
      }
      BookingKeepsBalance(pid, old(Books()), p, Books());
      PacketPcrStepMonotone(old(PcrView()), CheckCc(old(packetCount), old(lastCc), p), p, clock);
    }

    /** A packet of this PID with the transport error indicator set: counted, and the PCR reference reset. */
    method AcceptErrored(p: TsPacket, clock: PcrClock)
      requires p.transportErrorIndicator
      modifies this`packetCount, this`teiCount, this`teiEvents, this`window, this`lastPcr,
        this`referencePcr, this`referenceTime, this`received, this`receivedThisPeriod
      ensures Books() == Booked(old(Books()), p)
      ensures PcrView() == PacketPcrStep(old(PcrView()), CheckCc(old(packetCount), old(lastCc), p), p, clock)
    {
      teiCount := teiCount + 1;
      window := window.(teiCount := window.teiCount + 1);
      OnTeiDetected(p, clock);
      Count(p);
    }

    /** A packet of this PID without transport error: continuity check, PCR check, counter kept. */
    method AcceptClean(p: TsPacket, clock: PcrClock)
      requires !p.transportErrorIndicator
      modifies this`packetCount, this`ccErrorCount, this`lastCc, this`lastPcr, this`referencePcr,
        this`referenceTime, this`largePcrDriftCount, this`window, this`received,
        this`receivedThisPeriod, this`discontinuityEvents
      ensures Books() == Booked(old(Books()), p)
      ensures PcrView() == PacketPcrStep(old(PcrView()), CheckCc(old(packetCount), old(lastCc), p), p, clock)
    {
      CheckCcContinuity(p);
      CheckPcr(p, clock);
      lastCc := p.continuityCounter;
      Count(p);
    }

    /** The counting common to both kinds of packet. */
    method Count(p: TsPacket)
      modifies this`packetCount, this`window, this`received, this`receivedThisPeriod
      ensures packetCount == old(packetCount) + 1
      ensures window == old(window).(packetCount := old(window.packetCount) + 1)
      ensures received == old(received) + [p] && receivedThisPeriod == old(receivedThisPeriod) + [p]
    {
      packetCount := packetCount + 1;
      window := window.(packetCount := window.packetCount + 1);
      received := received + [p];
      receivedThisPeriod := receivedThisPeriod + [p];
    }

    method CheckPcr(p: TsPacket, clock: PcrClock)
      modifies this`lastPcr, this`referencePcr, this`referenceTime, this`window, this`largePcrDriftCount
      ensures PcrView() == PcrStep(old(PcrView()), p, clock)
      ensures window.packetCount == old(window.packetCount) && window.ccErrorCount == old(window.ccErrorCount)
      ensures window.teiCount == old(window.teiCount)
    {
      if !p.adaptationFieldExists { return; }
      if !p.adaptationField.pcrFlag { return; }
      if p.adaptationField.fieldSize < 1 { return; }
      if p.adaptationField.discontinuityIndicator { return; }
      var pcr := p.adaptationField.pcr;

      if lastPcr != 0 {
        var latestDelta := SubU64(pcr, lastPcr);
        if latestDelta > window.largestPcrDelta { window := window.(largestPcrDelta := latestDelta); }

        var drift := clock.drift;
        if drift > window.largestPcrDrift { window := window.(largestPcrDrift := drift); }
        if drift > PcrDriftLimit { largePcrDriftCount := largePcrDriftCount + 1; }

        drift := -clock.drift;
        if drift > window.lowestPcrDrift { window := window.(lowestPcrDrift := drift); }
        if drift > PcrDriftLimit { largePcrDriftCount := largePcrDriftCount + 1; }
      } else {
        // the first PCR is only taken as reference once the warm-up is over
        if !clock.warmedUp { return; }
        ResetReferenceTime(pcr, clock.stopwatch);
      }

      if largePcrDriftCount > MaxLargeDriftCount {
        ResetReferenceTime(pcr, clock.stopwatch);
      }

      lastPcr := pcr;
    }

    method CheckCcContinuity(p: TsPacket)
      modifies this`ccErrorCount, this`window, this`discontinuityEvents,
        this`lastPcr, this`referencePcr, this`referenceTime
      ensures var v := CheckCc(packetCount, lastCc, p);
        && ccErrorCount == old(ccErrorCount) + (if v == CcOk then 0 else 1)
        && window == old(window).(ccErrorCount := old(window.ccErrorCount) + (if v == CcOk then 0 else 1))
        && discontinuityEvents == old(discontinuityEvents) + (if v == CcJump then 1 else 0)
        && PcrView() == if v == CcJump then ResetReference(old(PcrView()), 0, 0.0) else old(PcrView())
    {
      if packetCount == 0 {
        return;
      }
      if p.pid == NullPid {
        return;
      }
      if lastCc == p.continuityCounter {
        // a packet without payload may repeat its counter
        if p.containsPayload {
          CountCcError();
        }
        return;
      }
      if lastCc != 15 {
        if lastCc + 1 != p.continuityCounter {
          CountCcError();
          OnDiscontinuityDetected();
          return;
        }
      }
      if lastCc != 15 || p.continuityCounter == 0 {
        return;
      }
      CountCcError();
      OnDiscontinuityDetected();
    }

    method CountCcError()
      modifies this`ccErrorCount, this`window
      ensures ccErrorCount == old(ccErrorCount) + 1
      ensures window == old(window).(ccErrorCount := old(window.ccErrorCount) + 1)
    {
      ccErrorCount := ccErrorCount + 1;
      window := window.(ccErrorCount := window.ccErrorCount + 1);
    }

    method OnDiscontinuityDetected()
      modifies this`discontinuityEvents, this`lastPcr, this`referencePcr, this`referenceTime
      ensures discontinuityEvents == old(discontinuityEvents) + 1
      ensures PcrView() == ResetReference(old(PcrView()), 0, 0.0)
    {
      ResetReferenceTime(0, 0.0);
      discontinuityEvents := discontinuityEvents + 1;
    }

    method OnTeiDetected(p: TsPacket, clock: PcrClock)
      modifies this`teiEvents, this`lastPcr, this`referencePcr, this`referenceTime
      ensures teiEvents == old(teiEvents) + 1
      ensures PcrView() == ResetReference(old(PcrView()), p.adaptationField.pcr, clock.stopwatch)
    {
      ResetReferenceTime(p.adaptationField.pcr, clock.stopwatch);
      teiEvents := teiEvents + 1;
    }

    method ResetReferenceTime(newPcr: u64, stopwatch: real)
      modifies this`lastPcr, this`referencePcr, this`referenceTime
      ensures PcrView() == ResetReference(old(PcrView()), newPcr, stopwatch)
    {
      referencePcr := newPcr;
      lastPcr := 0;
      if newPcr == 0 {
        referenceTime := 0.0;
        return;
      }
      referenceTime := stopwatch;
    }
  }
}
