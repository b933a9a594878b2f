/**
 * Network ingest counters: packets and bytes in total and per period, the
 * depth of the processing queue, the fill level of the socket's receive
 * buffer, the time between packets, and a notification that is latched
 * while the receive buffer stays more than 99 % full.
 *
 * The per-second packet rate and the bitrate sampling, which read the wall
 * clock, are not part of this model; the stopwatch readings and the socket
 * state are inputs.
 */
module NetworkMetrics {
  import opened Options
  import opened Numerics
  import opened MetricBase

  /** Buffer usage, in percent, above which the buffer counts as overflowing. */
  const OverflowThreshold: real := 99.0

  /** The inter-packet extremes are only tracked once more packets than this were counted. */
  const SettlingPackets: nat := 10

  // ---------------------------------------------------------------------------
  // Buffer usage and the overflow latch

  /** What the receiving socket reports: bytes waiting, and the size of its receive buffer. */
  datatype Socket = Socket(available: nat, receiveBufferSize: Positive)

  /**
   * NetworkBufferUsage: the share of the receive buffer in use, in percent,
   * or -1 when no socket is attached.
   */
  function BufferUsage(socket: Option<Socket>): (r: real)
    ensures socket.None? ==> r == -1.0
    ensures socket.Some? ==> 0.0 <= r
    ensures socket.Some? ==>
      (r > OverflowThreshold <==> 100 * socket.value.available > 99 * socket.value.receiveBufferSize)
  {
    match socket
    case None => -1.0
    case Some(s) =>
      UsageAboveThreshold(s.available, s.receiveBufferSize);
      s.available as real / s.receiveBufferSize as real * 100.0
  }

  lemma UsageAboveThreshold(available: nat, size: Positive)
    ensures var r := available as real / size as real * 100.0;
      && 0.0 <= r
      && (r > OverflowThreshold <==> 100 * available > 99 * size)
  {
    var a, b := available as real, size as real;
    var share := a / b;
    assert share * b == a;
    assert share >= 0.0;
    var r := share * 100.0;
    assert r * b == 100.0 * a;
    ScaledComparison(r, 99.0, b);
    assert (100 * available) as real == 100.0 * a;
    assert (99 * size) as real == 99.0 * b;
  }

  lemma ScaledComparison(x: real, y: real, k: real)
    requires k > 0.0
    ensures x > y <==> x * k > y * k
  {
    assert x * k - y * k == (x - y) * k;
  }

  /** The overflow latch, and how many BufferOverflow notifications it has raised. */
  datatype LatchState = LatchState(latched: bool, notifications: nat)

  /**
   * One buffer reading: above the threshold, notify unless already latched,
   * and latch; otherwise clear the latch.
   */
  function Overflow(s: LatchState, usage: real): (r: LatchState)
  {
    if usage > OverflowThreshold then
      if s.latched then s else LatchState(true, s.notifications + 1)
    else s.(latched := false)
  }

  /** The latch after a sequence of readings. */
  function OverflowRun(s: LatchState, usages: seq<real>): (r: LatchState)
    decreases |usages|
  {
    if usages == [] then s
    else Overflow(OverflowRun(s, usages[..|usages| - 1]), usages[|usages| - 1])
  }

  /** One more reading is one more step of the latch. */
  lemma OverflowRunAppend(s: LatchState, usages: seq<real>, usage: real, next: seq<real>)
    requires next == usages + [usage]
    ensures OverflowRun(s, next) == Overflow(OverflowRun(s, usages), usage)
  {
    assert next[..|usages|] == usages;
  }

  /** Number of readings at or below the threshold. */
  function Lows(usages: seq<real>): (r: nat)
    decreases |usages|
  {
    if usages == [] then 0
    else Lows(usages[..|usages| - 1]) + (if usages[|usages| - 1] > OverflowThreshold then 0 else 1)
  }

  /** After any reading, the latch is set exactly when that reading was above the threshold. */
  lemma LatchFollowsLastReading(s: LatchState, usages: seq<real>)
    requires usages != []
    ensures OverflowRun(s, usages).latched <==> usages[|usages| - 1] > OverflowThreshold
  {
  }

  /** Readings can be applied in two runs. */
  lemma {:induction false} OverflowRunSplits(s: LatchState, a: seq<real>, b: seq<real>)
    ensures OverflowRun(s, a + b) == OverflowRun(OverflowRun(s, a), b)
    decreases |b|
  {
    if b == [] {
      assert a + b == a;
    } else {
      var b' := b[..|b| - 1];
      assert (a + b)[..|a + b| - 1] == a + b';
      assert (a + b)[|a + b| - 1] == b[|b| - 1];
      OverflowRunSplits(s, a, b');
    }
  }

  /**
   * A run of readings that all stay above the threshold raises at most one
   * notification: exactly one if the latch was clear at its start.
   */
  lemma {:induction false} HighRunNotifiesAtMostOnce(s: LatchState, usages: seq<real>)
    requires forall i | 0 <= i < |usages| :: usages[i] > OverflowThreshold
    ensures OverflowRun(s, usages).notifications
            == s.notifications + (if s.latched || usages == [] then 0 else 1)
    ensures usages != [] ==> OverflowRun(s, usages).latched
    decreases |usages|
  {
    if usages != [] {
      var prefix := usages[..|usages| - 1];
      assert forall i | 0 <= i < |prefix| :: prefix[i] == usages[i];
      HighRunNotifiesAtMostOnce(s, prefix);
    }
  }

  /**
   * Every notification after the first needs a reading at or below the
   * threshold in between: notifications added, plus one if the latch ends
   * clear, never exceed the low readings plus one if it started clear.
   */
  lemma {:induction false} NotificationsNeedClearing(s: LatchState, usages: seq<real>)
    ensures OverflowRun(s, usages).notifications >= s.notifications
    ensures OverflowRun(s, usages).notifications - s.notifications
            + (if OverflowRun(s, usages).latched then 0 else 1)
            <= Lows(usages) + (if s.latched then 0 else 1)
    decreases |usages|
  {
    if usages != [] {
      NotificationsNeedClearing(s, usages[..|usages| - 1]);
    }
  }

  /** So a latch that starts clear raises at most one notification more than there were low readings. */
  lemma NotificationBound(usages: seq<real>)
    ensures OverflowRun(LatchState(false, 0), usages).notifications <= Lows(usages) + 1
  {
    NotificationsNeedClearing(LatchState(false, 0), usages);
  }

  // ---------------------------------------------------------------------------
  // Period average bitrate

  /**
   * PeriodAverageBitrate: bytes of the last period divided by its whole
   * seconds, times 8, in C# integer arithmetic. A sampling period shorter
   * than one second in magnitude divides by zero, which is `None` here.
   */
  function AverageBitrate(periodData: int, samplingPeriod: int): (r: Option<int>)
    ensures r.None? <==> -1000 < samplingPeriod < 1000
    ensures r.Some? ==> r.value % 8 == 0
  {
    var seconds := TruncDiv(samplingPeriod, 1000);
    if seconds == 0 then None else Some(TruncDiv(periodData, seconds) * 8)
  }

  /**
   * With a period of at least a second and a non-negative byte count, the
   * rate is eight times the whole bytes per second: the largest multiple of
   * the seconds not above the data, and so never more than 8 bits per byte.
   */
  lemma BitrateBounds(periodData: nat, samplingPeriod: int)
    requires samplingPeriod >= 1000
    ensures AverageBitrate(periodData, samplingPeriod).Some?
    ensures var seconds := samplingPeriod / 1000;
      var perSecond := AverageBitrate(periodData, samplingPeriod).value / 8;
      && perSecond * seconds <= periodData < (perSecond + 1) * seconds
      && AverageBitrate(periodData, samplingPeriod).value <= 8 * periodData
  {
    var seconds := samplingPeriod / 1000;
    assert TruncDiv(samplingPeriod, 1000) == seconds;
    var q := periodData / seconds;
    assert TruncDiv(periodData, seconds) == q;
    assert AverageBitrate(periodData, samplingPeriod).value == q * 8;
    assert q * 8 / 8 == q;
    WholeQuotient(periodData, seconds);
  }

  /** Euclidean division of a natural number: the quotient's multiples bracket it, and it is at most the number. */
  lemma WholeQuotient(n: nat, d: int)
    requires d >= 1
    ensures (n / d) * d <= n < (n / d + 1) * d
    ensures n / d <= n
  {
    var q := n / d;
    assert q * d + n % d == n;
    assert (q + 1) * d == q * d + d;
    NoSmallerMultiple(q, d);
  }

  lemma NoSmallerMultiple(q: nat, d: int)
    requires d >= 1
    ensures q <= q * d
  {
    assert q * d == q + q * (d - 1);
  }

  lemma BitrateExamples()
    ensures AverageBitrate(1_000_000, 5000) == Some(1_600_000)
    ensures AverageBitrate(1_000_000, 999) == None
    ensures AverageBitrate(1_000, 5999) == Some(1_600)
  {
  }

  // ---------------------------------------------------------------------------
  // Time between packets

  /** The stored packet time, the last gap, its all-time extremes and the open period's longest. */
  datatype GapTrack = GapTrack(
    lastPacketTime: int,
    timeBetweenLastPacket: real,
    longest: real,
    shortest: real,
    windowLongest: real)

  /**
   * One packet arriving at `timestamp`, `gap` seconds after the stored time,
   * when `counted` packets had been counted before it.
   */
  function GapStep(g: GapTrack, counted: nat, timestamp: int, gap: real): (r: GapTrack)
  {
    var g1 := g.(lastPacketTime := timestamp, timeBetweenLastPacket := gap);
    var g2 := if counted == 1 then g1.(shortest := gap) else g1;
    if counted > SettlingPackets then
      g2.(longest := MaxReal(g2.longest, gap),
          windowLongest := MaxReal(g2.windowLongest, gap),
          shortest := if gap < g2.shortest then gap else g2.shortest)
    else g2
  }

  /**
   * Until more than ten packets were counted, the extremes are left alone,
   * except that the second packet seeds the shortest gap; afterwards the
   * longest gaps are running maxima and the shortest a running minimum. The
   * open period's longest gap never passes the all-time one.
   */
  lemma GapStepSettles(g: GapTrack, counted: nat, timestamp: int, gap: real)
    ensures GapStep(g, counted, timestamp, gap).lastPacketTime == timestamp
    ensures GapStep(g, counted, timestamp, gap).timeBetweenLastPacket == gap
    ensures counted <= SettlingPackets ==>
      && GapStep(g, counted, timestamp, gap).longest == g.longest
      && GapStep(g, counted, timestamp, gap).windowLongest == g.windowLongest
      && GapStep(g, counted, timestamp, gap).shortest == (if counted == 1 then gap else g.shortest)
    ensures counted > SettlingPackets ==>
      && GapStep(g, counted, timestamp, gap).longest == MaxReal(g.longest, gap)
      && GapStep(g, counted, timestamp, gap).windowLongest == MaxReal(g.windowLongest, gap)
      && GapStep(g, counted, timestamp, gap).shortest <= g.shortest
      && GapStep(g, counted, timestamp, gap).shortest <= gap
    ensures 0.0 <= g.windowLongest <= g.longest ==>
      0.0 <= GapStep(g, counted, timestamp, gap).windowLongest <= GapStep(g, counted, timestamp, gap).longest
  {
  }

  // ---------------------------------------------------------------------------
  // The metric

  /** The values a rollover publishes. */
  datatype NetworkPeriod = NetworkPeriod(
    packets: nat,
    data: int,
    maxPacketQueue: int,
    maxBufferUsage: real,
    longestTimeBetweenPackets: real,
    shortestTimeBetweenPackets: real)

  const EmptyNetworkPeriod := NetworkPeriod(0, 0, 0, 0.0, 0.0, 0.0)

  /**
   * The ingest metric. `window` accumulates the open period; `period` holds
   * the values of the last completed one.
   */
  class NetworkMetric {
    const base: Metric
    /** Stopwatch ticks per second. */
    const stopwatchFrequency: Positive

    var totalPackets: nat
    var totalData: int
    var currentPacketQueue: int
    var maxPacketQueue: int
    var maxBufferUsage: real
    var bufferOverflow: bool
    var lastPacketTime: int
    var timeBetweenLastPacket: real
    var longestTimeBetweenPackets: real
    var shortestTimeBetweenPackets: real

    var window: NetworkPeriod
    var period: NetworkPeriod

    /** The buffer readings taken, one per packet, and the BufferOverflow notifications raised. */
    ghost var usages: seq<real>
    ghost var overflowEvents: nat

    /**
     * The latch and its notifications are those of the readings taken; the
     * open period's maxima start from zero and never exceed the all-time
     * ones; nothing ever
     * writes the period's shortest gap, so it stays zero.
     */
    ghost predicate Valid()
      reads this
    {
      && |usages| == totalPackets
      && LatchState(bufferOverflow, overflowEvents) == OverflowRun(LatchState(false, 0), usages)
      && 0 <= window.maxPacketQueue <= maxPacketQueue
      && 0.0 <= window.maxBufferUsage <= maxBufferUsage
      && 0.0 <= window.longestTimeBetweenPackets <= longestTimeBetweenPackets
      && window.shortestTimeBetweenPackets == 0.0
      && period.shortestTimeBetweenPackets == 0.0
    }

    /** Creation, followed by setting the sampling period, as the analyzer does. */
    constructor (samplingPeriod: int, stopwatchFrequency: Positive, now: Timestamp)
      ensures Valid() && fresh(base)
      ensures this.stopwatchFrequency == stopwatchFrequency
      ensures base.samplingPeriod == samplingPeriod
      ensures base.sampleCount == 1 && base.lastPeriodEndTime == Some(now)
      ensures totalPackets == 0 && totalData == 0 && !bufferOverflow && overflowEvents == 0 && usages == []
      ensures currentPacketQueue == 0 && maxPacketQueue == 0 && maxBufferUsage == 0.0
      ensures Gaps() == GapTrack(0, 0.0, 0.0, 0.0, 0.0)
      ensures window == EmptyNetworkPeriod && period == EmptyNetworkPeriod
    {
      // The setter's rollover publishes a window that is still empty, so of
      // that call only the base step is visible.
      var m := new Metric();
      m.SetSamplingPeriod(samplingPeriod, now);
      base := m;
      this.stopwatchFrequency := stopwatchFrequency;
      totalPackets, totalData := 0, 0;
      currentPacketQueue, maxPacketQueue := 0, 0;
      maxBufferUsage, bufferOverflow := 0.0, false;
      lastPacketTime, timeBetweenLastPacket := 0, 0.0;
      longestTimeBetweenPackets, shortestTimeBetweenPackets := 0.0, 0.0;
      window, period := EmptyNetworkPeriod, EmptyNetworkPeriod;
      usages, overflowEvents := [], 0;
    }

    /** Close the period: publish the window, start an empty one, then the base step. */
    method ResetPeriod(now: Timestamp)
      requires Valid()
      modifies this`window, this`period, base`sampleCount, base`lastPeriodEndTime
      ensures Valid()
      ensures period == old(window) && window == EmptyNetworkPeriod
      ensures base.sampleCount == old(base.sampleCount) + 1
      ensures base.lastPeriodEndTime == Some(now)
    {
      period := window;
      window := EmptyNetworkPeriod;
      base.FinishPeriod(now);
    }

    /** The SamplingPeriod setter: store the value and roll over at once. */
    method SetSamplingPeriod(value: int, now: Timestamp)
      requires Valid()
      modifies this`window, this`period, base
      ensures Valid()
      ensures base.samplingPeriod == value
      ensures period == old(window) && window == EmptyNetworkPeriod
      ensures base.sampleCount == old(base.sampleCount) + 1
      ensures base.lastPeriodEndTime == Some(now)
    {
      base.samplingPeriod := value;
      ResetPeriod(now);
    }

    /** PeriodAverageBitrate of the last completed period; `None` where C# divides by zero. */
    function PeriodAverageBitrate(): (r: Option<int>)
      reads this, base
      ensures r.None? <==> -1000 < base.samplingPeriod < 1000
      ensures r.Some? ==> r.value % 8 == 0
    {
      AverageBitrate(period.data, base.samplingPeriod)
    }

    /**
     * Account one received packet: `timestamp` is its stopwatch reading,
     * `stopwatchNow` the stopwatch when the first packet is registered, and
     * `socket` what the socket reports once the packet is counted.
     */
    method AddPacket(dataSize: int, timestamp: int, currentQueueSize: int, stopwatchNow: int,
                     socket: Option<Socket>)
      requires Valid()
      modifies this`totalPackets, this`totalData, this`currentPacketQueue, this`maxPacketQueue,
        this`maxBufferUsage, this`bufferOverflow, this`lastPacketTime, this`timeBetweenLastPacket,
        this`longestTimeBetweenPackets, this`shortestTimeBetweenPackets, this`window,
        this`usages, this`overflowEvents
      ensures Valid()
      ensures totalPackets == old(totalPackets) + 1 && totalData == old(totalData) + dataSize
      ensures window.packets == old(window.packets) + 1 && window.data == old(window.data) + dataSize
      ensures currentPacketQueue == currentQueueSize
      ensures maxPacketQueue == Max(old(maxPacketQueue), currentQueueSize)
      ensures window.maxPacketQueue == Max(old(window.maxPacketQueue), currentQueueSize)
      ensures Gaps() == GapStep(old(Gaps()), old(totalPackets), timestamp,
        PacketGap(if old(totalPackets) == 0 then stopwatchNow else old(lastPacketTime), timestamp))
      ensures maxBufferUsage == MaxReal(old(maxBufferUsage), BufferUsage(socket))
      ensures window.maxBufferUsage == MaxReal(old(window.maxBufferUsage), BufferUsage(socket))
      ensures LatchState(bufferOverflow, overflowEvents)
              == Overflow(LatchState(old(bufferOverflow), old(overflowEvents)), BufferUsage(socket))
      ensures usages == old(usages) + [BufferUsage(socket)]
    {
      if totalPackets == 0 {
        RegisterFirstPacket(stopwatchNow);
      }
      TrackQueue(currentQueueSize);
      TrackGap(timestamp);
      CountPacket(dataSize);
      var usage := BufferUsage(socket);
      TrackBuffer(usage);
      assert Valid();
    }

    method CountPacket(dataSize: int)
      modifies this`totalPackets, this`totalData, this`window
      ensures totalPackets == old(totalPackets) + 1 && totalData == old(totalData) + dataSize
      ensures window == old(window).(packets := old(window.packets) + 1, data := old(window.data) + dataSize)
    {
      totalPackets := totalPackets + 1;
      totalData := totalData + dataSize;
      window := window.(packets := window.packets + 1, data := window.data + dataSize);
    }

    ghost function Gaps(): (r: GapTrack)
      reads this
    {
      GapTrack(lastPacketTime, timeBetweenLastPacket, longestTimeBetweenPackets,
               shortestTimeBetweenPackets, window.longestTimeBetweenPackets)
    }

    /** The time from one stopwatch reading to the next, in seconds. */
    function PacketGap(from: int, to: int): (r: real)
    {
      (to - from) as real / stopwatchFrequency as real
    }

    /** The start of the first sample: the stopwatch now, from which the first gap is measured. */
    method RegisterFirstPacket(stopwatchNow: int)
      modifies this`lastPacketTime
      ensures lastPacketTime == stopwatchNow
    {
      lastPacketTime := stopwatchNow;
    }

    method TrackQueue(currentQueueSize: int)
      requires 0 <= window.maxPacketQueue <= maxPacketQueue
      modifies this`currentPacketQueue, this`maxPacketQueue, this`window
      ensures currentPacketQueue == currentQueueSize
      ensures maxPacketQueue == Max(old(maxPacketQueue), currentQueueSize)
      ensures window == old(window).(maxPacketQueue := Max(old(window.maxPacketQueue), currentQueueSize))
      ensures 0 <= window.maxPacketQueue <= maxPacketQueue
    {
      currentPacketQueue := currentQueueSize;
      if maxPacketQueue < currentQueueSize {
        maxPacketQueue := currentQueueSize;
      }
      if window.maxPacketQueue < currentQueueSize {
        window := window.(maxPacketQueue := currentQueueSize);
      }
    }

    /** Measure the gap since the last packet; its extremes only once the stream has settled. */
    method TrackGap(timestamp: int)
      requires 0.0 <= window.longestTimeBetweenPackets <= longestTimeBetweenPackets
      modifies this`timeBetweenLastPacket, this`lastPacketTime, this`longestTimeBetweenPackets,
        this`shortestTimeBetweenPackets, this`window
      ensures Gaps() == GapStep(old(Gaps()), totalPackets, timestamp, PacketGap(old(lastPacketTime), timestamp))
      ensures window == old(window).(longestTimeBetweenPackets := window.longestTimeBetweenPackets)
      ensures 0.0 <= window.longestTimeBetweenPackets <= longestTimeBetweenPackets
    {
      var gap := PacketGap(lastPacketTime, timestamp);
      timeBetweenLastPacket := gap;
      lastPacketTime := timestamp;
      if totalPackets == 1 {
        shortestTimeBetweenPackets := gap;
      }
      if totalPackets > SettlingPackets {
        if gap > longestTimeBetweenPackets {
          longestTimeBetweenPackets := gap;
        }
        if gap > window.longestTimeBetweenPackets {
          window := window.(longestTimeBetweenPackets := gap);
        }
        if gap < shortestTimeBetweenPackets {
          shortestTimeBetweenPackets := gap;
        }
      }
    }

    /** Fold a buffer reading into the maxima and the overflow latch. */
    method TrackBuffer(usage: real)
      requires 0.0 <= window.maxBufferUsage <= maxBufferUsage
      requires LatchState(bufferOverflow, overflowEvents) == OverflowRun(LatchState(false, 0), usages)
      modifies this`maxBufferUsage, this`window, this`bufferOverflow, this`overflowEvents, this`usages
      ensures maxBufferUsage == MaxReal(old(maxBufferUsage), usage)
      ensures window == old(window).(maxBufferUsage := MaxReal(old(window.maxBufferUsage), usage))
      ensures 0.0 <= window.maxBufferUsage <= maxBufferUsage
      ensures LatchState(bufferOverflow, overflowEvents) == OverflowRun(LatchState(false, 0), usages)
      ensures LatchState(bufferOverflow, overflowEvents)
              == Overflow(LatchState(old(bufferOverflow), old(overflowEvents)), usage)
      ensures usages == old(usages) + [usage]
    {
      if usage > window.maxBufferUsage {
        window := window.(maxBufferUsage := usage);
      }
      if usage > maxBufferUsage {
        maxBufferUsage := usage;
      }
      if usage > OverflowThreshold {
        OnBufferOverflow();
      } else {
        bufferOverflow := false;
      }
      OverflowRunAppend(LatchState(false, 0), usages, usage, usages + [usage]);
      usages := usages + [usage];
    }

    /** Raise BufferOverflow unless it is already latched, and latch it. */
    method OnBufferOverflow()
      modifies this`bufferOverflow, this`overflowEvents
      ensures bufferOverflow
      ensures overflowEvents == old(overflowEvents) + (if old(bufferOverflow) then 0 else 1)
    {
      if bufferOverflow {
        return;
      }
      overflowEvents := overflowEvents + 1;
      bufferOverflow := true;
    }
  }
}
