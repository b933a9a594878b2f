/**
 * The analyzer: the registry of per-PID metrics that a batch of transport
 * stream packets is routed into, the last PCR and PTS values it remembers,
 * and the roll-up of the per-PID period values into one `TsMetric` for the
 * periodic log record.
 */
module Analysis {
  import opened Options
  import opened Numerics
  import opened TsPackets
  import opened MetricBase
  import opened RtpMetrics
  import opened PidMetrics
  import opened NetworkMetrics

  /** The PIDs whose PTS values the analyzer remembers. */
  const VideoPid: int := 4096
  const SubtitlePid: int := 2049

  /** The transport stream part of a log record: a count, three sums and three maxima. */
  datatype TsMetric = TsMetric(
    pidCount: int,
    pidPackets: int,
    pidCcErrors: int,
    teiErrors: int,
    longestPcrDelta: int,
    largestPcrDrift: real,
    lowestPcrDrift: real)

  /** A fresh `TsMetric`: every field at its default. */
  const EmptyTsMetric := TsMetric(0, 0, 0, 0, 0, 0.0, 0.0)

  /** The periodic log record: the network metric, the RTP metric when present, and the roll-up. */
  datatype LogRecord = LogRecord(net: NetworkMetric?, rtp: RtpMetric?, ts: TsMetric)

  // ---------------------------------------------------------------------------
  // The PID registry

  predicate Distinct(xs: seq<int>)
  {
    forall i, j | 0 <= i < j < |xs| :: xs[i] != xs[j]
  }

  /** The registry after one packet: its PID is appended unless already present. */
  function Enlist(pids: seq<int>, pid: int): (r: seq<int>)
    ensures pid in r && pids <= r
    ensures |r| <= |pids| + 1
    ensures forall x | x in r :: x in pids || x == pid
    ensures Distinct(pids) ==> Distinct(r)
  {
    if pid in pids then pids else pids + [pid]
  }

  /** The registry after a batch of packets. */
  function Registry(pids: seq<int>, ps: seq<TsPacket>): (r: seq<int>)
    decreases |ps|
  {
    if ps == [] then pids else Enlist(Registry(pids, ps[..|ps| - 1]), ps[|ps| - 1].pid)
  }

  /** The position of the first packet of a PID, or the batch length when there is none. */
  function FirstSeen(ps: seq<TsPacket>, pid: int): (r: nat)
    ensures r <= |ps|
    ensures r < |ps| ==> ps[r].pid == pid
    ensures forall i | 0 <= i < r :: ps[i].pid != pid
  {
    if ps == [] then 0
    else if ps[0].pid == pid then 0
    else 1 + FirstSeen(ps[1..], pid)
  }

  lemma FirstSeenAppend(ps: seq<TsPacket>, p: TsPacket, pid: int)
    ensures FirstSeen(ps, pid) < |ps| ==> FirstSeen(ps + [p], pid) == FirstSeen(ps, pid)
    ensures FirstSeen(ps, pid) == |ps| && p.pid == pid ==> FirstSeen(ps + [p], pid) == |ps|
    ensures FirstSeen(ps, pid) == |ps| && p.pid != pid ==> FirstSeen(ps + [p], pid) == |ps| + 1
  {
    var q := ps + [p];
    assert forall i | 0 <= i < |ps| :: q[i] == ps[i];
    assert q[|ps|] == p;
  }

  /**
   * The registry holds each PID once: the PIDs it started with, in their
   * places, then every PID of the batch, and nothing else.
   */
  lemma {:induction false} RegistryCoversBatch(pids: seq<int>, ps: seq<TsPacket>)
    requires Distinct(pids)
    ensures Distinct(Registry(pids, ps)) && pids <= Registry(pids, ps)
    ensures forall i | 0 <= i < |ps| :: ps[i].pid in Registry(pids, ps)
    ensures forall x | x in Registry(pids, ps) :: x in pids || FirstSeen(ps, x) < |ps|
    decreases |ps|
  {
    if ps != [] {
      var s, p := ps[..|ps| - 1], ps[|ps| - 1];
      assert ps == s + [p];
      RegistryCoversBatch(pids, s);
      forall x | x in Registry(pids, ps) && x !in pids
        ensures FirstSeen(ps, x) < |ps|
      {
        FirstSeenAppend(s, p, x);
      }
      forall i | 0 <= i < |ps|
        ensures ps[i].pid in Registry(pids, ps)
      {
        if i < |s| { assert ps[i] == s[i]; }
      }
    }
  }

  /** The PIDs the batch adds are appended in the order of their first packets. */
  lemma {:induction false} RegistryInFirstSeenOrder(pids: seq<int>, ps: seq<TsPacket>)
    requires Distinct(pids)
    ensures forall a, b | |pids| <= a < b < |Registry(pids, ps)| ::
      FirstSeen(ps, Registry(pids, ps)[a]) < FirstSeen(ps, Registry(pids, ps)[b])
    decreases |ps|
  {
    if ps != [] {
      var s, p := ps[..|ps| - 1], ps[|ps| - 1];
      assert ps == s + [p];
      var r0, r := Registry(pids, s), Registry(pids, ps);
      RegistryInFirstSeenOrder(pids, s);
      RegistryCoversBatch(pids, s);
      forall a, b | |pids| <= a < b < |r|
        ensures FirstSeen(ps, r[a]) < FirstSeen(ps, r[b])
      {
        assert r[a] == r0[a] && r[a] !in pids by {
          assert pids <= r0;
        }
        FirstSeenAppend(s, p, r[a]);
        FirstSeenAppend(s, p, r[b]);
        if b == |r0| {
          // The new PID has no packet before the last one.
          assert r[b] == p.pid && p.pid !in r0;
          assert FirstSeen(s, r[b]) == |s|;
        } else {
          assert r[b] == r0[b] && r[b] !in pids by {
            assert pids <= r0;
          }
        }
      }
    }
  }

  /** Routing a batch in two parts builds the same registry as routing it whole. */
  lemma {:induction false} RegistryOfBatches(pids: seq<int>, a: seq<TsPacket>, b: seq<TsPacket>)
    ensures Registry(Registry(pids, a), b) == Registry(pids, a + b)
    decreases |b|
  {
    if b != [] {
      var c := a + b;
      assert c[..|c| - 1] == a + b[..|b| - 1];
      RegistryOfBatches(pids, a, b[..|b| - 1]);
    } else {
      assert a + b == a;
    }
  }

  /** The packets of one PID, in batch order: what that PID's metric is handed. */
  function Filter(ps: seq<TsPacket>, pid: int): (r: seq<TsPacket>)
    ensures |r| <= |ps|
    ensures forall q | q in r :: q in ps && q.pid == pid
    decreases |ps|
  {
    if ps == [] then []
    else
      var s, p := ps[..|ps| - 1], ps[|ps| - 1];
      assert forall q | q in s :: q in ps;
      Filter(s, pid) + (if p.pid == pid then [p] else [])
  }

  lemma {:induction false} FilterOfUnseen(ps: seq<TsPacket>, pid: int)
    requires forall i | 0 <= i < |ps| :: ps[i].pid != pid
    ensures Filter(ps, pid) == []
    decreases |ps|
  {
    if ps != [] {
      FilterOfUnseen(ps[..|ps| - 1], pid);
    }
  }

  /** Every packet of the batch reaches its own PID's metric. */
  lemma {:induction false} FilterKeepsEveryPacket(ps: seq<TsPacket>)
    ensures forall i | 0 <= i < |ps| :: ps[i] in Filter(ps, ps[i].pid)
    decreases |ps|
  {
    if ps != [] {
      var s := ps[..|ps| - 1];
      FilterKeepsEveryPacket(s);
      forall i | 0 <= i < |s|
        ensures ps[i] in Filter(ps, ps[i].pid)
      {
        assert ps[i] == s[i];
      }
    }
  }

  lemma {:induction false} FilterOfBatches(a: seq<TsPacket>, b: seq<TsPacket>, pid: int)
    ensures Filter(a + b, pid) == Filter(a, pid) + Filter(b, pid)
    decreases |b|
  {
    if b != [] {
      var c := a + b;
      assert c[..|c| - 1] == a + b[..|b| - 1];
      FilterOfBatches(a, b[..|b| - 1], pid);
    } else {
      assert a + b == a;
    }
  }

  /**
   * A registry entry as a value: a metric's PID, its ledger (the packets it
   * was handed since creation and since the last rollover, with its
   * counters), its PCR state and the values it last published.
   */
  datatype Entry = Entry(pid: int, books: Ledger, pcr: PcrTrack, period: PeriodValues)

  /** The PCR state of a metric that has seen no PCR. */
  const ZeroPcr := PcrTrack(0, 0, 0.0, 0, 0.0, 0.0, 0)

  /** The entry of a metric created for a PID: nothing received, nothing published. */
  function NewEntry(pid: int): (e: Entry)
  {
    Entry(pid, EmptyLedger, ZeroPcr, EmptyPeriod)
  }

  /** An entry after its metric accepted a packet of its PID: the counters and the PCR state step, the period stays. */
  ghost function Step(e: Entry, p: TsPacket, c: PcrClock): (r: Entry)
  {
    Entry(e.pid, Booked(e.books, p), PacketPcrStep(e.pcr, CheckCc(e.books.packetCount, e.books.lastCc, p), p, c), e.period)
  }

  function EntryPids(v: seq<Entry>): (r: seq<int>)
    ensures |r| == |v|
    ensures forall k | 0 <= k < |v| :: r[k] == v[k].pid
  {
    seq(|v|, k requires 0 <= k < |v| => v[k].pid)
  }

  /** The position of the first entry of a PID, or the registry length when there is none. */
  function Find(v: seq<Entry>, pid: int): (r: nat)
    ensures r <= |v|
    ensures r < |v| ==> v[r].pid == pid
    ensures forall k | 0 <= k < r :: v[k].pid != pid
  {
    if v == [] then 0
    else if v[0].pid == pid then 0
    else 1 + Find(v[1..], pid)
  }

  /** Routing one packet with its clock reading: its PID's entry steps, or a new entry is appended and steps. */
  ghost function Route(v: seq<Entry>, p: TsPacket, c: PcrClock): (r: seq<Entry>)
  {
    var k := Find(v, p.pid);
    if k < |v| then v[k := Step(v[k], p, c)] else v + [Step(NewEntry(p.pid), p, c)]
  }

  /** Routing a packet appends a new entry for an unseen PID, then steps its PID's entry. */
  lemma RouteAsUpdate(v: seq<Entry>, p: TsPacket, c: PcrClock)
    ensures var k := Find(v, p.pid);
      var w := if k < |v| then v else v + [NewEntry(p.pid)];
      k < |w| && Route(v, p, c) == w[k := Step(w[k], p, c)]
  {
    var k := Find(v, p.pid);
    if k == |v| {
      var w := v + [NewEntry(p.pid)];
      assert w[k := Step(w[k], p, c)] == v + [Step(NewEntry(p.pid), p, c)];
    }
  }

  /** Routing a batch, packet by packet in batch order, each with its clock reading. */
  ghost function RouteAll(v: seq<Entry>, ps: seq<TsPacket>, cs: seq<PcrClock>): (r: seq<Entry>)
    requires |cs| == |ps|
    decreases |ps|
  {
    if ps == [] then v
    else Route(RouteAll(v, ps[..|ps| - 1], cs[..|cs| - 1]), ps[|ps| - 1], cs[|cs| - 1])
  }

  /** One entry fed the packets of its PID out of a batch, in batch order, each with its clock reading. */
  ghost function Feed(e: Entry, ps: seq<TsPacket>, cs: seq<PcrClock>): (r: Entry)
    requires |cs| == |ps|
    ensures r.pid == e.pid
    decreases |ps|
  {
    if ps == [] then e
    else
      var f := Feed(e, ps[..|ps| - 1], cs[..|cs| - 1]);
      if ps[|ps| - 1].pid == e.pid then Step(f, ps[|ps| - 1], cs[|cs| - 1]) else f
  }

  lemma {:induction false} FeedOfUnseen(e: Entry, ps: seq<TsPacket>, cs: seq<PcrClock>)
    requires |cs| == |ps|
    requires forall i | 0 <= i < |ps| :: ps[i].pid != e.pid
    ensures Feed(e, ps, cs) == e
    decreases |ps|
  {
    if ps != [] {
      FeedOfUnseen(e, ps[..|ps| - 1], cs[..|cs| - 1]);
    }
  }

  /**
   * Feeding keeps the PID and the published period; both packet histories
   * grow by exactly the PID's packets of the batch. From a balanced ledger
   * and a timeless zero reference, the ledger stays balanced (its counters
   * are those of the grown histories) and the window's PCR extremes and the
   * excursion count never go down.
   */
  lemma {:induction false} FeedEffect(e: Entry, ps: seq<TsPacket>, cs: seq<PcrClock>)
    requires |cs| == |ps|
    ensures Feed(e, ps, cs).pid == e.pid && Feed(e, ps, cs).period == e.period
    ensures Feed(e, ps, cs).books.received == e.books.received + Filter(ps, e.pid)
    ensures Feed(e, ps, cs).books.thisPeriod == e.books.thisPeriod + Filter(ps, e.pid)
    ensures Balanced(e.pid, e.books) ==> Balanced(e.pid, Feed(e, ps, cs).books)
    ensures (e.pcr.referencePcr == 0 ==> e.pcr.referenceTime == 0.0) ==>
      var t := Feed(e, ps, cs).pcr;
      && t.largeDriftCount >= e.pcr.largeDriftCount && t.largestDelta >= e.pcr.largestDelta
      && t.largestDrift >= e.pcr.largestDrift && t.lowestDrift >= e.pcr.lowestDrift
      && (t.referencePcr == 0 ==> t.referenceTime == 0.0)
    decreases |ps|
  {
    if ps != [] {
      var s, p, c := ps[..|ps| - 1], ps[|ps| - 1], cs[|cs| - 1];
      FeedEffect(e, s, cs[..|cs| - 1]);
      var f := Feed(e, s, cs[..|cs| - 1]);
      assert Filter(ps, e.pid) == Filter(s, e.pid) + (if p.pid == e.pid then [p] else []);
      if p.pid == e.pid {
        assert Feed(e, ps, cs) == Step(f, p, c);
        if Balanced(e.pid, e.books) {
          BookingKeepsBalance(e.pid, f.books, p, Step(f, p, c).books);
        }
        if e.pcr.referencePcr == 0 ==> e.pcr.referenceTime == 0.0 {
          PacketPcrStepMonotone(f.pcr, CheckCc(f.books.packetCount, f.books.lastCc, p), p, c);
        }
      }
    }
  }

  /** One packet: its PID's entry steps, or a new last entry does; every other entry is unchanged. */
  lemma RouteOne(v: seq<Entry>, p: TsPacket, c: PcrClock)
    requires Distinct(EntryPids(v))
    ensures EntryPids(Route(v, p, c)) == Enlist(EntryPids(v), p.pid)
    ensures forall j | 0 <= j < |v| ::
      Route(v, p, c)[j] == if v[j].pid == p.pid then Step(v[j], p, c) else v[j]
    ensures |Route(v, p, c)| == |v| + 1 ==> Route(v, p, c)[|v|] == Step(NewEntry(p.pid), p, c)
  {
    var k := Find(v, p.pid);
    if k < |v| {
      forall j | 0 <= j < |v| && j != k
        ensures v[j].pid != p.pid
      {
        assert EntryPids(v)[j] != EntryPids(v)[k];
      }
    } else {
      assert p.pid !in EntryPids(v);
    }
  }

  /** After a batch the registry's PIDs are `Registry` of the old ones, still without repeats. */
  lemma {:induction false} RoutedPids(v: seq<Entry>, ps: seq<TsPacket>, cs: seq<PcrClock>)
    requires Distinct(EntryPids(v)) && |cs| == |ps|
    ensures EntryPids(RouteAll(v, ps, cs)) == Registry(EntryPids(v), ps)
    ensures Distinct(EntryPids(RouteAll(v, ps, cs)))
    decreases |ps|
  {
    if ps != [] {
      var s, cs0 := ps[..|ps| - 1], cs[..|cs| - 1];
      RoutedPids(v, s, cs0);
      RouteOne(RouteAll(v, s, cs0), ps[|ps| - 1], cs[|cs| - 1]);
    }
  }

  /** After a batch each old entry has been fed its PID's packets of the batch, in batch order. */
  lemma {:induction false} RoutingFeedsOldEntries(v: seq<Entry>, ps: seq<TsPacket>, cs: seq<PcrClock>)
    requires Distinct(EntryPids(v)) && |cs| == |ps|
    ensures |v| <= |RouteAll(v, ps, cs)|
    ensures forall k | 0 <= k < |v| :: RouteAll(v, ps, cs)[k] == Feed(v[k], ps, cs)
    decreases |ps|
  {
    if ps != [] {
      var s, cs0, p, c := ps[..|ps| - 1], cs[..|cs| - 1], ps[|ps| - 1], cs[|cs| - 1];
      RoutingFeedsOldEntries(v, s, cs0);
      RoutedPids(v, s, cs0);
      var r0 := RouteAll(v, s, cs0);
      var r := Route(r0, p, c);
      RouteOne(r0, p, c);
      assert r == RouteAll(v, ps, cs);
      forall k | 0 <= k < |v|
        ensures r[k] == Feed(v[k], ps, cs)
      {
        assert r0[k] == Feed(v[k], s, cs0);
      }
    }
  }

  /** After a batch each entry it created is a new entry fed its PID's packets of the batch. */
  lemma {:induction false} RoutingFillsNewEntries(v: seq<Entry>, ps: seq<TsPacket>, cs: seq<PcrClock>)
    requires Distinct(EntryPids(v)) && |cs| == |ps|
    ensures forall k | |v| <= k < |RouteAll(v, ps, cs)| ::
      RouteAll(v, ps, cs)[k] == Feed(NewEntry(RouteAll(v, ps, cs)[k].pid), ps, cs)
    decreases |ps|
  {
    if ps != [] {
      var s, cs0, p, c := ps[..|ps| - 1], cs[..|cs| - 1], ps[|ps| - 1], cs[|cs| - 1];
      RoutingFillsNewEntries(v, s, cs0);
      RoutedPids(v, s, cs0);
      RegistryCoversBatch(EntryPids(v), s);
      var r0 := RouteAll(v, s, cs0);
      var r := Route(r0, p, c);
      RouteOne(r0, p, c);
      assert r == RouteAll(v, ps, cs);
      forall k | |v| <= k < |r|
        ensures r[k] == Feed(NewEntry(r[k].pid), ps, cs)
      {
        if k == |r0| {
          assert r[k].pid == p.pid && p.pid !in EntryPids(r0);
          FeedOfUnseen(NewEntry(p.pid), s, cs0);
        } else {
          assert r0[k] == Feed(NewEntry(r0[k].pid), s, cs0);
        }
      }
    }
  }

  /**
   * What a batch does to the registry, entry by entry: an old entry keeps
   * its PID and its published period, and its histories grow by its PID's
   * packets of the batch; an entry the batch created holds exactly its PID's
   * packets, in both histories, and has published nothing. Every balanced
   * ledger stays balanced.
   */
  lemma RoutingOutcome(v: seq<Entry>, ps: seq<TsPacket>, cs: seq<PcrClock>)
    requires Distinct(EntryPids(v)) && |cs| == |ps|
    requires forall k | 0 <= k < |v| :: Balanced(v[k].pid, v[k].books)
    ensures |v| <= |RouteAll(v, ps, cs)|
    ensures forall k | 0 <= k < |v| ::
      var e := RouteAll(v, ps, cs)[k];
      && e.pid == v[k].pid && e.period == v[k].period
      && e.books.received == v[k].books.received + Filter(ps, e.pid)
      && e.books.thisPeriod == v[k].books.thisPeriod + Filter(ps, e.pid)
      && Balanced(e.pid, e.books)
    ensures forall k | |v| <= k < |RouteAll(v, ps, cs)| ::
      var e := RouteAll(v, ps, cs)[k];
      && e.period == EmptyPeriod
      && e.books.received == Filter(ps, e.pid) && e.books.thisPeriod == Filter(ps, e.pid)
      && Balanced(e.pid, e.books)
  {
    var r := RouteAll(v, ps, cs);
    RoutingFeedsOldEntries(v, ps, cs);
    RoutingFillsNewEntries(v, ps, cs);
    forall k | 0 <= k < |v|
      ensures r[k].pid == v[k].pid && r[k].period == v[k].period
      ensures r[k].books.received == v[k].books.received + Filter(ps, r[k].pid)
      ensures r[k].books.thisPeriod == v[k].books.thisPeriod + Filter(ps, r[k].pid)
      ensures Balanced(r[k].pid, r[k].books)
    {
      FeedEffect(v[k], ps, cs);
    }
    forall k | |v| <= k < |r|
      ensures r[k].period == EmptyPeriod
      ensures r[k].books.received == Filter(ps, r[k].pid) && r[k].books.thisPeriod == Filter(ps, r[k].pid)
      ensures Balanced(r[k].pid, r[k].books)
    {
      var e := NewEntry(r[k].pid);
      FeedEffect(e, ps, cs);
      EmptyIsBalanced(r[k].pid);
      assert [] + Filter(ps, r[k].pid) == Filter(ps, r[k].pid);
    }
  }

  // ---------------------------------------------------------------------------
  // Last PCR and PTS

  /** A packet that sets `LastPcr`: it carries a PCR, and is of the selected PID when one is selected. */
  predicate CarriesSelectedPcr(selected: int, p: TsPacket)
  {
    p.adaptationFieldExists && p.adaptationField.pcrFlag && (selected == 0 || p.pid == selected)
  }

  /** `LastPcr` after one packet. */
  function LastPcrStep(last: u64, selected: int, p: TsPacket): (r: u64)
  {
    if CarriesSelectedPcr(selected, p) then p.adaptationField.pcr else last
  }

  /** `LastPcr` after a batch: the PCR of the last packet that sets it. */
  function PcrAfter(last: u64, selected: int, ps: seq<TsPacket>): (r: u64)
    decreases |ps|
  {
    if ps == [] then last else LastPcrStep(PcrAfter(last, selected, ps[..|ps| - 1]), selected, ps[|ps| - 1])
  }

  /** Without a packet that sets it, `LastPcr` is unchanged. */
  lemma {:induction false} PcrUnchangedWithoutCarrier(last: u64, selected: int, ps: seq<TsPacket>)
    requires forall i | 0 <= i < |ps| :: !CarriesSelectedPcr(selected, ps[i])
    ensures PcrAfter(last, selected, ps) == last
    decreases |ps|
  {
    if ps != [] {
      PcrUnchangedWithoutCarrier(last, selected, ps[..|ps| - 1]);
    }
  }

  /** The last packet that sets `LastPcr` wins. */
  lemma {:induction false} LastPcrWins(last: u64, selected: int, ps: seq<TsPacket>, i: int)
    requires 0 <= i < |ps| && CarriesSelectedPcr(selected, ps[i])
    requires forall j | i < j < |ps| :: !CarriesSelectedPcr(selected, ps[j])
    ensures PcrAfter(last, selected, ps) == ps[i].adaptationField.pcr
    decreases |ps|
  {
    if i < |ps| - 1 {
      var s := ps[..|ps| - 1];
      assert forall j | i <= j < |s| :: s[j] == ps[j];
      LastPcrWins(last, selected, s, i);
    }
  }

  lemma {:induction false} PcrOfBatches(last: u64, selected: int, a: seq<TsPacket>, b: seq<TsPacket>)
    ensures PcrAfter(PcrAfter(last, selected, a), selected, b) == PcrAfter(last, selected, a + b)
    decreases |b|
  {
    if b != [] {
      var c := a + b;
      assert c[..|c| - 1] == a + b[..|b| - 1];
      PcrOfBatches(last, selected, a, b[..|b| - 1]);
    } else {
      assert a + b == a;
    }
  }

  /** A packet that sets the remembered PTS of `pid`: of that PID, with a positive PTS. */
  predicate CarriesPts(pid: int, p: TsPacket)
  {
    p.pesHeader.pts > 0 && p.pid == pid
  }

  /** The remembered PTS of `pid` after one packet. */
  function LastPtsStep(last: u64, pid: int, p: TsPacket): (r: u64)
  {
    if CarriesPts(pid, p) then p.pesHeader.pts else last
  }

  /** The remembered PTS of `pid` after a batch: that of the last packet that sets it. */
  function PtsAfter(last: u64, pid: int, ps: seq<TsPacket>): (r: u64)
    decreases |ps|
  {
    if ps == [] then last else LastPtsStep(PtsAfter(last, pid, ps[..|ps| - 1]), pid, ps[|ps| - 1])
  }

  /** Without a packet of the PID with a positive PTS, the remembered value is unchanged. */
  lemma {:induction false} PtsUnchangedWithoutCarrier(last: u64, pid: int, ps: seq<TsPacket>)
    requires forall i | 0 <= i < |ps| :: !CarriesPts(pid, ps[i])
    ensures PtsAfter(last, pid, ps) == last
    decreases |ps|
  {
    if ps != [] {
      PtsUnchangedWithoutCarrier(last, pid, ps[..|ps| - 1]);
    }
  }

  /** The last packet of the PID with a positive PTS wins. */
  lemma {:induction false} LastPtsWins(last: u64, pid: int, ps: seq<TsPacket>, i: int)
    requires 0 <= i < |ps| && CarriesPts(pid, ps[i])
    requires forall j | i < j < |ps| :: !CarriesPts(pid, ps[j])
    ensures PtsAfter(last, pid, ps) == ps[i].pesHeader.pts
    decreases |ps|
  {
    if i < |ps| - 1 {
      var s := ps[..|ps| - 1];
      assert forall j | i <= j < |s| :: s[j] == ps[j];
      LastPtsWins(last, pid, s, i);
    }
  }

  // ---------------------------------------------------------------------------
  // The roll-up

  /**
   * The `TsMetric` of a list of period values, folded in list order: one more
   * PID, the counts added, and each peak raised to the PID's value when that
   * is larger. The "lowest drift" is raised like the others.
   */
  function RollUp(ps: seq<PeriodValues>): (r: TsMetric)
    decreases |ps|
  {
    if ps == [] then EmptyTsMetric
    else
      var t, p := RollUp(ps[..|ps| - 1]), ps[|ps| - 1];
      TsMetric(t.pidCount + 1, t.pidPackets + p.packetCount, t.pidCcErrors + p.ccErrorCount,
               t.teiErrors + p.teiCount, Max(t.longestPcrDelta, p.largestPcrDelta),
               MaxReal(t.largestPcrDrift, p.largestPcrDrift), MaxReal(t.lowestPcrDrift, p.lowestPcrDrift))
  }

  /** A sum over period values, added up from the front. */
  function Total(ps: seq<PeriodValues>, f: PeriodValues -> int): (r: int)
    decreases |ps|
  {
    if ps == [] then 0 else f(ps[0]) + Total(ps[1..], f)
  }

  lemma {:induction false} TotalAppend(ps: seq<PeriodValues>, p: PeriodValues, f: PeriodValues -> int)
    ensures Total(ps + [p], f) == Total(ps, f) + f(p)
    decreases |ps|
  {
    if ps != [] {
      assert (ps + [p])[1..] == ps[1..] + [p];
      TotalAppend(ps[1..], p, f);
    }
  }

  /** The count is the number of PIDs, and the three counts are sums over the PIDs. */
  lemma {:induction false} RollUpCountsAndSums(ps: seq<PeriodValues>)
    ensures RollUp(ps).pidCount == |ps|
    ensures RollUp(ps).pidPackets == Total(ps, (v: PeriodValues) => v.packetCount)
    ensures RollUp(ps).pidCcErrors == Total(ps, (v: PeriodValues) => v.ccErrorCount)
    ensures RollUp(ps).teiErrors == Total(ps, (v: PeriodValues) => v.teiCount)
    decreases |ps|
  {
    if ps != [] {
      var s, p := ps[..|ps| - 1], ps[|ps| - 1];
      assert ps == s + [p];
      RollUpCountsAndSums(s);
      TotalAppend(s, p, (v: PeriodValues) => v.packetCount);
      TotalAppend(s, p, (v: PeriodValues) => v.ccErrorCount);
      TotalAppend(s, p, (v: PeriodValues) => v.teiCount);
    }
  }

  /** The longest PCR delta is the largest over the PIDs, floored at 0. */
  lemma {:induction false} RollUpLongestDelta(ps: seq<PeriodValues>)
    ensures 0 <= RollUp(ps).longestPcrDelta
    ensures forall i | 0 <= i < |ps| :: ps[i].largestPcrDelta <= RollUp(ps).longestPcrDelta
    ensures RollUp(ps).longestPcrDelta == 0 ||
      exists i | 0 <= i < |ps| :: RollUp(ps).longestPcrDelta == ps[i].largestPcrDelta
    decreases |ps|
  {
    if ps != [] {
      var s := ps[..|ps| - 1];
      RollUpLongestDelta(s);
      assert forall i | 0 <= i < |s| :: s[i] == ps[i];
    }
  }

  /** The largest PCR drift is the largest over the PIDs, floored at 0. */
  lemma {:induction false} RollUpLargestDrift(ps: seq<PeriodValues>)
    ensures 0.0 <= RollUp(ps).largestPcrDrift
    ensures forall i | 0 <= i < |ps| :: ps[i].largestPcrDrift <= RollUp(ps).largestPcrDrift
    ensures RollUp(ps).largestPcrDrift == 0.0 ||
      exists i | 0 <= i < |ps| :: RollUp(ps).largestPcrDrift == ps[i].largestPcrDrift
    decreases |ps|
  {
    if ps != [] {
      var s := ps[..|ps| - 1];
      RollUpLargestDrift(s);
      assert forall i | 0 <= i < |s| :: s[i] == ps[i];
    }
  }

  /** The "lowest" PCR drift is also the largest over the PIDs, floored at 0. */
  lemma {:induction false} RollUpLowestDrift(ps: seq<PeriodValues>)
    ensures 0.0 <= RollUp(ps).lowestPcrDrift
    ensures forall i | 0 <= i < |ps| :: ps[i].lowestPcrDrift <= RollUp(ps).lowestPcrDrift
    ensures RollUp(ps).lowestPcrDrift == 0.0 ||
      exists i | 0 <= i < |ps| :: RollUp(ps).lowestPcrDrift == ps[i].lowestPcrDrift
    decreases |ps|
  {
    if ps != [] {
      var s := ps[..|ps| - 1];
      RollUpLowestDrift(s);
      assert forall i | 0 <= i < |s| :: s[i] == ps[i];
    }
  }

  /** Hence when no PID drifts late, the reported lowest drift is 0, not the least drift. */
  lemma NegativeLowestDriftsRollUpToZero(ps: seq<PeriodValues>)
    requires forall i | 0 <= i < |ps| :: ps[i].lowestPcrDrift <= 0.0
    ensures RollUp(ps).lowestPcrDrift == 0.0
  {
    RollUpLowestDrift(ps);
  }

  /** The period values of a list of metrics, in list order. */
  function Periods(ms: seq<PidMetric>): (r: seq<PeriodValues>)
    reads set m | m in ms
    ensures |r| == |ms|
    ensures forall k | 0 <= k < |ms| :: r[k] == ms[k].period
    decreases |ms|
  {
    if ms == [] then [] else Periods(ms[..|ms| - 1]) + [ms[|ms| - 1].period]
  }

  /** The position of the metric for `pid`, or -1 when the list has none. */
  method IndexOfPid(ms: seq<PidMetric>, pid: int) returns (i: int)
    ensures -1 <= i < |ms|
    ensures 0 <= i ==> ms[i].pid == pid && forall k | 0 <= k < i :: ms[k].pid != pid
    ensures i == -1 ==> forall k | 0 <= k < |ms| :: ms[k].pid != pid
  {
    i := 0;
    while i < |ms|
      invariant 0 <= i <= |ms|
      invariant forall k | 0 <= k < i :: ms[k].pid != pid
    {
      if ms[i].pid == pid {
        return;
      }
      i := i + 1;
    }
    i := -1;
  }

  // ---------------------------------------------------------------------------
  // The analyzer

  /** Extending a prefix of the batch by one packet takes one step of each fold. */
  lemma PrefixStep(v: seq<Entry>, pcr: u64, selected: int, vid: u64, sub: u64,
                   ps: seq<TsPacket>, cs: seq<PcrClock>, i: nat)
    requires |cs| == |ps| && i < |ps|
    ensures RouteAll(v, ps[..i + 1], cs[..i + 1]) == Route(RouteAll(v, ps[..i], cs[..i]), ps[i], cs[i])
    ensures PcrAfter(pcr, selected, ps[..i + 1]) == LastPcrStep(PcrAfter(pcr, selected, ps[..i]), selected, ps[i])
    ensures PtsAfter(vid, VideoPid, ps[..i + 1]) == LastPtsStep(PtsAfter(vid, VideoPid, ps[..i]), VideoPid, ps[i])
    ensures PtsAfter(sub, SubtitlePid, ps[..i + 1]) == LastPtsStep(PtsAfter(sub, SubtitlePid, ps[..i]), SubtitlePid, ps[i])
  {
    assert ps[..i + 1][..i] == ps[..i] && cs[..i + 1][..i] == cs[..i];
  }

  /**
   * A valid analyzer's entries are its metrics seen as values: one entry per
   * PID, each with its metric's PID, ledger, PCR state and published period,
   * and every ledger balanced. So the routing lemmas above apply to
   * `AnalyzePackets`.
   */
  lemma ValidEntries(a: Analyzer)
    requires a.Valid()
    ensures Distinct(EntryPids(a.entries))
    ensures |a.entries| == |a.pidMetrics|
    ensures forall k | 0 <= k < |a.entries| ::
      && a.entries[k] == Entry(a.pidMetrics[k].pid, a.pidMetrics[k].Books(), a.pidMetrics[k].PcrView(), a.pidMetrics[k].period)
      && a.pidMetrics[k].Valid()
      && Balanced(a.entries[k].pid, a.entries[k].books)
  {
    forall k | 0 <= k < |a.entries|
      ensures a.entries[k] == Entry(a.pidMetrics[k].pid, a.pidMetrics[k].Books(), a.pidMetrics[k].PcrView(), a.pidMetrics[k].period)
      ensures a.pidMetrics[k].Valid() && Balanced(a.entries[k].pid, a.entries[k].books)
    {
      assert Analyzer.Records(a.entries[k], a.pidMetrics[k]);
    }
  }

  class Analyzer {
    /** The per-PID metrics, one per PID, in the order the PIDs were first seen. */
    var pidMetrics: seq<PidMetric>
    var lastPcr: u64
    var lastVidPts: u64
    var lastSubPts: u64
    var selectedPcrPid: int
    var samplingPeriod: int
    var hasRtpHeaders: bool
    var networkMetric: NetworkMetric?
    var rtpMetric: RtpMetric?

    /** The registry as a value: each metric's PID, ledger, PCR state and period, in list order. */
    ghost var entries: seq<Entry>

    /**
     * Each PID has one metric, every metric balances against the packets it
     * was given, and `entries` records each metric's state.
     */
    ghost predicate Valid()
      reads this`pidMetrics, this`entries, pidMetrics
    {
      && |entries| == |pidMetrics|
      && (forall i, j | 0 <= i < j < |pidMetrics| :: pidMetrics[i].pid != pidMetrics[j].pid)
      && (forall k | 0 <= k < |pidMetrics| :: Records(entries[k], pidMetrics[k]))
    }

    /** An entry records a metric's PID, ledger, PCR state and period, and the metric is consistent. */
    static ghost predicate Records(e: Entry, m: PidMetric)
      reads m
    {
      e == Entry(m.pid, m.Books(), m.PcrView(), m.period) && m.Valid()
    }

    /**
     * A metric as the analyzer creates it: with the analyzer's sampling
     * period, after the setter's one rollover, stamped at `now`.
     */
    static ghost predicate Created(m: PidMetric, samplingPeriod: int, now: Timestamp)
      reads m.base
    {
      m.base.samplingPeriod == samplingPeriod && m.base.sampleCount == 1 && m.base.lastPeriodEndTime == Some(now)
    }

    /** An analyzer with no metrics yet, the given network and RTP metrics, and the defaults. */
    constructor (networkMetric: NetworkMetric?, rtpMetric: RtpMetric?)
      ensures Valid() && pidMetrics == [] && entries == []
      ensures lastPcr == 0 && lastVidPts == 0 && lastSubPts == 0 && selectedPcrPid == 0
      ensures samplingPeriod == DefaultSamplingPeriod && hasRtpHeaders
      ensures this.networkMetric == networkMetric && this.rtpMetric == rtpMetric
    {
      pidMetrics, entries := [], [];
      lastPcr, lastVidPts, lastSubPts, selectedPcrPid := 0, 0, 0, 0;
      samplingPeriod := DefaultSamplingPeriod;
      hasRtpHeaders := true;
      this.networkMetric := networkMetric;
      this.rtpMetric := rtpMetric;
    }

    /**
     * Route a batch: each packet updates the remembered PCR and PTS values
     * and goes to its PID's metric, which is created on the first packet of
     * that PID. `clocks[i]` is the clock reading taken for `packets[i]`, and
     * `now` the time a new metric's first period starts.
     */
    method AnalyzePackets(packets: seq<TsPacket>, clocks: seq<PcrClock>, now: Timestamp)
      requires Valid() && |clocks| == |packets|
      modifies this`pidMetrics, this`entries, this`lastPcr, this`lastVidPts, this`lastSubPts
      modifies pidMetrics
      ensures Valid()
      ensures old(pidMetrics) <= pidMetrics
      ensures forall j | |old(pidMetrics)| <= j < |pidMetrics| :: fresh(pidMetrics[j]) && fresh(pidMetrics[j].base) && Created(pidMetrics[j], samplingPeriod, now)
      ensures entries == RouteAll(old(entries), packets, clocks)
      ensures lastPcr == PcrAfter(old(lastPcr), selectedPcrPid, packets)
      ensures lastVidPts == PtsAfter(old(lastVidPts), VideoPid, packets)
      ensures lastSubPts == PtsAfter(old(lastSubPts), SubtitlePid, packets)
    {
      var i := 0;
      while i < |packets|
        invariant 0 <= i <= |packets|
        invariant Valid()
        invariant old(pidMetrics) <= pidMetrics
        invariant forall j | |old(pidMetrics)| <= j < |pidMetrics| :: fresh(pidMetrics[j]) && fresh(pidMetrics[j].base) && Created(pidMetrics[j], samplingPeriod, now)
        invariant entries == RouteAll(old(entries), packets[..i], clocks[..i])
        invariant lastPcr == PcrAfter(old(lastPcr), selectedPcrPid, packets[..i])
        invariant lastVidPts == PtsAfter(old(lastVidPts), VideoPid, packets[..i])
        invariant lastSubPts == PtsAfter(old(lastSubPts), SubtitlePid, packets[..i])
      {
        AnalyzeNext(packets, clocks, i, now, old(entries), old(lastPcr), old(lastVidPts), old(lastSubPts));
        i := i + 1;
      }
      assert packets[..i] == packets && clocks[..i] == clocks;
    }

    /**
     * The batch loop's body at position `i`: `AnalyzePacket` of the `i`-th
     * packet, which extends each fold from the first `i` packets to the
     * first `i + 1`. `v`, `pcr`, `vid` and `sub` are the values the batch
     * started from.
     */
    method AnalyzeNext(packets: seq<TsPacket>, clocks: seq<PcrClock>, i: nat, now: Timestamp,
                       ghost v: seq<Entry>, ghost pcr: u64, ghost vid: u64, ghost sub: u64)
      requires Valid() && |clocks| == |packets| && i < |packets|
      requires entries == RouteAll(v, packets[..i], clocks[..i])
      requires lastPcr == PcrAfter(pcr, selectedPcrPid, packets[..i])
      requires lastVidPts == PtsAfter(vid, VideoPid, packets[..i])
      requires lastSubPts == PtsAfter(sub, SubtitlePid, packets[..i])
      modifies this`pidMetrics, this`entries, this`lastPcr, this`lastVidPts, this`lastSubPts
      modifies pidMetrics
      ensures Valid()
      ensures old(pidMetrics) <= pidMetrics
      ensures forall j | |old(pidMetrics)| <= j < |pidMetrics| :: fresh(pidMetrics[j]) && fresh(pidMetrics[j].base) && Created(pidMetrics[j], samplingPeriod, now)
      ensures entries == RouteAll(v, packets[..i + 1], clocks[..i + 1])
      ensures lastPcr == PcrAfter(pcr, selectedPcrPid, packets[..i + 1])
      ensures lastVidPts == PtsAfter(vid, VideoPid, packets[..i + 1])
      ensures lastSubPts == PtsAfter(sub, SubtitlePid, packets[..i + 1])
    {
      PrefixStep(v, pcr, selectedPcrPid, vid, sub, packets, clocks, i);
      AnalyzePacket(packets[i], clocks[i], now);
    }

    /** One iteration of the batch loop: the clock updates, then the routing of the packet. */
    method AnalyzePacket(p: TsPacket, clock: PcrClock, now: Timestamp)
      requires Valid()
      modifies this`pidMetrics, this`entries, this`lastPcr, this`lastVidPts, this`lastSubPts
      modifies pidMetrics
      ensures Valid()
      ensures old(pidMetrics) <= pidMetrics
      ensures forall j | |old(pidMetrics)| <= j < |pidMetrics| :: fresh(pidMetrics[j]) && fresh(pidMetrics[j].base) && Created(pidMetrics[j], samplingPeriod, now)
      ensures entries == Route(old(entries), p, clock)
      ensures lastPcr == LastPcrStep(old(lastPcr), selectedPcrPid, p)
      ensures lastVidPts == LastPtsStep(old(lastVidPts), VideoPid, p)
      ensures lastSubPts == LastPtsStep(old(lastSubPts), SubtitlePid, p)
    {
      TrackClocks(p);
      Dispatch(p, clock, now);
    }

    /** The LastPcr, LastVidPts and LastSubPts updates for one packet. */
    method TrackClocks(p: TsPacket)
      modifies this`lastPcr, this`lastVidPts, this`lastSubPts
      ensures lastPcr == LastPcrStep(old(lastPcr), selectedPcrPid, p)
      ensures lastVidPts == LastPtsStep(old(lastVidPts), VideoPid, p)
      ensures lastSubPts == LastPtsStep(old(lastSubPts), SubtitlePid, p)
    {
      if p.adaptationFieldExists {
        if p.adaptationField.pcrFlag {
          if selectedPcrPid != 0 {
            if p.pid == selectedPcrPid {
              lastPcr := p.adaptationField.pcr;
            }
          } else {
            lastPcr := p.adaptationField.pcr;
          }
        }
      }
      if p.pesHeader.pts > 0 {
        if p.pid == VideoPid {
          lastVidPts := p.pesHeader.pts;
        }
        if p.pid == SubtitlePid {
          lastSubPts := p.pesHeader.pts;
        }
      }
    }

    /** Hand one packet to its PID's metric, creating and appending the metric when there is none. */
    method Dispatch(p: TsPacket, clock: PcrClock, now: Timestamp)
      requires Valid()
      modifies this`pidMetrics, this`entries, pidMetrics
      ensures Valid()
      ensures old(pidMetrics) <= pidMetrics
      ensures forall j | |old(pidMetrics)| <= j < |pidMetrics| :: fresh(pidMetrics[j]) && fresh(pidMetrics[j].base) && Created(pidMetrics[j], samplingPeriod, now)
      ensures entries == Route(old(entries), p, clock)
    {
      var m, k := MetricFor(p.pid, now);
      ghost var ms, w := pidMetrics, entries;
      assert Route(old(entries), p, clock) == w[k := Step(w[k], p, clock)] by {
        RouteAsUpdate(old(entries), p, clock);
      }
      Deliver(k, p, clock);
      assert pidMetrics == ms;
      assert |old(pidMetrics)| <= k ==> Created(m, samplingPeriod, now);
    }

    /** Hand a packet to the metric at position `k`, which is the metric of the packet's PID: its entry steps. */
    method Deliver(k: nat, p: TsPacket, clock: PcrClock)
      requires Valid() && k < |pidMetrics| && p.pid == pidMetrics[k].pid
      modifies this`entries, pidMetrics[k]
      ensures Valid()
      ensures entries == old(entries)[k := Step(old(entries)[k], p, clock)]
      ensures unchanged(pidMetrics[k].base)
    {
      var m := pidMetrics[k];
      m.AddPacket(p, clock);
      entries := entries[k := Step(entries[k], p, clock)];
      forall j | 0 <= j < |pidMetrics|
        ensures Records(entries[j], pidMetrics[j])
      {
        if j != k {
          assert pidMetrics[j].pid != m.pid;
        }
      }
    }

    /**
     * The metric of a PID and its position: the registered one, or a new one
     * appended to the registry with the entry of a metric that has seen nothing.
     */
    method MetricFor(pid: Pid, now: Timestamp) returns (m: PidMetric, k: nat)
      requires Valid()
      modifies this`pidMetrics, this`entries
      ensures Valid() && k < |pidMetrics| && pidMetrics[k] == m && m.pid == pid
      ensures k == Find(old(entries), pid)
      ensures old(pidMetrics) <= pidMetrics
      ensures forall j | |old(pidMetrics)| <= j < |pidMetrics| :: fresh(pidMetrics[j]) && fresh(pidMetrics[j].base) && Created(pidMetrics[j], samplingPeriod, now)
      ensures k < |old(pidMetrics)| ==> pidMetrics == old(pidMetrics) && entries == old(entries)
      ensures k == |old(pidMetrics)| ==>
        && fresh(m)
        && pidMetrics == old(pidMetrics) + [m] && entries == old(entries) + [NewEntry(pid)]
    {
      var i := IndexOfPid(pidMetrics, pid);
      if i < 0 {
        m := new PidMetric(samplingPeriod, pid, now);
        k := |pidMetrics|;
        pidMetrics, entries := pidMetrics + [m], entries + [NewEntry(pid)];
      } else {
        m, k := pidMetrics[i], i;
      }
    }

    /**
     * The periodic log record: the network metric, the RTP metric only when
     * the stream has RTP headers, and the roll-up of every PID's last period.
     */
    method UpdateSeriesData() returns (record: LogRecord)
      ensures record.net == networkMetric
      ensures record.rtp == (if hasRtpHeaders then rtpMetric else null)
      ensures record.ts == RollUp(Periods(pidMetrics))
    {
      ghost var periods := Periods(pidMetrics);
      var ts := EmptyTsMetric;
      var i := 0;
      while i < |pidMetrics|
        invariant 0 <= i <= |pidMetrics|
        invariant ts == RollUp(periods[..i])
      {
        var pm := pidMetrics[i].period;
        assert periods[..i + 1][..i] == periods[..i];
        ts := ts.(pidCount := ts.pidCount + 1, pidPackets := ts.pidPackets + pm.packetCount,
                  pidCcErrors := ts.pidCcErrors + pm.ccErrorCount, teiErrors := ts.teiErrors + pm.teiCount);
        if ts.longestPcrDelta < pm.largestPcrDelta {
          ts := ts.(longestPcrDelta := pm.largestPcrDelta);
        }
        if ts.largestPcrDrift < pm.largestPcrDrift {
          ts := ts.(largestPcrDrift := pm.largestPcrDrift);
        }
        if ts.lowestPcrDrift < pm.lowestPcrDrift {
          ts := ts.(lowestPcrDrift := pm.lowestPcrDrift);
        }
        i := i + 1;
      }
      assert periods[..i] == periods;
      var rtp := if hasRtpHeaders then rtpMetric else null;
      record := LogRecord(networkMetric, rtp, ts);
    }
  }
}
