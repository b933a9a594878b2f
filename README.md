# TsAnalysis metrics core in Dafny

A model of the measuring core of Cinegy TsAnalysis. TsAnalysis watches an MPEG
transport stream arriving over the network, optionally wrapped in RTP. It
keeps four kinds of counters:

- `Metric` (`metric.dfy`): the windowed rollover every metric shares. Each
  sampling period ends with a rollover, which counts the period in
  `SampleCount` and stamps `LastPeriodEndTime`. Setting `SamplingPeriod` rolls
  over at once.
- `RtpMetric` (`rtp_metric.dfy`): decodes the RTP fixed header (section 5.1
  of RFC 3550) as big-endian bytes. From the 16-bit sequence number it
  estimates lost packets. The estimate handles wrap-around and books a single
  packet for any jump above 30000.
- `PidMetric` (`pid_metric.dfy`): one per PID. It validates the 4-bit
  continuity counter (section 2.4.3.3 of ISO/IEC 13818-1) and counts packets
  with the transport error indicator (TEI). It also follows the PCR reference
  and last-PCR state machine (section 2.4.3.5 of ISO/IEC 13818-1), keeping the
  largest PCR delta of the period and the drift extremes.
- `NetworkMetric` (`network_metric.dfy`): packet and byte totals, the queue
  and receive-buffer maxima, and the gaps between packets. It also holds a
  latched buffer-overflow notification that fires once per excursion above
  99 %.

The `Analyzer` (`analyzer.dfy`) routes each packet of a batch to its PID's
metric, creating metrics lazily in first-seen order. It remembers the last
PCR and the last video and subtitle PTS. Periodically it folds the per-PID
period values into a `TsMetric` for the log record.

Every class is modelled as a Dafny `class` whose methods update its fields.
Each method is specified against pure reference functions: `EstimatedLoss`
for RTP; `CheckCc`, `CcReplay`, `PcrStep` and the `Ledger` for a PID;
`Overflow` and `GapStep` for the network; `Route`/`RouteAll`, `PcrAfter`,
`PtsAfter` and `RollUp` for the analyzer. The lemmas about those functions
state what the source promises over whole runs of packets.

Each `PidMetric` keeps ghost histories: the packets it was handed since
creation and since the last rollover. Its invariant `Valid` says its counters
are exactly those of that history. The analyzer's ghost `entries` records the
registry as values: each metric's PID, its ledger (histories and counters),
its PCR state and its published period. So the routing lemmas
(`RoutingFeedsOldEntries`, `RoutingFillsNewEntries`, `RoutingOutcome`,
`RoutedPids`) describe what `AnalyzePackets` does to the metrics. Raised events (`DiscontinuityDetected`, `TeiDetected`,
`SequenceDiscontinuityDetected`, `BufferOverflow`) are ghost counters.

The RTP loss estimate is modelled as the code computes it, which is not
always the count of missing sequence numbers. On a forward gap the code books
`seqNum - last`: 10 followed by 12 skips one number but books two. On a
backward wrap it books `seqNum + 65535 - last`, which is exactly the count
skipped: 65534 followed by 3 skips four numbers and books four.
`RtpMetrics.LossVersusMissing` and `RtpMetrics.LossExamples` state both cases.
The analyzer's "lowest PCR drift" roll-up takes a maximum like the other two
peaks, as the code does (`Analysis.RollUpLowestDrift`).

## Model

| member | source | states |
|---|---|---|
| `Numerics.SubU64` | Cinegy.TsAnalysis/Metrics/PidMetric.cs:147 | `ulong` subtraction: the plain difference when it is not negative, otherwise wrapped by 2^64 |
| `Numerics.TruncDiv` | Cinegy.TsAnalysis/Metrics/NetworkMetric.cs:136 | C# integer division truncates toward zero, for either sign of divisor: the magnitude of `q*b` is the largest multiple of the divisor's magnitude not above the dividend's, and a non-zero `q*b` has the dividend's sign |
| `Numerics.TruncDivExamples` | Cinegy.TsAnalysis/Metrics/NetworkMetric.cs:136 | -7/2 and 7/-2 give -3, -7/-2 gives 3, and -999/1000 gives 0 where Euclidean division would give -1 |
| `MetricBase.Metric.constructor` | Cinegy.TsAnalysis/Metrics/Metric.cs:23-34 | sampling period defaults to 5000 ms; no period counted and no end time yet |
| `MetricBase.Metric.FinishPeriod` | Cinegy.TsAnalysis/Metrics/Metric.cs:58-67 | a rollover adds exactly one to `SampleCount` and sets `LastPeriodEndTime` to the current time |
| `MetricBase.Metric.SetSamplingPeriod` | Cinegy.TsAnalysis/Metrics/Metric.cs:46-56 | the setter stores the value and performs exactly one rollover |
| `RtpMetrics.ReadUInt16` | Cinegy.TsAnalysis/Metrics/RtpMetric.cs:53 | the big-endian sequence number is in 0..65535 with the first byte as high byte and the second as low byte |
| `RtpMetrics.UInt16RoundTrip` | Cinegy.TsAnalysis/Metrics/RtpMetric.cs:53 | decoding the bytes of an encoded 16-bit value gives the value, and encoding a decoded pair gives the pair |
| `RtpMetrics.DecodeEncodeUInt32` | Cinegy.TsAnalysis/Metrics/RtpMetric.cs:54-55 | the big-endian 32-bit timestamp/SSRC decoding inverts the 4-byte encoding |
| `RtpMetrics.EncodeDecodeUInt32` | Cinegy.TsAnalysis/Metrics/RtpMetric.cs:54-55 | the 4-byte encoding inverts the decoding: every 4-byte field decodes to a distinct value |
| `RtpMetrics.Clamp` | Cinegy.TsAnalysis/Metrics/RtpMetric.cs:88-91 | a clamped loss is at most 30000 and is zero exactly when the raw loss is zero |
| `RtpMetrics.LossRange` | Cinegy.TsAnalysis/Metrics/RtpMetric.cs:65-96 | the loss booked for a frame is at most 30000, and is zero if and only if the number is the successor (65535 to 0 included) or repeats a non-zero number |
| `RtpMetrics.LossVersusMissing` | Cinegy.TsAnalysis/Metrics/RtpMetric.cs:80-96 | a forward jump books one more than the numbers skipped, a backward wrap or a jump to 0 books exactly those skipped, a repeated non-zero number books none |
| `RtpMetrics.NoLossWhenConsecutive` | Cinegy.TsAnalysis/Metrics/RtpMetric.cs:65-99 | a run of frames each following its predecessor books no loss in total |
| `RtpMetrics.LossExamples` | Cinegy.TsAnalysis/Metrics/RtpMetric.cs:65-96 | 65533 then 65534, 65535, 0, 1 book nothing; 10 then 12 books 2; 65534 then 3 books 4; 0 then 0 books 1; 7 then 7 books 0 |
| `RtpMetrics.RtpMetric.constructor` | Cinegy.TsAnalysis/Metrics/RtpMetric.cs:25-28 | creation stores the sampling period through the setter, so one period is already counted; all loss counters are zero |
| `RtpMetrics.RtpMetric.ResetPeriod` | Cinegy.TsAnalysis/Metrics/RtpMetric.cs:30-39 | rollover publishes the period's loss, zeroes the accumulator, then performs the base step; loss stays bounded by the events |
| `RtpMetrics.RtpMetric.SetSamplingPeriod` | Cinegy.TsAnalysis/Metrics/Metric.cs:46-56 | the setter stores the value and performs the RTP rollover once |
| `RtpMetrics.RtpMetric.AddPacket` | Cinegy.TsAnalysis/Metrics/RtpMetric.cs:51-100 | throws exactly for frames shorter than 12 bytes, having written the timestamp when 8 bytes were there; otherwise stores timestamp, SSRC and sequence number; the first frame only seeds the sequence number; later frames add `EstimatedLoss` to both loss counters and raise one event unless the number is the successor |
| `RtpMetrics.RtpMetric.TrackSequence` | Cinegy.TsAnalysis/Metrics/RtpMetric.cs:65-99 | the branchy loss computation equals `EstimatedLoss`, added to the total and to the period accumulator alike; one event unless the successor arrived; the number is stored |
| `RtpMetrics.RtpMetric.RegisterFirstPacket` | Cinegy.TsAnalysis/Metrics/RtpMetric.cs:102-106 | the first frame stores its sequence number and is counted |
| `RtpMetrics.RtpMetric.OnSequenceDiscontinuityDetected` | Cinegy.TsAnalysis/Metrics/RtpMetric.cs:111-115 | raises one sequence-discontinuity event |
| `PidMetrics.AppendPacket` | Cinegy.TsAnalysis/Metrics/PidMetric.cs:111-125 | one more packet adds one to the TEI count when flagged; a TEI packet leaves the counter state alone; any other packet is checked against the last counter and stored |
| `PidMetrics.CcReplayBounds` | Cinegy.TsAnalysis/Metrics/PidMetric.cs:195-242 | every discontinuity is also a counter error, and the first packet never is one |
| `PidMetrics.SteadyCounterHasNoErrors` | Cinegy.TsAnalysis/Metrics/PidMetric.cs:221-232 | counters advancing by one modulo 16 (15 to 0 included) produce no error and no discontinuity |
| `PidMetrics.NullPidHasNoErrors` | Cinegy.TsAnalysis/Metrics/PidMetric.cs:205-206 | packets of the null PID 0x1FFF never produce a counter error |
| `PidMetrics.CcNextPacket` | Cinegy.TsAnalysis/Metrics/PidMetric.cs:208-236 | after any non-empty history, a clean packet that repeats the stored counter adds one error with payload and none without, never a discontinuity; the successor modulo 16 adds neither; any other value adds one error and one discontinuity; the packet's counter is stored |
| `PidMetrics.PcrStepCases` | Cinegy.TsAnalysis/Metrics/PidMetric.cs:133-193 | a packet without a usable PCR, or the first PCR during warm-up, leaves the PCR state unchanged; with a stored PCR the largest delta becomes the maximum of the old one and the wrapped difference, and the PCR is stored; more than five excursions re-base the reference on this PCR |
| `PidMetrics.PacketPcrStepMonotone` | Cinegy.TsAnalysis/Metrics/PidMetric.cs:104-131 | one packet never lowers the excursion count, the largest delta or either drift extreme, and a zero reference always has a zero reference time |
| `PidMetrics.PcrRunMonotone` | Cinegy.TsAnalysis/Metrics/PidMetric.cs:145-190 | over any run of packets the excursion count is never reset and the period's extremes never go down |
| `PidMetrics.ResyncPersists` | Cinegy.TsAnalysis/Metrics/PidMetric.cs:186-192 | once more than five excursions were counted, every stored PCR is also the reference PCR |
| `PidMetrics.EmptyIsBalanced` | Cinegy.TsAnalysis/Metrics/PidMetric.cs:44-47 | a metric that has seen no packet has counters consistent with its empty history |
| `PidMetrics.RolloverKeepsBalance` | Cinegy.TsAnalysis/Metrics/PidMetric.cs:49-75 | emptying the open period keeps the counters consistent with the packet history |
| `PidMetrics.BookingKeepsBalance` | Cinegy.TsAnalysis/Metrics/PidMetric.cs:104-131 | counting a packet of the metric's PID keeps packet, TEI and error counts equal to those of the replayed history, in total and for the open period |
| `PidMetrics.DeltaMilliseconds` | Cinegy.TsAnalysis/Metrics/PidMetric.cs:62 | converting 27 MHz ticks to time-span ticks and then to milliseconds, truncating twice, gives the whole number of milliseconds in the delta |
| `PidMetrics.Published` | Cinegy.TsAnalysis/Metrics/PidMetric.cs:53-70 | rollover publishes the counts and drift extremes unchanged and the largest delta in whole milliseconds |
| `PidMetrics.PidMetric.constructor` | Cinegy.TsAnalysis/Metrics/PidMetric.cs:44-47 | creation performs one rollover of an empty window; no packet is counted; the PCR state is zero |
| `PidMetrics.PidMetric.ResetPeriod` | Cinegy.TsAnalysis/Metrics/PidMetric.cs:49-75 | rollover publishes the window, zeroes every accumulator, then performs the base step, keeping the counters consistent |
| `PidMetrics.PidMetric.SetSamplingPeriod` | Cinegy.TsAnalysis/Metrics/Metric.cs:46-56 | the setter stores the value and performs the PID rollover once |
| `PidMetrics.PidMetric.AddPacket` | Cinegy.TsAnalysis/Metrics/PidMetric.cs:104-131 | a packet of another PID changes nothing; a packet of the metric's PID is appended to the history, moves the counters as `Booked` and the PCR state as `PacketPcrStep` does, and keeps them consistent |
| `PidMetrics.PidMetric.AcceptErrored` | Cinegy.TsAnalysis/Metrics/PidMetric.cs:111-116 | a TEI packet adds one to both TEI counts and the TEI events, skips the counter and PCR checks, keeps the last counter and resets the PCR reference to the packet's PCR |
| `PidMetrics.PidMetric.AcceptClean` | Cinegy.TsAnalysis/Metrics/PidMetric.cs:117-122 | a packet without TEI is checked for continuity and PCR, and its counter is stored |
| `PidMetrics.PidMetric.Count` | Cinegy.TsAnalysis/Metrics/PidMetric.cs:124-125 | every accepted packet adds one to the total and the period packet count |
| `PidMetrics.PidMetric.CheckPcr` | Cinegy.TsAnalysis/Metrics/PidMetric.cs:133-193 | the PCR state moves exactly as `PcrStep`; the period's counts are untouched |
| `PidMetrics.PidMetric.CheckCcContinuity` | Cinegy.TsAnalysis/Metrics/PidMetric.cs:195-242 | adds one error to both counts exactly when `CheckCc` is not OK, raises a discontinuity and resets the PCR reference exactly on a jump |
| `PidMetrics.PidMetric.CountCcError` | Cinegy.TsAnalysis/Metrics/PidMetric.cs:234-235 | one error added to the total and to the period count |
| `PidMetrics.PidMetric.OnDiscontinuityDetected` | Cinegy.TsAnalysis/Metrics/PidMetric.cs:247-256 | raises one discontinuity event and clears the PCR reference, the last PCR and the reference time |
| `PidMetrics.PidMetric.OnTeiDetected` | Cinegy.TsAnalysis/Metrics/PidMetric.cs:276-285 | raises one TEI event and re-bases the PCR reference on the packet's PCR |
| `PidMetrics.PidMetric.ResetReferenceTime` | Cinegy.TsAnalysis/Metrics/PidMetric.cs:258-271 | stores the new reference, clears the last PCR, and takes the clock reading as reference time unless the reference is zero |
| `NetworkMetrics.BufferUsage` | Cinegy.TsAnalysis/Metrics/NetworkMetric.cs:147-155 | -1 without a socket; otherwise a non-negative percentage that exceeds 99 exactly when 100 times the waiting bytes exceed 99 times the buffer size |
| `NetworkMetrics.UsageAboveThreshold` | Cinegy.TsAnalysis/Metrics/NetworkMetric.cs:313 | the real-valued threshold test on the usage percentage is the same as an integer comparison of bytes waiting and buffer size |
| `NetworkMetrics.LatchFollowsLastReading` | Cinegy.TsAnalysis/Metrics/NetworkMetric.cs:313-320 | after any reading the overflow latch is set exactly when that reading was above 99 |
| `NetworkMetrics.OverflowRunSplits` | Cinegy.TsAnalysis/Metrics/NetworkMetric.cs:301-320 | applying readings in two runs gives the same latch as applying them at once |
| `NetworkMetrics.HighRunNotifiesAtMostOnce` | Cinegy.TsAnalysis/Metrics/NetworkMetric.cs:333-339 | a run of readings all above 99 raises one notification if the latch was clear and none if it was set |
| `NetworkMetrics.NotificationsNeedClearing` | Cinegy.TsAnalysis/Metrics/NetworkMetric.cs:313-339 | notifications never decrease, and each one after the first needs a reading of at most 99 in between |
| `NetworkMetrics.NotificationBound` | Cinegy.TsAnalysis/Metrics/NetworkMetric.cs:313-339 | from a clear latch, notifications are at most one more than the readings of at most 99 |
| `NetworkMetrics.AverageBitrate` | Cinegy.TsAnalysis/Metrics/NetworkMetric.cs:136 | undefined (division by zero) exactly when the sampling period is below one second in magnitude; otherwise a multiple of 8 |
| `NetworkMetrics.BitrateBounds` | Cinegy.TsAnalysis/Metrics/NetworkMetric.cs:136 | with a period of at least one second, the bitrate is 8 times the whole bytes per second, never more than 8 times the bytes |
| `NetworkMetrics.BitrateExamples` | Cinegy.TsAnalysis/Metrics/NetworkMetric.cs:136 | 1 000 000 bytes in 5 s give 1 600 000; a 999 ms period divides by zero; 1000 bytes in 5999 ms give 1600 |
| `NetworkMetrics.GapStepSettles` | Cinegy.TsAnalysis/Metrics/NetworkMetric.cs:239-274 | the gap and packet time are always stored; the second packet seeds the shortest gap; the extremes move only after more than ten packets, as running maxima and a running minimum; the period's longest gap stays under the all-time one |
| `NetworkMetrics.NetworkMetric.constructor` | Cinegy.TsAnalysis/Analyzer.cs:259-264 | a new metric with its sampling period set, one period counted and stamped at the creation time: packet and byte totals, overflow count, current and largest packet queue, largest buffer usage and every inter-packet gap start at zero, the overflow latch is clear, no buffer usage is recorded, and both the open window and the published period are empty |
| `NetworkMetrics.NetworkMetric.ResetPeriod` | Cinegy.TsAnalysis/Metrics/NetworkMetric.cs:42-67 | rollover publishes packets, data, queue and buffer maxima and the gap extremes, zeroes them, then performs the base step; the published shortest gap is always 0 |
| `NetworkMetrics.NetworkMetric.SetSamplingPeriod` | Cinegy.TsAnalysis/Metrics/Metric.cs:46-56 | the setter stores the value and performs the network rollover once |
| `NetworkMetrics.NetworkMetric.PeriodAverageBitrate` | Cinegy.TsAnalysis/Metrics/NetworkMetric.cs:136 | the last period's bitrate, undefined exactly when the sampling period is under a second, otherwise a multiple of 8 |
| `NetworkMetrics.NetworkMetric.AddPacket` | Cinegy.TsAnalysis/Metrics/NetworkMetric.cs:224-322 | totals and period totals grow by one packet and by the data size; the queue is stored and its maxima are running maxima; the gap state moves as `GapStep`; buffer maxima are running maxima of `BufferUsage`; the latch moves as `Overflow` and stays the replay of all readings |
| `NetworkMetrics.NetworkMetric.CountPacket` | Cinegy.TsAnalysis/Metrics/NetworkMetric.cs:276-279 | one packet and its size added to the totals and to the period |
| `NetworkMetrics.NetworkMetric.RegisterFirstPacket` | Cinegy.TsAnalysis/Metrics/NetworkMetric.cs:324-329 | the first packet's gap is measured from the stopwatch reading at registration |
| `NetworkMetrics.NetworkMetric.TrackQueue` | Cinegy.TsAnalysis/Metrics/NetworkMetric.cs:233-237 | the current queue is the last size; the all-time and period maxima are running maxima, the period one under the all-time one |
| `NetworkMetrics.NetworkMetric.TrackGap` | Cinegy.TsAnalysis/Metrics/NetworkMetric.cs:239-274 | the gap in seconds since the last packet moves the gap state as `GapStep` |
| `NetworkMetrics.NetworkMetric.TrackBuffer` | Cinegy.TsAnalysis/Metrics/NetworkMetric.cs:301-320 | buffer maxima are running maxima of the reading; the latch takes one `Overflow` step and remains the replay of all readings |
| `NetworkMetrics.NetworkMetric.OnBufferOverflow` | Cinegy.TsAnalysis/Metrics/NetworkMetric.cs:333-339 | notifies only when the latch was clear, and sets it |
| `Analysis.Enlist` | Cinegy.TsAnalysis/Analyzer.cs:148-162 | after one packet the registry holds its PID, keeps every earlier PID in place, grows by at most one, and stays without repeats |
| `Analysis.RegistryCoversBatch` | Cinegy.TsAnalysis/Analyzer.cs:148-162 | after a batch the registry has no repeats, starts with the old PIDs, holds the PID of every packet, and nothing else |
| `Analysis.RegistryInFirstSeenOrder` | Cinegy.TsAnalysis/Analyzer.cs:156-162 | PIDs added by a batch are in the order of their first packets |
| `Analysis.RegistryOfBatches` | Cinegy.TsAnalysis/Analyzer.cs:103-181 | two batches build the same registry as their concatenation |
| `Analysis.Filter` | Cinegy.TsAnalysis/Analyzer.cs:148-164 | a PID's share of a batch has only packets of the batch with that PID |
| `Analysis.FilterKeepsEveryPacket` | Cinegy.TsAnalysis/Analyzer.cs:148-164 | every packet of a batch is in its own PID's share |
| `Analysis.FilterOfBatches` | Cinegy.TsAnalysis/Analyzer.cs:103-181 | a PID's share of two batches is its share of the first followed by its share of the second |
| `Analysis.Find` | Cinegy.TsAnalysis/Analyzer.cs:148-154 | the lookup finds the first metric of the PID, or reports none when no metric has it |
| `Analysis.RouteAsUpdate` | Cinegy.TsAnalysis/Analyzer.cs:148-164 | routing a packet is: append the entry of a metric that has seen nothing for an unseen PID, then step its PID's entry with the packet |
| `Analysis.RouteOne` | Cinegy.TsAnalysis/Analyzer.cs:148-164 | one packet steps its PID's entry (counters by `Booked`, PCR state by `PacketPcrStep`, period kept) or a new last entry, and every other entry is unchanged |
| `Analysis.RoutedPids` | Cinegy.TsAnalysis/Analyzer.cs:107-164 | after a batch the metrics' PIDs are the registry of the old PIDs and the batch, without repeats |
| `Analysis.RoutingFeedsOldEntries` | Cinegy.TsAnalysis/Analyzer.cs:107-164 | after a batch every existing metric has stepped through exactly its PID's packets of the batch, in batch order, with their clock readings |
| `Analysis.RoutingFillsNewEntries` | Cinegy.TsAnalysis/Analyzer.cs:156-164 | every metric created during a batch started from nothing and stepped through exactly its PID's packets of the batch |
| `Analysis.FeedOfUnseen` | Cinegy.TsAnalysis/Analyzer.cs:148-164 | a metric whose PID has no packet in the batch is left exactly as it was |
| `Analysis.FeedEffect` | Cinegy.TsAnalysis/Metrics/PidMetric.cs:100-131 | feeding a metric its PID's packets keeps its PID and published period, grows both histories by exactly those packets, keeps the counters balanced against the histories, and never lowers the PCR extremes or excursion count |
| `Analysis.RoutingOutcome` | Cinegy.TsAnalysis/Analyzer.cs:107-164 | after a batch, an old metric keeps its published period and its total and open-period histories grow by its PID's packets of the batch; a new metric holds exactly those packets in both histories and has published nothing; every ledger stays balanced |
| `Analysis.PcrUnchangedWithoutCarrier` | Cinegy.TsAnalysis/Analyzer.cs:109-123 | without a PCR-bearing packet of the selected PID (any PID when none is selected) `LastPcr` is unchanged |
| `Analysis.LastPcrWins` | Cinegy.TsAnalysis/Analyzer.cs:109-123 | `LastPcr` is the PCR of the last packet in the batch that sets it |
| `Analysis.PcrOfBatches` | Cinegy.TsAnalysis/Analyzer.cs:109-123 | two batches leave the same `LastPcr` as their concatenation |
| `Analysis.PtsUnchangedWithoutCarrier` | Cinegy.TsAnalysis/Analyzer.cs:125-135 | a remembered PTS changes only for a packet of its PID (4096 video, 2049 subtitles) with a positive PTS |
| `Analysis.LastPtsWins` | Cinegy.TsAnalysis/Analyzer.cs:125-135 | a remembered PTS is that of the last packet of its PID with a positive PTS |
| `Analysis.RollUpCountsAndSums` | Cinegy.TsAnalysis/Analyzer.cs:206-212 | the PID count is the number of metrics; packets, CC errors and TEI errors are sums over the metrics' last periods |
| `Analysis.RollUpLongestDelta` | Cinegy.TsAnalysis/Analyzer.cs:213-216 | the longest PCR delta is at least every metric's and at least 0, and is 0 or one of them |
| `Analysis.RollUpLargestDrift` | Cinegy.TsAnalysis/Analyzer.cs:218-221 | the largest drift is at least every metric's and at least 0, and is 0 or one of them |
| `Analysis.RollUpLowestDrift` | Cinegy.TsAnalysis/Analyzer.cs:223-226 | the "lowest" drift is also a maximum: at least every metric's and at least 0, and 0 or one of them |
| `Analysis.NegativeLowestDriftsRollUpToZero` | Cinegy.TsAnalysis/Analyzer.cs:223-226 | when no metric's lowest drift is positive the roll-up reports 0 |
| `Analysis.IndexOfPid` | Cinegy.TsAnalysis/Analyzer.cs:148-154 | the loop over the metrics returns the first position with the PID, or -1 when none has it |
| `Analysis.ValidEntries` | Cinegy.TsAnalysis/Analyzer.cs:148-164 | a consistent analyzer has one metric per PID, and its entries are its metrics' PIDs, ledgers, PCR states and periods, each ledger balanced |
| `Analysis.Analyzer.constructor` | Cinegy.TsAnalysis/Analyzer.cs:44-83 | no metrics yet, RTP headers expected, 5000 ms sampling period, no PCR or PTS remembered, no PCR PID selected |
| `Analysis.Analyzer.AnalyzePackets` | Cinegy.TsAnalysis/Analyzer.cs:103-181 | the metrics' states become `RouteAll` of the batch and its clock readings (old metrics kept, new ones fresh and appended, each with a fresh base carrying the analyzer's sampling period and one rollover stamped at the batch's time), so `RoutingOutcome` applies; `LastPcr`, `LastVidPts` and `LastSubPts` become `PcrAfter` and `PtsAfter` of the batch; every metric stays consistent |
| `Analysis.Analyzer.AnalyzeNext` | Cinegy.TsAnalysis/Analyzer.cs:107-164 | the loop body at position `i` extends each fold (`RouteAll`, `PcrAfter`, `PtsAfter`) from the first `i` packets to the first `i + 1`; a metric it creates is fresh, with a fresh base carrying the analyzer's sampling period and one rollover at `now` |
| `Analysis.Analyzer.AnalyzePacket` | Cinegy.TsAnalysis/Analyzer.cs:107-164 | one packet: the PCR and PTS steps, then `Route` of the packet and its clock reading; a metric it creates is fresh, with a fresh base carrying the analyzer's sampling period and one rollover at `now` |
| `Analysis.Analyzer.TrackClocks` | Cinegy.TsAnalysis/Analyzer.cs:109-135 | the nested tests set `LastPcr`, `LastVidPts` and `LastSubPts` as `LastPcrStep` and `LastPtsStep` say |
| `Analysis.Analyzer.Dispatch` | Cinegy.TsAnalysis/Analyzer.cs:148-164 | the packet reaches its PID's metric, created and appended when missing (with a fresh base carrying the analyzer's sampling period and one rollover stamped at `now`): the entries become `Route` of the packet and its clock reading |
| `Analysis.Analyzer.Deliver` | Cinegy.TsAnalysis/Analyzer.cs:164 | handing the packet to the metric of its PID steps that metric's entry alone: counters by `Booked`, PCR state by `PacketPcrStep`, published period kept; the metric's base is untouched |
| `Analysis.Analyzer.MetricFor` | Cinegy.TsAnalysis/Analyzer.cs:148-162 | returns the registered metric of the PID, at the position `Find` gives, or a fresh metric appended at the end whose entry has empty histories, zero counters, zero PCR state and an empty period, and whose fresh base has the analyzer's sampling period, one counted period and its last period end at `now` |
| `Analysis.Analyzer.UpdateSeriesData` | Cinegy.TsAnalysis/Analyzer.cs:189-251 | the record carries the network metric, the RTP metric only when RTP headers are expected, and `RollUp` of the metrics' last periods in list order |

## Left out

- Timers, locks and threads: a rollover is an ordinary call given the current time. The timer re-armed by the `SamplingPeriod` setter, the timer's immediate first firing, the analyzer's worker thread, ring buffer, `Setup` and `Cancel` are not modelled.
- Logging and event delivery: NLog records, `Debug.WriteLine` and event handlers are not modelled. Each raised event is a ghost counter.
- `MetricBase.Metric.FinishPeriod`: `LastPeriodEndTime` is the `now` argument, not the formatted wall clock.
- TsDecoder, TeletextDecoder and TsPacketFactory are not part of this model. `AnalyzePackets` does not forward packets to the decoders (Analyzer.cs lines 168-179). A `TsPacket` is a datatype holding only the fields the metrics read.
- The analyzer's network and RTP metrics are constructor arguments. `SetupMetricsAndDecoders` is not modelled beyond the `NetworkMetric` constructor.
- `PidMetrics.PidMetric.CheckPcr`: the drift values come from `Stopwatch` readings and the wall clock, so each packet comes with a `PcrClock` input. It gives the drift, whether the ten-second warm-up is over, and the converted stopwatch reading. The drift arithmetic itself (PidMetric.cs lines 150-154 and 166) is not modelled. `AnalyzePackets` takes one such input per packet, and one time for any metric it creates. Analyzer.cs line 164 calls `AddPacket` without a timestamp, so the clock side of the drift (PidMetric.cs line 152) is computed from the default of -1 (PidMetric.cs line 104); the drift input is left unconstrained, which covers that value as well as any other.
- Floating point: `float` and `double` quantities are exact `real`s. `PidMetrics.DeltaMilliseconds` uses exact integer arithmetic, so it does not model the rounding of the `double` division by 2.7. It also does not model the overflow of the final cast to `int`.
- Integer widths: packet, byte, error and loss counters are unbounded. The wrap-around of `int` and `long` counters after 2^31 or 2^63 increments is not modelled. The `ulong` PCR difference does wrap (`Numerics.SubU64`).
- `NetworkMetrics.NetworkMetric.AddPacket`: the per-second packet rate and the bitrate sampling (NetworkMetric.cs lines 250, 264-273, 281-299) are not modelled. Neither are the wall-clock `AverageBitrate` property and `MulticastAddress`/`MulticastGroup`. They read `DateTime.UtcNow`. The socket's fill level is an `Option<Socket>` input, and the stopwatch readings are inputs.
- `PidMetrics.PidMetric`: `Pid` is fixed at creation (a `const`), as the analyzer sets it once right after construction.
- The analyzer's lookup of a PID's metric is a linear search in both the code and the model. Its cost is not stated.
