/**
 * The windowed-rollover bookkeeping every metric shares: a sampling period
 * (milliseconds), the number of completed periods, and when the last one
 * closed. The periodic timer that drives the rollover is not modelled; the
 * rollover is an ordinary call that is given the current time.
 */
module MetricBase {
  import opened Options

  /** The formatted UTC time at which a period closed. */
  type Timestamp = string

  const DefaultSamplingPeriod: int := 5000

  class Metric {
    var samplingPeriod: int
    var sampleCount: nat
    var lastPeriodEndTime: Option<Timestamp>

    constructor ()
      ensures samplingPeriod == DefaultSamplingPeriod
      ensures sampleCount == 0 && lastPeriodEndTime == None
    {
      samplingPeriod := DefaultSamplingPeriod;
      sampleCount := 0;
      lastPeriodEndTime := None;
    }

    /** The base rollover step: stamp the end of the period and count it. */
    method FinishPeriod(now: Timestamp)
      modifies this`sampleCount, this`lastPeriodEndTime
      ensures sampleCount == old(sampleCount) + 1
      ensures lastPeriodEndTime == Some(now)
    {
      lastPeriodEndTime := Some(now);
      sampleCount := sampleCount + 1;
    }

    /** Store a new sampling period, then close the current period at once. */
    method SetSamplingPeriod(value: int, now: Timestamp)
      modifies this
      ensures samplingPeriod == value
      ensures sampleCount == old(sampleCount) + 1
      ensures lastPeriodEndTime == Some(now)
    {
      samplingPeriod := value;
      FinishPeriod(now);
    }
  }
}
