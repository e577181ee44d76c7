/** Run-wide metrics (internal/metrics/types.go, collector.go, resources.go).
    Runtime probes (`runtime.ReadMemStats`, `runtime.NumGoroutine`) and the
    clock are parameters; the periodic monitor loops are not modelled, only
    the step each tick performs. Float fields are exact reals. */
module Metrics {

  datatype SimulationMetrics = SimulationMetrics(
    totalAuctions: int,
    totalBidders: int,
    startTime: int,
    endTime: int,
    totalDuration: int,
    maxGoroutines: int,
    memoryUsageMB: real,
    successfulAuctions: int,
    failedAuctions: int,
    totalBidsReceived: int,
    averageBidsPerAuction: real)

  /** Go's zero value. */
  function ZeroMetrics(): SimulationMetrics
  {
    SimulationMetrics(0, 0, 0, 0, 0, 0, 0.0, 0, 0, 0, 0.0)
  }

  datatype ResourceUsage = ResourceUsage(timestamp: int, goroutineCount: int, memoryMB: real, cpuPercent: real)

  /** `maxMemory` is a `uint64` byte count. */
  datatype Collector = Collector(metrics: SimulationMetrics, startTime: int, maxMemory: nat, maxGoroutines: int)

  function NewCollector(): (c: Collector)
    ensures c.metrics == ZeroMetrics() && c.maxMemory == 0 && c.maxGoroutines == 0
  {
    Collector(ZeroMetrics(), 0, 0, 0)
  }

  /** `Start`: stamps the start time and resets both running maxima. */
  function Start(c: Collector, now: int): (c': Collector)
    ensures c'.startTime == now && c'.metrics.startTime == now
    ensures c'.maxMemory == 0 && c'.maxGoroutines == 0
    ensures c'.metrics.(startTime := c.metrics.startTime) == c.metrics
  {
    Collector(c.metrics.(startTime := now), now, 0, 0)
  }

  const BytesPerMB: real := 1048576.0

  /** `Stop`: stamps the end time and copies the running maxima into the metrics. */
  function Stop(c: Collector, now: int): (r: (Collector, SimulationMetrics))
    ensures r.1 == r.0.metrics
    ensures r.1.endTime == now && r.1.totalDuration == now - c.metrics.startTime
    ensures r.1.maxGoroutines == c.maxGoroutines
    ensures r.1.memoryUsageMB * BytesPerMB == c.maxMemory as real
    ensures r.0.maxMemory == c.maxMemory && r.0.maxGoroutines == c.maxGoroutines && r.0.startTime == c.startTime
    ensures r.1.(endTime := c.metrics.endTime, totalDuration := c.metrics.totalDuration,
                 memoryUsageMB := c.metrics.memoryUsageMB, maxGoroutines := c.metrics.maxGoroutines) == c.metrics
  {
    var m := c.metrics.(endTime := now, totalDuration := now - c.metrics.startTime,
                        memoryUsageMB := c.maxMemory as real / BytesPerMB,
                        maxGoroutines := c.maxGoroutines);
    (c.(metrics := m), m)
  }

  /** `RecordAuctionResult`: exactly one of the success and failure counters
      moves, the bids are added, and the total is their sum afterwards. */
  function RecordAuctionResult(c: Collector, successful: bool, bidCount: int): (c': Collector)
    ensures successful ==> c'.metrics.successfulAuctions == c.metrics.successfulAuctions + 1
                           && c'.metrics.failedAuctions == c.metrics.failedAuctions
    ensures !successful ==> c'.metrics.failedAuctions == c.metrics.failedAuctions + 1
                            && c'.metrics.successfulAuctions == c.metrics.successfulAuctions
    ensures c'.metrics.totalBidsReceived == c.metrics.totalBidsReceived + bidCount
    ensures c'.metrics.totalAuctions == c'.metrics.successfulAuctions + c'.metrics.failedAuctions
    ensures c'.metrics.totalAuctions > 0 ==>
              c'.metrics.averageBidsPerAuction * c'.metrics.totalAuctions as real == c'.metrics.totalBidsReceived as real
    ensures c'.maxMemory == c.maxMemory && c'.maxGoroutines == c.maxGoroutines && c'.startTime == c.startTime
    ensures c'.metrics.(successfulAuctions := c.metrics.successfulAuctions, failedAuctions := c.metrics.failedAuctions,
                        totalBidsReceived := c.metrics.totalBidsReceived, totalAuctions := c.metrics.totalAuctions,
                        averageBidsPerAuction := c.metrics.averageBidsPerAuction) == c.metrics
  {
    var m := c.metrics;
    var succeeded := if successful then m.successfulAuctions + 1 else m.successfulAuctions;
    var failed := if successful then m.failedAuctions else m.failedAuctions + 1;
    var bids := m.totalBidsReceived + bidCount;
    var total := succeeded + failed;
    var average := if total > 0 then bids as real / total as real else m.averageBidsPerAuction;
    c.(metrics := m.(successfulAuctions := succeeded, failedAuctions := failed,
                     totalBidsReceived := bids, totalAuctions := total,
                     averageBidsPerAuction := average))
  }

  /** One tick of the collector's monitor: each maximum keeps the larger of
      its old value and the sample just read. */
  function UpdateResourceStats(c: Collector, alloc: nat, goroutines: int): (c': Collector)
    ensures c'.maxMemory >= c.maxMemory && c'.maxMemory >= alloc
    ensures c'.maxMemory == c.maxMemory || c'.maxMemory == alloc
    ensures c'.maxGoroutines >= c.maxGoroutines && c'.maxGoroutines >= goroutines
    ensures c'.maxGoroutines == c.maxGoroutines || c'.maxGoroutines == goroutines
    ensures c'.metrics == c.metrics && c'.startTime == c.startTime
  {
    var mem := if alloc > c.maxMemory then alloc else c.maxMemory;
    var gor := if goroutines > c.maxGoroutines then goroutines else c.maxGoroutines;
    c.(maxMemory := mem, maxGoroutines := gor)
  }

  /** A memory and goroutine sample taken by one monitor tick. */
  datatype Sample = Sample(alloc: nat, goroutines: int)

  /** The collector after a series of monitor ticks. */
  function Monitor(c: Collector, samples: seq<Sample>): (c': Collector)
    ensures c'.maxMemory >= c.maxMemory && c'.maxGoroutines >= c.maxGoroutines
    ensures c'.(maxMemory := c.maxMemory, maxGoroutines := c.maxGoroutines) == c
    decreases |samples|
  {
    if |samples| == 0 then c
    else Monitor(UpdateResourceStats(c, samples[0].alloc, samples[0].goroutines), samples[1..])
  }

  /** After `Start` and any series of ticks, each tracked maximum is at least
      every sample, and is either 0 (the reset value) or one of the samples. */
  lemma {:induction false} MonitorTracksPeak(c: Collector, samples: seq<Sample>)
    ensures var c' := Monitor(c, samples);
            && c'.maxMemory >= c.maxMemory
            && c'.maxGoroutines >= c.maxGoroutines
            && (forall k :: 0 <= k < |samples| ==> c'.maxMemory >= samples[k].alloc && c'.maxGoroutines >= samples[k].goroutines)
            && (c'.maxMemory == c.maxMemory || exists k :: 0 <= k < |samples| && c'.maxMemory == samples[k].alloc)
            && (c'.maxGoroutines == c.maxGoroutines || exists k :: 0 <= k < |samples| && c'.maxGoroutines == samples[k].goroutines)
    decreases |samples|
  {
    if |samples| > 0 {
      var c1 := UpdateResourceStats(c, samples[0].alloc, samples[0].goroutines);
      MonitorTracksPeak(c1, samples[1..]);
      var c' := Monitor(c, samples);
      assert c' == Monitor(c1, samples[1..]);
      forall k | 0 <= k < |samples|
        ensures c'.maxMemory >= samples[k].alloc && c'.maxGoroutines >= samples[k].goroutines
      {
        if k > 0 {
          assert samples[k] == samples[1..][k - 1];
        }
      }
      if c'.maxMemory != c.maxMemory && c'.maxMemory != c1.maxMemory {
        var k :| 0 <= k < |samples[1..]| && c'.maxMemory == samples[1..][k].alloc;
        assert samples[1..][k] == samples[k + 1];
      }
      if c'.maxGoroutines != c.maxGoroutines && c'.maxGoroutines != c1.maxGoroutines {
        var k :| 0 <= k < |samples[1..]| && c'.maxGoroutines == samples[1..][k].goroutines;
        assert samples[1..][k] == samples[k + 1];
      }
    }
  }

  /** A run of the collector: `Start` at `t0`, monitor ticks, `Stop` at `t1`.
      The duration is `t1 - t0`; the reported goroutine peak and memory peak
      are at least every sample and are 0 or one of the samples; the auction
      counters are those the collector held before. */
  lemma StartMonitorStop(c: Collector, t0: int, samples: seq<Sample>, t1: int)
    ensures var m := Stop(Monitor(Start(c, t0), samples), t1).1;
            && m.startTime == t0 && m.endTime == t1 && m.totalDuration == t1 - t0
            && (forall k :: 0 <= k < |samples| ==>
                  m.maxGoroutines >= samples[k].goroutines && m.memoryUsageMB * BytesPerMB >= samples[k].alloc as real)
            && (m.maxGoroutines == 0 || exists k :: 0 <= k < |samples| && m.maxGoroutines == samples[k].goroutines)
            && (m.memoryUsageMB == 0.0 || exists k :: 0 <= k < |samples| && m.memoryUsageMB * BytesPerMB == samples[k].alloc as real)
            && m.successfulAuctions == c.metrics.successfulAuctions
            && m.failedAuctions == c.metrics.failedAuctions
            && m.totalBidsReceived == c.metrics.totalBidsReceived
  {
    var started := Start(c, t0);
    MonitorTracksPeak(started, samples);
  }

  /** The detailed resource monitor: its readings, oldest first. */
  datatype ResourceMonitor = ResourceMonitor(startTime: int, readings: seq<ResourceUsage>)

  /** `captureReading`: exactly one reading more, earlier ones untouched. */
  function CaptureReading(rm: ResourceMonitor, reading: ResourceUsage): (rm': ResourceMonitor)
    ensures |rm'.readings| == |rm.readings| + 1
    ensures rm'.readings[..|rm.readings|] == rm.readings && rm'.readings[|rm.readings|] == reading
    ensures rm'.startTime == rm.startTime
  {
    rm.(readings := rm.readings + [reading])
  }

  /** Capturing a reading raises the peak to the componentwise maximum of
      the old peak and the new reading; the first reading's timestamp and
      CPU figure stay. The first reading captured is the peak itself. */
  lemma CaptureReadingPeak(rm: ResourceMonitor, reading: ResourceUsage)
    ensures var before := GetPeakUsage(rm.readings);
            var after := GetPeakUsage(CaptureReading(rm, reading).readings);
            && (|rm.readings| == 0 ==> after == reading)
            && (|rm.readings| > 0 ==>
                  && after.timestamp == before.timestamp && after.cpuPercent == before.cpuPercent
                  && after.memoryMB == (if reading.memoryMB > before.memoryMB then reading.memoryMB else before.memoryMB)
                  && after.goroutineCount == (if reading.goroutineCount > before.goroutineCount then reading.goroutineCount else before.goroutineCount))
  {
    var rs := rm.readings;
    var rs' := CaptureReading(rm, reading).readings;
    var before := GetPeakUsage(rs);
    var after := GetPeakUsage(rs');
    if |rs| == 0 {
      assert rs' == [reading];
      assert PeakFrom(rs', 1, reading) == reading;
    } else {
      assert rs'[0] == rs[0];
      assert forall j :: 0 <= j < |rs| ==> rs'[j] == rs[j];
      assert rs'[|rs|] == reading;
      var jm :| 0 <= jm < |rs| && before.memoryMB == rs[jm].memoryMB;
      var jg :| 0 <= jg < |rs| && before.goroutineCount == rs[jg].goroutineCount;
      assert after.memoryMB >= rs'[jm].memoryMB && after.goroutineCount >= rs'[jg].goroutineCount;
      var km :| 0 <= km < |rs'| && after.memoryMB == rs'[km].memoryMB;
      var kg :| 0 <= kg < |rs'| && after.goroutineCount == rs'[kg].goroutineCount;
      if km < |rs| {
        assert before.memoryMB >= rs[km].memoryMB;
      }
      if kg < |rs| {
        assert before.goroutineCount >= rs[kg].goroutineCount;
      }
    }
  }

  /** The loop of `GetPeakUsage` from index `i`: memory and goroutine count
      are raised independently to the largest seen; other fields stay. */
  function PeakFrom(readings: seq<ResourceUsage>, i: nat, peak: ResourceUsage): (p: ResourceUsage)
    requires i <= |readings|
    ensures p.timestamp == peak.timestamp && p.cpuPercent == peak.cpuPercent
    ensures p.goroutineCount >= peak.goroutineCount && p.memoryMB >= peak.memoryMB
    ensures forall j :: i <= j < |readings| ==>
              p.goroutineCount >= readings[j].goroutineCount && p.memoryMB >= readings[j].memoryMB
    ensures p.goroutineCount == peak.goroutineCount
         || exists j :: i <= j < |readings| && p.goroutineCount == readings[j].goroutineCount
    ensures p.memoryMB == peak.memoryMB
         || exists j :: i <= j < |readings| && p.memoryMB == readings[j].memoryMB
    decreases |readings| - i
  {
    if i == |readings| then peak
    else
      var r := readings[i];
      var mem := if r.memoryMB > peak.memoryMB then r.memoryMB else peak.memoryMB;
      var gor := if r.goroutineCount > peak.goroutineCount then r.goroutineCount else peak.goroutineCount;
      PeakFrom(readings, i + 1, peak.(memoryMB := mem, goroutineCount := gor))
  }

  /** `GetPeakUsage`: the zero reading for no readings; otherwise the
      greatest memory and the greatest goroutine count over all readings
      (possibly from different readings), with the first reading's other fields. */
  function GetPeakUsage(readings: seq<ResourceUsage>): (peak: ResourceUsage)
    ensures |readings| == 0 ==> peak == ResourceUsage(0, 0, 0.0, 0.0)
    ensures |readings| > 0 ==>
              && peak.timestamp == readings[0].timestamp
              && peak.cpuPercent == readings[0].cpuPercent
              && (forall j :: 0 <= j < |readings| ==> peak.goroutineCount >= readings[j].goroutineCount)
              && (exists j :: 0 <= j < |readings| && peak.goroutineCount == readings[j].goroutineCount)
              && (forall j :: 0 <= j < |readings| ==> peak.memoryMB >= readings[j].memoryMB)
              && (exists j :: 0 <= j < |readings| && peak.memoryMB == readings[j].memoryMB)
  {
    if |readings| == 0 then ResourceUsage(0, 0, 0.0, 0.0)
    else PeakFrom(readings, 0, readings[0])
  }
}
