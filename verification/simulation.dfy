/** The entry point's checks and bookkeeping (cmd/simulator/main.go).
    The runtime version comparison is a boolean parameter; printing,
    logging and result files are not modelled. */
module Simulation {
  import opened Wrappers
  import opened Types
  import Configuration
  import Metrics
  import Auctions
  import BidderTypes
  import BidderManager
  import Orchestrator
  import Evaluator
  import PermitPool

  datatype ValidationError =
    | UnsupportedRuntime
    | InvalidCpuLimit(vcpus: int)
    | InsufficientMemory(memoryMB: int)

  /** `validateEnvironment`: the runtime check first, then at least one CPU,
      then at least 100 MB of memory; `None` when every check passes. */
  function ValidateEnvironment(cfg: Configuration.Config, runtimeTooOld: bool): (e: Option<ValidationError>)
    ensures e.None? <==> !runtimeTooOld && cfg.resourceLimits.maxVCPUs >= 1 && cfg.resourceLimits.maxMemoryMB >= 100
    ensures runtimeTooOld ==> e == Some(UnsupportedRuntime)
    ensures !runtimeTooOld && cfg.resourceLimits.maxVCPUs < 1 ==> e == Some(InvalidCpuLimit(cfg.resourceLimits.maxVCPUs))
    ensures !runtimeTooOld && cfg.resourceLimits.maxVCPUs >= 1 && cfg.resourceLimits.maxMemoryMB < 100 ==>
              e == Some(InsufficientMemory(cfg.resourceLimits.maxMemoryMB))
  {
    if runtimeTooOld then Some(UnsupportedRuntime)
    else if cfg.resourceLimits.maxVCPUs < 1 then Some(InvalidCpuLimit(cfg.resourceLimits.maxVCPUs))
    else if cfg.resourceLimits.maxMemoryMB < 100 then Some(InsufficientMemory(cfg.resourceLimits.maxMemoryMB))
    else None
  }

  /** The built-in configuration passes both numeric checks on any machine
      reporting at least one CPU. */
  lemma DefaultConfigIsValid(numCPU: int)
    requires numCPU >= 1
    ensures ValidateEnvironment(Configuration.DefaultConfig(numCPU), false).None?
  {
  }

  /** The number of results whose error is nil. */
  function CountSuccessful(results: seq<AuctionResult>): (n: nat)
    ensures n <= |results|
    ensures n == |results| <==> forall i :: 0 <= i < |results| ==> results[i].error.None?
    ensures n == 0 <==> forall i :: 0 <= i < |results| ==> results[i].error.Some?
    decreases |results|
  {
    if |results| == 0 then 0
    else CountSuccessful(results[..|results| - 1]) + (if results[|results| - 1].error.None? then 1 else 0)
  }

  /** The sum of the results' bid counts. */
  function SumBids(results: seq<AuctionResult>): int
    decreases |results|
  {
    if |results| == 0 then 0 else SumBids(results[..|results| - 1]) + results[|results| - 1].totalBids
  }

  /** With no negative bid count the total is never negative, and it is zero
      exactly when every count is. */
  lemma {:induction false} SumBidsNonNegative(results: seq<AuctionResult>)
    requires forall i :: 0 <= i < |results| ==> results[i].totalBids >= 0
    ensures SumBids(results) >= 0
    ensures SumBids(results) == 0 <==> forall i :: 0 <= i < |results| ==> results[i].totalBids == 0
    decreases |results|
  {
    if |results| > 0 {
      var front := results[..|results| - 1];
      SumBidsNonNegative(front);
      if SumBids(results) == 0 {
        forall i | 0 <= i < |results|
          ensures results[i].totalBids == 0
        {
          if i < |front| {
            assert results[i] == front[i];
          }
        }
      }
    }
  }

  /** The bid total does not depend on how the results are split: the total
      of two runs of results is the sum of their totals. */
  lemma {:induction false} SumBidsAppend(front: seq<AuctionResult>, back: seq<AuctionResult>)
    ensures SumBids(front + back) == SumBids(front) + SumBids(back)
    decreases |back|
  {
    if |back| > 0 {
      var last := |back| - 1;
      assert (front + back)[..|front + back| - 1] == front + back[..last];
      SumBidsAppend(front, back[..last]);
    } else {
      assert front + back == front;
    }
  }

  /** The statistics loop of `runSimulation`: successes are the results with
      a nil error, failures the rest, and the bid total the sum over all results. */
  method TallyResults(results: seq<AuctionResult>) returns (successful: int, failed: int, totalBids: int)
    ensures successful == CountSuccessful(results)
    ensures successful + failed == |results| && 0 <= failed
    ensures totalBids == SumBids(results)
  {
    successful := 0;
    totalBids := 0;
    var i := 0;
    while i < |results|
      invariant 0 <= i <= |results|
      invariant successful == CountSuccessful(results[..i])
      invariant totalBids == SumBids(results[..i])
    {
      assert results[..i + 1][..i] == results[..i];
      if results[i].error.None? {
        successful := successful + 1;
      }
      totalBids := totalBids + results[i].totalBids;
      i := i + 1;
    }
    assert results[..|results|] == results;
    failed := |results| - successful;
  }

  /** What `runSimulation` does once the auctions have run: an execution
      error aborts the run; otherwise the stopped metrics get the run's
      duration, the configured counts, and the tallies of the results. */
  function FinishSimulation(stopped: Metrics.SimulationMetrics, cfg: Configuration.Config,
                            results: seq<AuctionResult>, runError: Option<ErrorKind>,
                            totalDuration: int): (r: Result<Metrics.SimulationMetrics, ErrorKind>)
    ensures runError.Some? ==> r == Failure(runError.value)
    ensures runError.None? ==> r.Success?
    ensures r.Success? ==>
              && r.value.totalDuration == totalDuration
              && r.value.totalAuctions == cfg.totalAuctions
              && r.value.totalBidders == cfg.totalBidders
              && r.value.successfulAuctions == CountSuccessful(results)
              && r.value.successfulAuctions + r.value.failedAuctions == |results|
              && r.value.totalBidsReceived == SumBids(results)
              && (|results| > 0 ==> r.value.averageBidsPerAuction * |results| as real == SumBids(results) as real)
              && r.value.maxGoroutines == stopped.maxGoroutines
              && r.value.memoryUsageMB == stopped.memoryUsageMB
              && r.value.startTime == stopped.startTime
              && r.value.endTime == stopped.endTime
  {
    if runError.Some? then Failure(runError.value)
    else
      var successful := CountSuccessful(results);
      var bids := SumBids(results);
      var average := if |results| > 0 then bids as real / |results| as real else stopped.averageBidsPerAuction;
      Success(stopped.(totalDuration := totalDuration, totalAuctions := cfg.totalAuctions,
                       totalBidders := cfg.totalBidders, successfulAuctions := successful,
                       failedAuctions := |results| - successful, totalBidsReceived := bids,
                       averageBidsPerAuction := average))
  }

  /** What `runSimulation` reads from outside: clock readings, the
      generator's draws, and the scheduling of every goroutine. The resource
      monitor's samples are not among them: no monitor tick runs between
      `Start` and `Stop`, so the reported maxima are the reset zeros. */
  datatype RunInputs = RunInputs(
    startTime: int,
    stopTime: int,
    totalDuration: int,
    attributeValues: seq<seq<real>>,
    bidderDraws: seq<BidderManager.BidderDraws>,
    auctionSchedules: seq<Orchestrator.AuctionSchedule>,
    completion: seq<nat>)

  /** Inputs a run of `cfg` can actually produce. */
  predicate ValidInputs(cfg: Configuration.Config, inputs: RunInputs)
  {
    && cfg.resourceLimits.maxConcurrentBidders >= 0
    && |inputs.attributeValues| == cfg.totalAuctions
    && (forall i :: 0 <= i < |inputs.attributeValues| ==> |inputs.attributeValues[i]| == cfg.attributesPerAuction)
    && |inputs.bidderDraws| == cfg.totalBidders
    && (forall i :: 0 <= i < |inputs.bidderDraws| ==> BidderManager.ValidDraws(BidderTypes.DefaultBidderConfig(), inputs.bidderDraws[i]))
    && |inputs.auctionSchedules| == cfg.totalAuctions
    && (forall i :: 0 <= i < |inputs.auctionSchedules| ==>
          && |inputs.auctionSchedules[i].sims| == cfg.totalBidders
          && Orchestrator.IsPermutation(inputs.auctionSchedules[i].arrival, cfg.totalBidders)
          && (cfg.auctionTimeout <= 0 ==> forall k :: 0 <= k < cfg.totalBidders ==>
                inputs.auctionSchedules[i].sims[k].eval.ctxAtStart == Done(DeadlineExceeded)))
    && Orchestrator.IsPermutation(inputs.completion, cfg.totalAuctions)
  }

  /** `runSimulation` end to end: it never fails, the metrics carry the
      configured counts, every configured auction is reported as successful,
      and the bid total is the sum over the results; each auction starts with
      an empty ledger, so it received at most one bid per bidder and has a
      winner exactly when it received a bid. */
  method RunSimulation(cfg: Configuration.Config, inputs: RunInputs)
      returns (r: Result<Metrics.SimulationMetrics, ErrorKind>, results: seq<AuctionResult>)
    requires ValidInputs(cfg, inputs)
    ensures |results| == cfg.totalAuctions
    ensures forall i :: 0 <= i < |results| ==> results[i].auctionId == Auctions.AuctionId(i)
    ensures r.Success?
    ensures r.value.successfulAuctions == cfg.totalAuctions && r.value.failedAuctions == 0
    ensures r.value.totalBidsReceived == SumBids(results)
    ensures r.value.totalAuctions == cfg.totalAuctions && r.value.totalBidders == cfg.totalBidders
    ensures forall i :: 0 <= i < |results| ==>
              && 0 <= results[i].totalBids <= cfg.totalBidders
              && (results[i].winner.Some? <==> results[i].totalBids > 0)
  {
    var collector := Metrics.Start(Metrics.NewCollector(), inputs.startTime);
    var auctions, sims := SetUp(cfg, inputs);
    var runError;
    results, runError := RunAuctions(auctions, sims, PermitPool.NewPool(cfg.resourceLimits.maxConcurrentBidders),
                                     inputs.auctionSchedules, inputs.completion);
    assert CountSuccessful(results) == |results|;
    var (_, stopped) := Metrics.Stop(collector, inputs.stopTime);
    r := FinishSimulation(stopped, cfg, results, runError, inputs.totalDuration);
  }

  /** `InitializeAuctions` on a new manager: auction `i` is fresh, numbered `i + 1`. */
  method MakeAuctions(cfg: Configuration.Config, values: seq<seq<real>>) returns (auctions: seq<Auctions.Auction>)
    requires |values| == cfg.totalAuctions
    requires forall i :: 0 <= i < |values| ==> |values[i]| == cfg.attributesPerAuction
    ensures |auctions| == cfg.totalAuctions
    ensures forall i :: 0 <= i < |auctions| ==> Auctions.Fresh(auctions[i], i, cfg, values[i])
  {
    var empty := Auctions.NewManager(cfg);
    var m := Auctions.InitializeAuctions(empty, values);
    auctions := m.auctions;
    assert |empty.auctions| == 0 && empty.config == cfg;
    forall i | 0 <= i < |auctions|
      ensures Auctions.Fresh(auctions[i], i, cfg, values[i])
    {
      assert Auctions.Fresh(m.auctions[i], i - |empty.auctions|, empty.config, values[i - |empty.auctions|]);
    }
  }

  /** `InitializeBidders` on a new manager, then `GetBidderSimulators`: one
      simulator per configured bidder. */
  method MakeSimulators(cfg: Configuration.Config, draws: seq<BidderManager.BidderDraws>) returns (sims: seq<Evaluator.Simulator>)
    requires |draws| == cfg.totalBidders
    requires forall i :: 0 <= i < |draws| ==> BidderManager.ValidDraws(BidderTypes.DefaultBidderConfig(), draws[i])
    ensures |sims| == cfg.totalBidders
    ensures forall i :: 0 <= i < |sims| ==> sims[i].bidder.id == BidderManager.BidderId(i)
  {
    var empty := BidderManager.NewManager(cfg);
    var m := BidderManager.InitializeBidders(empty, draws);
    sims := BidderManager.GetBidderSimulators(m);
    assert |empty.bidders| == 0;
  }

  /** The set-up phase of `runSimulation`: fresh auctions, numbered from 1,
      and one simulator per configured bidder, with the schedules fitting them. */
  method SetUp(cfg: Configuration.Config, inputs: RunInputs)
      returns (auctions: seq<Auctions.Auction>, sims: seq<Evaluator.Simulator>)
    requires ValidInputs(cfg, inputs)
    ensures |auctions| == cfg.totalAuctions && |sims| == cfg.totalBidders
    ensures forall i :: 0 <= i < |auctions| ==> auctions[i].id == Auctions.AuctionId(i)
    ensures forall i :: 0 <= i < |auctions| ==> Auctions.Fresh(auctions[i], i, cfg, inputs.attributeValues[i])
    ensures forall i :: 0 <= i < |auctions| ==> Orchestrator.ValidSchedule(auctions[i], inputs.auctionSchedules[i], |sims|)
  {
    auctions := MakeAuctions(cfg, inputs.attributeValues);
    sims := MakeSimulators(cfg, inputs.bidderDraws);
    SchedulesFitAuctions(cfg, inputs, auctions, |sims|);
  }

  /** The auction phase of `runSimulation`: result `i` is auction `i`'s own
      `runSingleAuction` result, none of them failed, and there is no error. */
  method RunAuctions(auctions: seq<Auctions.Auction>, sims: seq<Evaluator.Simulator>, pool: PermitPool.Pool,
                     scheds: seq<Orchestrator.AuctionSchedule>, completion: seq<nat>)
      returns (results: seq<AuctionResult>, runError: Option<ErrorKind>)
    requires |scheds| == |auctions|
    requires forall i :: 0 <= i < |auctions| ==> Orchestrator.ValidSchedule(auctions[i], scheds[i], |sims|)
    requires Orchestrator.IsPermutation(completion, |auctions|)
    ensures |results| == |auctions|
    ensures forall i :: 0 <= i < |auctions| ==> results[i].auctionId == auctions[i].id
    ensures forall i :: 0 <= i < |auctions| ==>
              results[i] == Orchestrator.RunSingleAuction(auctions[i], sims, pool, scheds[i]).1
    ensures forall i :: 0 <= i < |auctions| ==>
              && |auctions[i].bids| <= results[i].totalBids <= |auctions[i].bids| + |sims|
              && (results[i].winner.Some? <==> results[i].totalBids > 0)
    ensures forall i :: 0 <= i < |results| ==> results[i].error.None?
    ensures runError.None?
  {
    var updated;
    results, runError, updated := Orchestrator.RunAllAuctions(auctions, sims, pool, scheds, completion);
  }

  /** The schedules of valid inputs fit the auctions `InitializeAuctions` creates. */
  lemma SchedulesFitAuctions(cfg: Configuration.Config, inputs: RunInputs, auctions: seq<Auctions.Auction>, n: nat)
    requires ValidInputs(cfg, inputs)
    requires n == cfg.totalBidders
    requires |auctions| == cfg.totalAuctions
    requires forall i :: 0 <= i < |auctions| ==> Auctions.Fresh(auctions[i], i, cfg, inputs.attributeValues[i])
    ensures forall i :: 0 <= i < |auctions| ==> Orchestrator.ValidSchedule(auctions[i], inputs.auctionSchedules[i], n)
  {
    forall i | 0 <= i < |auctions|
      ensures Orchestrator.ValidSchedule(auctions[i], inputs.auctionSchedules[i], n)
    {
      assert auctions[i].timeout == cfg.auctionTimeout;
    }
  }
}
