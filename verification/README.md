# Auction simulator — a Dafny model of its sequential core

The auction simulator runs many sealed-bid auctions at once. Each auction asks
every simulated bidder for a bid before a deadline. A global semaphore bounds
how many bid evaluations run at the same time. When bidding closes, the
auction's winner is the first bid that reaches the highest amount. Behind the
goroutines and channels sits a small amount of sequential logic, and this
project models that logic and proves properties of it:

- **Winner resolution and the bid ledger** (`Processor`): `determineWinner`, `AddBid`,
  and the two branches of `Run`.
- **Orchestration** (`Orchestrator`): `collectBids` as a fan-in of per-goroutine
  contributions in arrival order, `runSingleAuction`, and `RunAllAuctions`, which
  stores results by index and remembers the first error.
- **The semaphore** (`PermitPool`): a counter with a capacity, and traces of
  acquire/release events.
- **Construction and lookup** (`Auctions`, `BidderManager`): ID schemes, attribute
  IDs, initial flags, `GetBidder`, `GetBidderSimulators`.
- **The bid evaluator** (`Evaluator`): cancellation, abstention, the amount floor, and
  rounding to cents.
- **Configuration, validation and metrics** (`Configuration`, `Simulation`, `Metrics`).
- **Random helpers** (`Random`): the range arithmetic, with each raw draw as a parameter.

Modelling choices:

- Scheduling, time and randomness are inputs. For each bidder goroutine, the model
  takes which way its two `select`s went and what its evaluator observed. For each
  auction, it takes the order in which bids reached the collection channel. For the
  run, it takes the order in which the auctions finished. Both orders are
  permutations.
- Timestamps and durations are integers, with durations in nanoseconds.
- Go `float64` values are exact `real`s. Errors are `ErrorKind` tags, and a nil
  pointer or nil error is `None`.
- Identifiers such as `auction-7` are built by a decimal rendering (`Decimal`). Its
  round trip with a parse is proved, and that makes IDs pairwise distinct.

## Model

| member | source | states |
|---|---|---|
| Processor.ScanFrom | internal/auction/processor.go:66-71 | A later bid replaces the current winner only when its amount is strictly greater. So the scan ends at a bid that is at least every other bid and that no earlier bid reaches. |
| Processor.WinnerIndex | internal/auction/processor.go:61-74 | There is no index exactly when the ledger is empty. Otherwise the index is the first index holding the maximum amount. |
| Processor.FirstMaxUnique | internal/auction/processor.go:66-71 | At most one index can be the first maximum, so the tie rule determines the winner completely. |
| Processor.DetermineWinner | internal/auction/processor.go:61-74 | The result is nil iff the ledger is empty. Otherwise it is a bid of the ledger, and its amount is at least every bid's amount. |
| Processor.DetermineWinnerIsFirstMax | internal/auction/processor.go:66-73 | Index k is the first maximum iff the winner returned is the bid at k and no earlier bid equals it. So ties go to the first arrival. |
| Processor.DetermineWinnerHasFirstMax | internal/auction/processor.go:62-73 | A non-empty ledger's winner is the bid at its first maximum. |
| Processor.SameBidsSameWinningAmount | internal/auction/processor.go:61-74 | The same bids in another order have the same count, a winner in both orders or in neither, and the same winning amount. |
| Processor.FirstArrivalWinsTie | internal/auction/processor.go:68 | For the ledger 10.00, 25.50, 25.50, the first 25.50 wins. |
| Processor.AddBid | internal/auction/processor.go:77-79 | The ledger grows by exactly one bid at its end. The earlier bids and every other field are unchanged. |
| Processor.AddBids | internal/auction/orchestrator.go:157-159 | Appending the received bids one AddBid at a time gives the old ledger followed by those bids, in arrival order. Nothing else about the auction changes. |
| Processor.Run | internal/auction/processor.go:22-58 | Timeout branch: the context's error, zero bids, no winner, and the auction's end time and completion state unchanged. Completion branch: complete, bid count equal to the ledger size, and a winner exactly when the ledger is non-empty, equal to determineWinner of the ledger. Duration is end minus start. In both branches the ID, attributes, timeout and ledger stay as they were. |
| Orchestrator.AttributeValues | internal/auction/orchestrator.go:106-109 | The values have the same length and order as the auction's attributes. |
| Orchestrator.MakeRequest | internal/auction/orchestrator.go:111-116 | The request carries the auction's ID, timeout and attribute values. |
| Orchestrator.Acquired | internal/auction/orchestrator.go:127-130 | A goroutine holds a permit iff its select took the semaphore case and the semaphore had a free slot, that is, iff an acquire on the pool succeeds. |
| Orchestrator.ValidScheduleIsRange | internal/auction/orchestrator.go:121-150 | A valid schedule starts one goroutine per simulator, and its arrival order holds each simulator index exactly once: as a multiset it is 0 to n-1. |
| Orchestrator.Contribution | internal/auction/orchestrator.go:124-149 | A goroutine sends a bid iff it acquired a permit, its evaluator returned a response without error, and its send was not pre-empted. The bid is that response. A goroutine cancelled before the permit sends nothing. |
| Orchestrator.Arrivals | internal/auction/orchestrator.go:121-159 | At most one bid arrives per goroutine. |
| Orchestrator.ArrivalsAreContributions | internal/auction/orchestrator.go:121-159 | Every bid received is the contribution of some goroutine in the arrival order. |
| Orchestrator.ArrivalsAppend | internal/auction/orchestrator.go:157-159 | Bids from two batches of goroutines arrive as the first batch's bids followed by the second's. |
| Orchestrator.ArrivalsWithout | internal/auction/orchestrator.go:157-159 | Removing one goroutine from the arrival order removes exactly its contribution from the received bids. |
| Orchestrator.ArrivalOrderIrrelevant | internal/auction/orchestrator.go:121-159 | Any two arrival orders of the same goroutines yield the same multiset of bids. |
| Orchestrator.PermutationIsRange | internal/auction/orchestrator.go:121-150 | One goroutine is started per simulator, so an arrival order holds each simulator index exactly once. |
| Orchestrator.PermutationsHaveSameElements | internal/auction/orchestrator.go:121-150 | Two arrival orders over the same simulators hold the same indices. |
| Orchestrator.DistinctCount | internal/auction/orchestrator.go:121-150 | In an order without repeats, each goroutine index occurs exactly once. |
| Orchestrator.CollectBids | internal/auction/orchestrator.go:102-160 | The ledger becomes the old ledger plus the arrivals, with at most as many new bids as simulators. Nothing but the ledger changes. |
| Orchestrator.GoroutineTrace | internal/auction/orchestrator.go:127-132 | A goroutine's permit events all name that goroutine. It acquires once if it got a permit and never otherwise, and it releases as often as it acquires. |
| Orchestrator.CollectTrace | internal/auction/orchestrator.go:121-132 | The permit events of collectBids number at most two per goroutine, and each names a goroutine that was started. |
| Orchestrator.CollectTraceBalanced | internal/auction/orchestrator.go:121-132 | When the goroutines run one after another, each taking and returning its permit in turn, every event can happen, the permits in use stay within capacity at every prefix, and the pool ends as it began. This covers the sequential order only, with at most one permit out at a time. The bound under arbitrary interleavings is PermitPool.ReplayConsistent and PermitPool.ReplayPrefix. |
| Orchestrator.CancelledBeforePermit | internal/auction/orchestrator.go:127-132 | A goroutine whose select takes ctx.Done() records no permit event and contributes no bid. |
| Orchestrator.RunSingleAuction | internal/auction/orchestrator.go:69-99 | The result has the auction's ID and no error, and its start and end times and duration come from the clock readings. The final ledger is exactly the old ledger followed by the arrivals, and the auction is complete. The bid count equals the final ledger size. A winner exists exactly when bids exist, equal to determineWinner of the ledger; with no bids the auction's winner is left as it was. Nothing else about the auction changes. |
| Orchestrator.RunAgreesWithRunSingleAuction | internal/auction/processor.go:22-58 | The processor's Run, applied to an auction after collectBids with a live context, reports the same bid count, winner, error, ledger and completion state as runSingleAuction. |
| Orchestrator.ArrivalOrderKeepsOutcome | internal/auction/orchestrator.go:86-95 | Whatever order the bids arrive in, the auction ends with the same bids as a multiset and the same bid count. It has a winner in both orders or in neither, and the winning amount is the same; only which of several equal top bids wins depends on the order. |
| Orchestrator.NoArrivalsWhenCancelled | internal/bidder/simulator.go:26-28 | Evaluators that all see a done context on entry send no bids. |
| Orchestrator.ZeroTimeoutCollectsNothing | internal/auction/orchestrator.go:72-95 | An auction with a timeout of 0 or less completes without new bids. A fresh one reports zero bids and no winner. |
| Orchestrator.FirstErrorIn | internal/auction/orchestrator.go:56-58 | The remembered error is nil iff no result has an error. Otherwise it is the error of the first failed result in completion order. |
| Orchestrator.FirstErrorInExtend | internal/auction/orchestrator.go:56-58 | One more completed auction keeps an error already remembered, and otherwise remembers that auction's error. |
| Orchestrator.FirstErrorInPermutation | internal/auction/orchestrator.go:56-58 | Over a completion order that covers every auction, no error is remembered iff no auction failed. |
| Orchestrator.StoredExtend | internal/auction/orchestrator.go:54-55 | Storing the next finished auction's result at its index keeps every result stored before and adds its own. |
| Orchestrator.FilledSlots | internal/auction/orchestrator.go:55 | Once every auction in the completion order has stored its result at its index, the slots hold exactly the results in auction order. |
| Orchestrator.GatherResults | internal/auction/orchestrator.go:47-65 | Whatever the completion order, each result lands at its own index. The returned error is the first one in completion order, and it is nil iff no result failed. |
| Orchestrator.RunAllAuctions | internal/auction/orchestrator.go:33-66 | There is one result per auction. Result i is auction i's own result and carries its ID. The error is nil iff no result failed, and it is always nil. |
| PermitPool.NewPool | internal/auction/orchestrator.go:28 | A new pool has the configured capacity and no permits in use. |
| PermitPool.TryAcquire | internal/auction/orchestrator.go:127-128 | An acquire succeeds iff a slot is free. It then takes exactly one slot and keeps the pool within capacity. |
| PermitPool.Release | internal/auction/orchestrator.go:129 | A release frees exactly one slot. |
| PermitPool.AcquireThenRelease | internal/auction/orchestrator.go:128-129 | Releasing a permit just acquired restores the pool. |
| PermitPool.StepConsistent | internal/auction/orchestrator.go:127-132 | Each acquire or release keeps the permits in use equal to the number of holders and within capacity. |
| PermitPool.ReplayConsistent | internal/auction/orchestrator.go:127-132 | After any possible trace, the permits in use are at most the capacity. |
| PermitPool.ReplayPrefix | internal/auction/orchestrator.go:127-132 | Every prefix of a possible trace is possible, so the bound holds at every instant. |
| PermitPool.AcquiresPairWithReleases | internal/auction/orchestrator.go:128-129 | For each goroutine, acquires minus releases equals the change in whether it holds a permit. |
| PermitPool.BalancedTrace | internal/auction/orchestrator.go:128-129 | A trace that starts and ends with nothing held has exactly one release per acquire for every goroutine. |
| Evaluator.RoundToCents | internal/bidder/simulator.go:47 | The result is a whole number of cents within half a cent of the input, and an amount of at least 1 stays at least 1. |
| Evaluator.BidAmount | internal/bidder/simulator.go:44-47 | The amount is a whole number of cents and at least 1.0. When base plus variation is below 1, the amount is exactly 1.0. Otherwise it is within half a cent of base plus variation. |
| Evaluator.EvaluateBid | internal/bidder/simulator.go:24-57 | A context done on entry or during the latency wait gives no response and that error. A decision draw above the bid chance abstains, with no response and no error. Otherwise the response carries the bidder's ID, the request's auction ID, the current time, and the amount BidAmount computes from the variation draw. |
| Evaluator.CertainBidderAlwaysBids | internal/bidder/simulator.go:39 | With a bid chance of at least 1 and a draw in [0,1), the evaluator bids once the wait completes. |
| Evaluator.DecisionVersusRandomChance | internal/bidder/simulator.go:39 | The evaluator bids when the draw is at most the bid chance, but utils.RandomChance succeeds only when the draw is below it. The two differ exactly when the draw equals the bid chance. |
| Evaluator.BidAmountWithinRange | internal/bidder/simulator.go:44-47 | When base minus half the range is at least 1, the amount lies within half a range of the base, give or take half a cent. |
| BidderManager.NewManager | internal/bidder/manager.go:18-23 | A new manager has no bidders. |
| BidderManager.GeneratePreferredAttributes | internal/bidder/manager.go:78-85 | For draws in range, there are between 3 and 8 preferred IDs, each in [0, 19]. There are count + 3 of them, and each is the draw taken for its position. |
| BidderManager.PreferencesCoverAllChoices | internal/bidder/manager.go:78-85 | Every list of 3 to 8 IDs in [0, 19] comes from some valid draws. |
| BidderManager.BidderId | internal/bidder/manager.go:42 | The ID is "bidder-" followed by a non-empty run of decimal digits. |
| BidderManager.BidderIdRoundTrip | internal/bidder/manager.go:42 | The digits after "bidder-" read back as the bidder's 1-based position. |
| BidderManager.CreateBidder | internal/bidder/manager.go:40-50 | Bidder i has ID bidder-(i+1). Bid chance, base bid and speed lie in the configured ranges, the bid range lies in [5, 20], and there are 3 to 8 preferences. |
| BidderManager.InitializeBidders | internal/bidder/manager.go:26-37 | Exactly TotalBidders bidders are appended in index order, and existing ones are untouched. New bidder i has ID bidder-(i+1), and the new IDs are pairwise distinct. |
| BidderManager.BidderIdsDistinct | internal/bidder/manager.go:42 | Different indices give different bidder IDs. |
| BidderManager.FirstIndexOf | internal/bidder/manager.go:59-63 | The index found holds the ID and no earlier index does. No index is found iff no bidder has the ID. |
| BidderManager.GetBidder | internal/bidder/manager.go:58-65 | The result is the first bidder with the ID. A not-found error is returned iff no bidder has that ID. |
| BidderManager.GetBidderSimulators | internal/bidder/manager.go:68-75 | There is one simulator per bidder, and simulator i wraps bidder i. |
| Auctions.NewManager | internal/auction/manager.go:32-39 | A new manager keeps the configuration and has no auctions and zeroed counters. |
| Auctions.AuctionId | internal/auction/manager.go:65 | The ID is "auction-" followed by a non-empty run of decimal digits. |
| Auctions.AuctionIdRoundTrip | internal/auction/manager.go:65 | The digits after "auction-" read back as the auction's 1-based position. |
| Auctions.AuctionIdsDistinct | internal/auction/manager.go:65 | Different indices give different auction IDs. |
| Auctions.CreateAuction | internal/auction/manager.go:55-71 | There are exactly AttributesPerAuction attributes, and attribute j has ID j. The ledger is empty, there is no winner, the auction is not complete, and the timeout is the configured one. |
| Auctions.InitializeAuctions | internal/auction/manager.go:42-52 | Exactly TotalAuctions fresh auctions are appended in index order. Auction i has ID auction-(i+1), and the new IDs are pairwise distinct. |
| Auctions.RecordResult | internal/auction/manager.go:84-95 | The total goes up by one, and exactly one of failed and completed goes up, chosen by the error. Bids go up by the result's count, and total = completed + failed is preserved. |
| Configuration.CalculateResourceLimits | internal/config/config.go:53-69 | MaxVCPUs = min(NumCPU, 2). MaxConcurrentBidders = min(MaxVCPUs * 100, 100 * 40). Memory is 1024 MB. With at least one CPU, both limits are at least 1. |
| Configuration.DefaultConfig | internal/config/config.go:40-50 | The configuration has 40 auctions, 100 bidders, 20 attributes, a 2 s timeout and the computed limits. |
| BidderTypes.DefaultBidderConfig | internal/bidder/types.go:25-34 | The default bidder ranges are a bid chance in [0.6, 0.8], a base bid in [50, 150] and a speed in [5, 250] ms. Every range is non-empty, the chances are probabilities, and speeds are not negative. |
| Metrics.NewCollector | internal/metrics/collector.go:19-23 | A new collector has zeroed metrics and maxima. |
| Metrics.Start | internal/metrics/collector.go:26-37 | Start stamps the start time and resets both maxima to 0. Other metrics are unchanged. |
| Metrics.Stop | internal/metrics/collector.go:40-50 | Stop stamps the end time and the duration since the start, and copies the goroutine maximum and the memory maximum (in MB) into the metrics it returns and keeps. The maxima, the start time and every other metric are unchanged. |
| Metrics.RecordAuctionResult | internal/metrics/collector.go:53-69 | Exactly one of successful and failed goes up, chosen by the flag. Bids go up by bidCount, total = successful + failed, and average * total = bids. The maxima, the start time and every other metric are unchanged. |
| Metrics.UpdateResourceStats | internal/metrics/collector.go:85-102 | Neither maximum decreases. Each is at least the sample just read and equals the old value or the sample. The metrics and the start time are unchanged. |
| Metrics.Monitor | internal/metrics/collector.go:71-102 | A series of monitor ticks never lowers either maximum and changes nothing but the two maxima. |
| Metrics.MonitorTracksPeak | internal/metrics/collector.go:85-102 | After any series of ticks, each maximum is at least every sample. It is either the starting value or one of the samples. |
| Metrics.StartMonitorStop | internal/metrics/collector.go:26-102 | Start at t0, any ticks, then Stop at t1 give duration t1 - t0. Each reported peak is at least every sample and is 0 or one of the samples. The auction counters are those held before. |
| Metrics.CaptureReading | internal/metrics/resources.go:52-63 | Exactly one reading is appended, and earlier readings are unchanged. |
| Metrics.CaptureReadingPeak | internal/metrics/resources.go:52-82 | After one more reading, the peak's memory and goroutine count are the larger of the old peak's and the reading's. The timestamp and CPU stay those of the first reading, and the first reading captured is the peak itself. |
| Metrics.PeakFrom | internal/metrics/resources.go:71-79 | Memory and goroutine count are raised separately to the largest value seen. The timestamp and CPU come from the starting peak. |
| Metrics.GetPeakUsage | internal/metrics/resources.go:66-82 | No readings give the zero value. Otherwise the goroutine count and memory are each the maximum over all readings, attained by some reading, and the timestamp and CPU come from the first reading. |
| Simulation.ValidateEnvironment | cmd/simulator/main.go:67-81 | Validation passes iff the runtime is new enough, MaxVCPUs >= 1 and MaxMemoryMB >= 100. Otherwise it reports the first failed check. |
| Simulation.DefaultConfigIsValid | cmd/simulator/main.go:72-78 | The default configuration passes both numeric checks on any machine with at least one CPU. |
| Simulation.CountSuccessful | cmd/simulator/main.go:137-140 | The count is at most the number of results. It equals that number iff every error is nil, and it is 0 iff every result failed. |
| Simulation.SumBids | cmd/simulator/main.go:136-141 | The bid total is the sum of TotalBids over the results. SumBidsAppend and SumBidsNonNegative state its properties, and TallyResults proves the loop computes it. |
| Simulation.SumBidsNonNegative | cmd/simulator/main.go:136-141 | With no negative bid count, the bid total is never negative, and it is 0 iff every count is 0. |
| Simulation.SumBidsAppend | cmd/simulator/main.go:136-141 | The bid total over two runs of results is the sum of their totals. |
| Simulation.TallyResults | cmd/simulator/main.go:135-146 | Successes count the nil-error results, successes + failures = the number of results, and the bid total is the sum of TotalBids. |
| Simulation.FinishSimulation | cmd/simulator/main.go:120-149 | An execution error aborts the run. Otherwise the metrics carry the configured counts, the duration, and the tallies of the results. The start and end times, the memory peak and the goroutine peak stay as Stop left them. |
| Simulation.MakeAuctions | cmd/simulator/main.go:88-101 | A new auction manager initialised with the configuration yields TotalAuctions fresh auctions, auction i numbered i+1. |
| Simulation.MakeSimulators | cmd/simulator/main.go:89-105 | A new bidder manager initialised with the configuration yields one simulator per configured bidder, simulator i for bidder-(i+1). |
| Simulation.SetUp | cmd/simulator/main.go:87-112 | The set-up phase builds TotalAuctions fresh auctions, auction i numbered i+1 with an empty ledger, and one simulator per bidder. Every auction schedule fits them. |
| Simulation.RunAuctions | cmd/simulator/main.go:119-123 | The auction phase gives one result per auction, and result i is runSingleAuction's result for auction i. Each bid count is between the auction's old ledger size and that plus the number of bidders, and there is a winner iff the count is positive. No result has an error, and the run reports no error. |
| Simulation.RunSimulation | cmd/simulator/main.go:83-170 | The run never fails. There is one result per configured auction, with ID auction-(i+1). Each result's bid count lies in [0, TotalBidders], with a winner iff it is positive. The metrics carry the configured TotalAuctions and TotalBidders, every auction counts as successful, and the bid total is the sum over the results. |
| Random.RandomInt | pkg/utils/random.go:19-21 | For min <= max and a draw in [0, max-min], the result lies in [min, max]. |
| Random.RandomIntCoversRange | pkg/utils/random.go:19-21 | Each value in [min, max] comes from exactly one draw. |
| Random.RandomFloat | pkg/utils/random.go:14-16 | For a draw in [0,1), the result lies in [min, max], and below max when min < max. |
| Random.RandomDuration | pkg/utils/random.go:24-27 | As written, the result lies in [0, max), not [min, max]. |
| Random.RandomDurationBelowMin | pkg/utils/random.go:25 | min = 5, max = 10 and draw 0 give a duration of 0, below min. |
| Random.RandomDurationIntended | pkg/utils/random.go:23-27 | The corrected form, min + Int63n(max-min), lies in [min, max). |
| Random.RandomDurationIntendedCoversRange | pkg/utils/random.go:23-27 | The corrected form reaches every duration in [min, max). |
| Random.RandomChance | pkg/utils/random.go:30-32 | The result is true iff the draw is below p. It is never true for p <= 0 and always true for p >= 1. |
| Decimal.NatToString | internal/auction/manager.go:65 | %d writes only digits, one digit exactly for numbers below 10. |
| Decimal.StringToNatOfNatToString | internal/auction/manager.go:65 | Parsing the decimal rendering of n gives n back. |
| Decimal.NatToStringInjective | internal/auction/manager.go:65 | Different numbers render differently. |

## Left out

- Output: JSON files and the console summary (`internal/metrics/reporter.go`), plus
  `printAuctionDetails` and all logging in `cmd/simulator/main.go`.
- Goroutine interleavings, `WaitGroup`s, mutexes and channels. Each auction's
  goroutines are processed one after another, in arrival order, and the auctions in
  completion order.
- Orchestrator.Contribution: a goroutine that finds the pool full is treated as
  abandoned. In the source it may still get a permit released by another goroutine (of
  this auction or another) before its own deadline; the model checks every goroutine
  against the same unchanged pool.
- Orchestrator.ValidSchedule: it ties the context states to the deadline only for
  timeouts of 0 or less. For other timeouts, whether the deadline fires first is a
  free input.
- Wall-clock time (`time.Now`, `time.After`, `context.WithTimeout`): readings are
  integer parameters, and the race between a deadline and a timer is a `CtxState`
  input.
- Floating point: amounts, chances, averages and MB conversions are exact reals, so
  `float64` rounding is not modelled. `generateAttributeValue` (a clock-derived
  value) is replaced by given attribute values.
- Runtime probes (`runtime.NumCPU`, `NumGoroutine`, `ReadMemStats`, `GOMAXPROCS`):
  parameters. The `runtime.Version() < "go1.25"` string comparison is a boolean
  parameter.
- The monitor loops in `collector.go` and `resources.go`, which never stop, and
  `ResourceMonitor.Start`/`Stop`, which start a goroutine and close a channel. Only
  the step each tick performs is modelled.
- Simulation.RunSimulation: no monitor tick runs between `Start` and `Stop`, so the
  goroutine and memory peaks it reports are the zeros `Start` set. In the source they
  are whatever the background monitor sampled while the auctions ran.
- The `math/rand` generator and `InitRandom`, which builds a generator and discards
  it. Every draw is a parameter within the generator's documented range.
- Trivial accessors and constructors (`GetAuctions`, `GetMetrics`, `GetBidders`,
  `NewProcessor`, `NewSimulator`, `NewOrchestrator`, `NewReporter`). The auction
  manager's unused `results` channel and start/end fields are also left out.
- Integer width: Go `int` and `int64` are 64-bit and wrap around on overflow, while
  every integer in the model is unbounded. No contract here covers a wrapped value.
- Random.RandomInt: with min = -2^63 and max = 2^63-1, `max-min+1` wraps to 0 in Go
  and `rand.Intn` panics. The model computes the true range size, so it has no such
  case and no panic.
- Simulation.SumBids: the bid total, like `totalBids` in `Run` and `RunSingleAuction`,
  is an unbounded sum. The Go `int` total would wrap past 2^63-1.
- Metrics.RecordAuctionResult: `TotalBidsReceived` and the auction counters are
  unbounded here, so the identities stated for them hold without the 64-bit wrap-around
  of the source.
- Auctions.RecordResult: the same holds for the auction manager's counters.
- The configuration's counts are naturals, because the managers pass them to
  `make`, which panics on negative sizes.

## Findings

| source | as written | input that shows it | evidently intended | confidence | as-written member | corrected member |
|---|---|---|---|---|---|---|
| pkg/utils/random.go:25 | `rand.Int63n(int64(max-min) + int64(min))`: the argument is `max`, so the result lies in [0, max) | min = 5, max = 10, draw 0 gives 0 < min | `min + rand.Int63n(max-min)`, a duration in [min, max) as the doc comment says | high for the arithmetic; not executed | Random.RandomDuration, Random.RandomDurationBelowMin | Random.RandomDurationIntended |

Nothing else in the model calls `RandomDuration`, and none of the modelled source files call it.
