/** One bidder's decision for one auction (internal/bidder/simulator.go).
    The context, the latency wait and the two `rand.Float64()` draws are
    inputs: whether the context was already done on entry, whether it fired
    during the latency wait, the decision draw and the variation draw. */
module Evaluator {
  import opened Wrappers
  import opened Types
  import opened BidderTypes
  import Random

  /** A bidder wrapped for evaluation. */
  datatype Simulator = Simulator(bidder: Bidder)

  /** Everything `EvaluateBid` reads besides the bidder and the request. */
  datatype EvalInputs = EvalInputs(
    ctxAtStart: CtxState,     // ctx.Err() on entry
    ctxDuringWait: CtxState,  // whether ctx.Done() wins the race against the latency timer
    decisionDraw: real,       // first rand.Float64()
    variationDraw: real,      // second rand.Float64()
    now: int)                 // time.Now() when the response is built

  predicate ValidInputs(inputs: EvalInputs)
  {
    Random.UnitDraw(inputs.decisionDraw) && Random.UnitDraw(inputs.variationDraw)
  }

  /** Go's `(*BidResponse, error)` pair. */
  datatype EvalOutcome = EvalOutcome(response: Option<BidResponse>, err: Option<ErrorKind>)

  function Max(a: real, b: real): real
  {
    if a >= b then a else b
  }

  /** `math.Round(x*100)/100` for non-negative `x`: the nearest multiple of
      0.01, halves rounded up. */
  function RoundToCents(x: real): (r: real)
    requires x >= 0.0
    ensures (r * 100.0).Floor as real == r * 100.0
    ensures x - 0.005 < r <= x + 0.005
    ensures x >= 1.0 ==> r >= 1.0
  {
    var k := (x * 100.0 + 0.5).Floor;
    assert x >= 1.0 ==> k >= 100;
    k as real / 100.0
  }

  /** `(rand.Float64() - 0.5) * BidRange` with the draw given. */
  function Variation(bidRange: real, u: real): real
  {
    (u - 0.5) * bidRange
  }

  /** `max(1.0, BaseBid + variation)` rounded to cents. */
  function BidAmount(b: Bidder, u: real): (amount: real)
    ensures amount >= 1.0
    ensures (amount * 100.0).Floor as real == amount * 100.0
    ensures b.baseBid + Variation(b.bidRange, u) < 1.0 ==> amount == 1.0
    ensures b.baseBid + Variation(b.bidRange, u) >= 1.0 ==>
              b.baseBid + Variation(b.bidRange, u) - 0.005 < amount <= b.baseBid + Variation(b.bidRange, u) + 0.005
  {
    RoundToCents(Max(1.0, b.baseBid + Variation(b.bidRange, u)))
  }

  /** The bid decision. Cancellation on entry or during the latency wait
      returns the context's error and no response; a decision draw above the
      bid chance abstains (no response, no error); otherwise the bidder bids
      for the auction it was asked about, under its own identity. */
  function EvaluateBid(s: Simulator, request: BidRequest, inputs: EvalInputs): (o: EvalOutcome)
    ensures inputs.ctxAtStart.Done? ==> o == EvalOutcome(None, Some(inputs.ctxAtStart.err))
    ensures inputs.ctxAtStart.Live? && inputs.ctxDuringWait.Done? ==>
              o == EvalOutcome(None, Some(inputs.ctxDuringWait.err))
    ensures o.err.Some? <==> inputs.ctxAtStart.Done? || inputs.ctxDuringWait.Done?
    ensures o.response.Some? <==>
              inputs.ctxAtStart.Live? && inputs.ctxDuringWait.Live? && inputs.decisionDraw <= s.bidder.bidChance
    ensures o.response.Some? ==>
              && o.err.None?
              && o.response.value.bidderId == s.bidder.id
              && o.response.value.auctionId == request.auctionId
              && o.response.value.amount == BidAmount(s.bidder, inputs.variationDraw)
              && o.response.value.timestamp == inputs.now
  {
    if inputs.ctxAtStart.Done? then
      EvalOutcome(None, Some(inputs.ctxAtStart.err))
    else if inputs.ctxDuringWait.Done? then
      EvalOutcome(None, Some(inputs.ctxDuringWait.err))
    else if inputs.decisionDraw > s.bidder.bidChance then
      EvalOutcome(None, None)
    else
      var amount := BidAmount(s.bidder, inputs.variationDraw);
      EvalOutcome(Some(BidResponse(s.bidder.id, request.auctionId, amount, inputs.now)), None)
  }

  /** A bidder whose bid chance is at least 1 always bids once the latency
      wait has completed, since the decision draw is below 1. */
  lemma CertainBidderAlwaysBids(s: Simulator, request: BidRequest, inputs: EvalInputs)
    requires s.bidder.bidChance >= 1.0
    requires ValidInputs(inputs)
    requires inputs.ctxAtStart.Live? && inputs.ctxDuringWait.Live?
    ensures EvaluateBid(s, request, inputs).response.Some?
    ensures EvaluateBid(s, request, inputs).err.None?
  {
  }

  /** The evaluator bids when the decision draw is at most the bid chance,
      while `utils.RandomChance` succeeds when the draw is strictly below the
      probability: the two disagree exactly when the draw equals the chance. */
  lemma DecisionVersusRandomChance(s: Simulator, request: BidRequest, inputs: EvalInputs)
    requires ValidInputs(inputs)
    requires inputs.ctxAtStart.Live? && inputs.ctxDuringWait.Live?
    ensures EvaluateBid(s, request, inputs).response.Some? != Random.RandomChance(s.bidder.bidChance, inputs.decisionDraw)
            <==> inputs.decisionDraw == s.bidder.bidChance
  {
  }

  /** When the base bid is at least half the range above 1, the floor never
      applies and the amount stays within half a range (plus rounding) of the
      base bid. */
  lemma BidAmountWithinRange(b: Bidder, u: real)
    requires Random.UnitDraw(u)
    requires b.bidRange >= 0.0
    requires b.baseBid - b.bidRange / 2.0 >= 1.0
    ensures b.baseBid - b.bidRange / 2.0 - 0.005 < BidAmount(b, u) <= b.baseBid + b.bidRange / 2.0 + 0.005
  {
    var v := Variation(b.bidRange, u);
    assert v == u * b.bidRange - 0.5 * b.bidRange;
    assert 0.0 <= u * b.bidRange <= b.bidRange by {
      assert b.bidRange - u * b.bidRange == (1.0 - u) * b.bidRange;
    }
  }
}
