/** The records shared between the auction and bidder packages
    (internal/types/types.go). Timestamps and durations are integers
    (nanoseconds); bid amounts are exact reals. */
module Types {
  import opened Wrappers

  /** The errors the core can produce. `ctx.Err()` yields one of the first two. */
  datatype ErrorKind =
    | DeadlineExceeded
    | Canceled
    | BidderNotFound(id: string)

  /** What a `context.Context` reports at a given instant. */
  datatype CtxState = Live | Done(err: ErrorKind)

  /** A descriptive fact about an auction, fixed when the auction is created. */
  datatype Attribute = Attribute(id: int, value: real)

  /** What a bidder is shown of an auction. */
  datatype BidRequest = BidRequest(auctionId: string, attributes: seq<real>, timeout: int, timestamp: int)

  /** What a bidder sends back when it decides to bid. */
  datatype BidResponse = BidResponse(bidderId: string, auctionId: string, amount: real, timestamp: int)

  /** One entry of an auction's ledger. */
  datatype Bid = Bid(bidderId: string, amount: real, timestamp: int)

  /** The outcome of one auction; `winner == None` is Go's nil winner and
      `error == None` its nil error. */
  datatype AuctionResult = AuctionResult(
    auctionId: string,
    winner: Option<Bid>,
    totalBids: int,
    duration: int,
    error: Option<ErrorKind>,
    startTime: int,
    endTime: int)
}
