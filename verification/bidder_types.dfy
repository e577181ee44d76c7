/** Bidder records (internal/bidder/types.go). Float fields are exact reals. */
module BidderTypes {

  /** A simulated participant, generated once and reused for every auction. */
  datatype Bidder = Bidder(
    id: string,
    name: string,
    bidChance: real,
    baseBid: real,
    bidRange: real,
    speedMS: int,
    attributes: seq<int>)

  /** The ranges bidder parameters are drawn from. */
  datatype BidderConfig = BidderConfig(
    minBidChance: real,
    maxBidChance: real,
    minBaseBid: real,
    maxBaseBid: real,
    minSpeedMS: int,
    maxSpeedMS: int)

  /** The default ranges: every range is non-empty, bid chances are
      probabilities and response times are not negative. */
  function DefaultBidderConfig(): (c: BidderConfig)
    ensures Ordered(c)
    ensures 0.0 <= c.minBidChance && c.maxBidChance <= 1.0
    ensures 0 <= c.minSpeedMS
  {
    BidderConfig(0.6, 0.8, 50.0, 150.0, 5, 250)
  }

  /** Every range of the configuration is non-empty. */
  predicate Ordered(c: BidderConfig)
  {
    && c.minBidChance <= c.maxBidChance
    && c.minBaseBid <= c.maxBaseBid
    && c.minSpeedMS <= c.maxSpeedMS
  }
}
