/** Auctions and their manager (internal/auction/types.go, manager.go).
    Attribute values come from the wall clock in the source and are
    parameters here. */
module Auctions {
  import opened Wrappers
  import opened Types
  import Decimal
  import Configuration

  /** One auction. `startTime`/`endTime` are 0 (Go's zero time) until set. */
  datatype Auction = Auction(
    id: string,
    attributes: seq<Attribute>,
    startTime: int,
    endTime: int,
    timeout: int,
    winner: Option<Bid>,
    bids: seq<Bid>,
    isComplete: bool)

  /** The manager's counters. */
  datatype Metrics = Metrics(totalAuctions: int, completedAuctions: int, failedAuctions: int, totalBids: int)

  /** Every recorded result was counted as either completed or failed. */
  predicate Balanced(m: Metrics)
  {
    m.totalAuctions == m.completedAuctions + m.failedAuctions
  }

  datatype Manager = Manager(config: Configuration.Config, auctions: seq<Auction>, metrics: Metrics)

  /** `NewManager`: no auctions and zeroed counters. */
  function NewManager(cfg: Configuration.Config): (m: Manager)
    ensures m.config == cfg && |m.auctions| == 0
    ensures m.metrics == Metrics(0, 0, 0, 0)
  {
    Manager(cfg, [], Metrics(0, 0, 0, 0))
  }

  /** `fmt.Sprintf("auction-%d", id+1)` */
  function AuctionId(id: nat): (s: string)
    ensures 8 < |s| && s[..8] == "auction-" && Decimal.AllDigits(s[8..])
  {
    var digits := Decimal.NatToString(id + 1);
    assert ("auction-" + digits)[8..] == digits;
    "auction-" + digits
  }

  /** The number after the prefix reads back as the 1-based position. */
  lemma AuctionIdRoundTrip(id: nat)
    ensures Decimal.StringToNat(AuctionId(id)[8..]) == id + 1
  {
    Decimal.StringToNatOfNatToString(id + 1);
    assert AuctionId(id)[8..] == Decimal.NatToString(id + 1);
  }

  /** Auctions created for different indices carry different ids. */
  lemma AuctionIdsDistinct(i: nat, j: nat)
    requires i != j
    ensures AuctionId(i) != AuctionId(j)
  {
    if AuctionId(i) == AuctionId(j) {
      Decimal.PrefixedInjective("auction-", i + 1, j + 1);
    }
  }

  /** Auction `id` as `createAuction` builds it from the generated `values`. */
  predicate Fresh(a: Auction, id: nat, cfg: Configuration.Config, values: seq<real>)
  {
    && a.id == AuctionId(id)
    && |a.attributes| == cfg.attributesPerAuction
    && |a.attributes| <= |values|
    && (forall j :: 0 <= j < |a.attributes| ==> a.attributes[j] == Attribute(j, values[j]))
    && a.timeout == cfg.auctionTimeout
    && a.bids == [] && a.winner.None? && !a.isComplete
    && a.startTime == 0 && a.endTime == 0
  }

  /** A fresh auction: attribute `j` has id `j` and the `j`-th generated
      value, the ledger is empty, there is no winner, it is not complete,
      and its timeout is the configured one. */
  method CreateAuction(cfg: Configuration.Config, id: nat, values: seq<real>) returns (a: Auction)
    requires |values| == cfg.attributesPerAuction
    ensures a.id == AuctionId(id)
    ensures |a.attributes| == cfg.attributesPerAuction
    ensures forall j :: 0 <= j < |a.attributes| ==> a.attributes[j] == Attribute(j, values[j])
    ensures a.timeout == cfg.auctionTimeout
    ensures a.bids == [] && a.winner.None? && !a.isComplete
    ensures a.startTime == 0 && a.endTime == 0
  {
    var attributes: seq<Attribute> := [];
    var j := 0;
    while j < cfg.attributesPerAuction
      invariant 0 <= j <= cfg.attributesPerAuction
      invariant |attributes| == j
      invariant forall k :: 0 <= k < j ==> attributes[k] == Attribute(k, values[k])
    {
      attributes := attributes + [Attribute(j, values[j])];
      j := j + 1;
    }
    a := Auction(AuctionId(id), attributes, 0, 0, cfg.auctionTimeout, None, [], false);
  }

  /** `InitializeAuctions`: appends `TotalAuctions` fresh auctions in index
      order, auction `i` built from `values[i]`. */
  method InitializeAuctions(m: Manager, values: seq<seq<real>>) returns (m': Manager)
    requires |values| >= m.config.totalAuctions
    requires forall i :: 0 <= i < |values| ==> |values[i]| == m.config.attributesPerAuction
    ensures m'.config == m.config && m'.metrics == m.metrics
    ensures |m'.auctions| == |m.auctions| + m.config.totalAuctions
    ensures m'.auctions[..|m.auctions|] == m.auctions
    ensures forall i :: |m.auctions| <= i < |m'.auctions| ==>
              Fresh(m'.auctions[i], i - |m.auctions|, m.config, values[i - |m.auctions|])
    ensures forall i, j :: |m.auctions| <= i < j < |m'.auctions| ==> m'.auctions[i].id != m'.auctions[j].id
  {
    var auctions := m.auctions;
    var i := 0;
    while i < m.config.totalAuctions
      invariant 0 <= i <= m.config.totalAuctions
      invariant |auctions| == |m.auctions| + i
      invariant auctions[..|m.auctions|] == m.auctions
      invariant forall k :: |m.auctions| <= k < |auctions| ==>
                  Fresh(auctions[k], k - |m.auctions|, m.config, values[k - |m.auctions|])
    {
      var a := CreateAuction(m.config, i, values[i]);
      auctions := auctions + [a];
      i := i + 1;
    }
    m' := Manager(m.config, auctions, m.metrics);
    forall i, j | |m.auctions| <= i < j < |m'.auctions|
      ensures m'.auctions[i].id != m'.auctions[j].id
    {
      AuctionIdsDistinct(i - |m.auctions|, j - |m.auctions|);
    }
  }

  /** `RecordResult`: one more auction, counted as failed exactly when the
      result carries an error, and its bids added to the total. */
  function RecordResult(m: Metrics, result: AuctionResult): (m': Metrics)
    ensures m'.totalAuctions == m.totalAuctions + 1
    ensures result.error.Some? ==> m'.failedAuctions == m.failedAuctions + 1 && m'.completedAuctions == m.completedAuctions
    ensures result.error.None? ==> m'.completedAuctions == m.completedAuctions + 1 && m'.failedAuctions == m.failedAuctions
    ensures m'.totalBids == m.totalBids + result.totalBids
    ensures Balanced(m) ==> Balanced(m')
  {
    var failed := if result.error.Some? then m.failedAuctions + 1 else m.failedAuctions;
    var completed := if result.error.Some? then m.completedAuctions else m.completedAuctions + 1;
    Metrics(m.totalAuctions + 1, completed, failed, m.totalBids + result.totalBids)
  }
}
