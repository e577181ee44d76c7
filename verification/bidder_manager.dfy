/** Creation and lookup of bidders (internal/bidder/manager.go). The
    generator's draws for each bidder are supplied as a `BidderDraws` record. */
module BidderManager {
  import opened Wrappers
  import opened Types
  import opened BidderTypes
  import opened Evaluator
  import Decimal
  import Random
  import Configuration

  datatype Manager = Manager(config: Configuration.Config, bidders: seq<Bidder>)

  /** `NewManager`: no bidders yet. */
  function NewManager(cfg: Configuration.Config): (m: Manager)
    ensures m.config == cfg && |m.bidders| == 0
  {
    Manager(cfg, [])
  }

  /** The raw draws consumed by `createBidder`: three `rand.Float64()` values,
      the `rand.Intn` draw of `RandomInt`, and the `rand.Intn(6)` and
      `rand.Intn(20)` draws of `generatePreferredAttributes`. */
  datatype BidderDraws = BidderDraws(
    chance: real,
    base: real,
    range: real,
    speed: int,
    preferenceCount: int,
    preferenceIds: seq<int>)

  /** The draws of `generatePreferredAttributes` are in the ranges
      `rand.Intn(6)` and `rand.Intn(20)` return, one id per preference. */
  predicate ValidPreferenceDraws(count: int, ids: seq<int>)
  {
    && 0 <= count < 6
    && |ids| == count + 3
    && forall i :: 0 <= i < |ids| ==> 0 <= ids[i] < 20
  }

  predicate ValidDraws(c: BidderConfig, d: BidderDraws)
  {
    && Random.UnitDraw(d.chance)
    && Random.UnitDraw(d.base)
    && Random.UnitDraw(d.range)
    && 0 <= d.speed < c.maxSpeedMS - c.minSpeedMS + 1
    && ValidPreferenceDraws(d.preferenceCount, d.preferenceIds)
  }

  /** Between 3 and 8 preferred attribute ids, each in [0, 19]. */
  function GeneratePreferredAttributes(count: int, ids: seq<int>): (prefs: seq<int>)
    requires ValidPreferenceDraws(count, ids)
    ensures 3 <= |prefs| <= 8
    ensures forall i :: 0 <= i < |prefs| ==> 0 <= prefs[i] <= 19
    ensures |prefs| == count + 3 && forall i :: 0 <= i < |prefs| ==> prefs[i] == ids[i]
  {
    var numPreferences := count + 3;
    seq(numPreferences, i requires 0 <= i < numPreferences => ids[i])
  }

  /** Every list of 3 to 8 attribute IDs in [0, 19] is produced by some draws. */
  lemma PreferencesCoverAllChoices(prefs: seq<int>)
    requires 3 <= |prefs| <= 8
    requires forall i :: 0 <= i < |prefs| ==> 0 <= prefs[i] <= 19
    ensures ValidPreferenceDraws(|prefs| - 3, prefs)
    ensures GeneratePreferredAttributes(|prefs| - 3, prefs) == prefs
  {
  }

  /** `fmt.Sprintf("bidder-%d", id+1)` */
  function BidderId(id: nat): (s: string)
    ensures 7 < |s| && s[..7] == "bidder-" && Decimal.AllDigits(s[7..])
  {
    var digits := Decimal.NatToString(id + 1);
    assert ("bidder-" + digits)[7..] == digits;
    "bidder-" + digits
  }

  /** The number after the prefix reads back as the 1-based position. */
  lemma BidderIdRoundTrip(id: nat)
    ensures Decimal.StringToNat(BidderId(id)[7..]) == id + 1
  {
    Decimal.StringToNatOfNatToString(id + 1);
    assert BidderId(id)[7..] == Decimal.NatToString(id + 1);
  }

  /** Bidder `id` is named after `id + 1` and its parameters lie in the
      configured ranges (the bid range in [5, 20]). */
  function CreateBidder(id: nat, c: BidderConfig, d: BidderDraws): (b: Bidder)
    requires Ordered(c)
    requires ValidDraws(c, d)
    ensures b.id == BidderId(id)
    ensures c.minBidChance <= b.bidChance <= c.maxBidChance
    ensures c.minBaseBid <= b.baseBid <= c.maxBaseBid
    ensures 5.0 <= b.bidRange <= 20.0
    ensures c.minSpeedMS <= b.speedMS <= c.maxSpeedMS
    ensures 3 <= |b.attributes| <= 8
  {
    Bidder(
      BidderId(id),
      "Bidder " + Decimal.NatToString(id + 1),
      Random.RandomFloat(c.minBidChance, c.maxBidChance, d.chance),
      Random.RandomFloat(c.minBaseBid, c.maxBaseBid, d.base),
      Random.RandomFloat(5.0, 20.0, d.range),
      Random.RandomInt(c.minSpeedMS, c.maxSpeedMS, d.speed),
      GeneratePreferredAttributes(d.preferenceCount, d.preferenceIds))
  }

  /** `InitializeBidders`: appends `TotalBidders` bidders built with the
      default bidder configuration, bidder `i` from `draws[i]`. */
  method InitializeBidders(m: Manager, draws: seq<BidderDraws>) returns (m': Manager)
    requires |draws| >= m.config.totalBidders
    requires forall i :: 0 <= i < |draws| ==> ValidDraws(DefaultBidderConfig(), draws[i])
    ensures m'.config == m.config
    ensures |m'.bidders| == |m.bidders| + m.config.totalBidders
    ensures m'.bidders[..|m.bidders|] == m.bidders
    ensures forall i :: |m.bidders| <= i < |m'.bidders| ==>
              m'.bidders[i] == CreateBidder(i - |m.bidders|, DefaultBidderConfig(), draws[i - |m.bidders|])
    ensures forall i :: |m.bidders| <= i < |m'.bidders| ==> m'.bidders[i].id == BidderId(i - |m.bidders|)
    ensures forall i, j :: |m.bidders| <= i < j < |m'.bidders| ==> m'.bidders[i].id != m'.bidders[j].id
  {
    var c := DefaultBidderConfig();
    var bidders := m.bidders;
    var i := 0;
    while i < m.config.totalBidders
      invariant 0 <= i <= m.config.totalBidders
      invariant |bidders| == |m.bidders| + i
      invariant bidders[..|m.bidders|] == m.bidders
      invariant forall k :: |m.bidders| <= k < |bidders| ==>
                  bidders[k] == CreateBidder(k - |m.bidders|, c, draws[k - |m.bidders|])
    {
      bidders := bidders + [CreateBidder(i, c, draws[i])];
      i := i + 1;
    }
    m' := Manager(m.config, bidders);
    forall i, j | |m.bidders| <= i < j < |m'.bidders|
      ensures m'.bidders[i].id != m'.bidders[j].id
    {
      BidderIdsDistinct(i - |m.bidders|, j - |m.bidders|);
    }
  }

  /** Bidders created for different indices carry different ids. */
  lemma BidderIdsDistinct(i: nat, j: nat)
    requires i != j
    ensures BidderId(i) != BidderId(j)
  {
    if BidderId(i) == BidderId(j) {
      Decimal.PrefixedInjective("bidder-", i + 1, j + 1);
    }
  }

  /** The index of the first bidder at or after `from` whose id is `id`. */
  function FirstIndexOf(bidders: seq<Bidder>, id: string, from: nat): (r: Option<nat>)
    requires from <= |bidders|
    ensures r.Some? ==> from <= r.value < |bidders| && bidders[r.value].id == id
    ensures r.Some? ==> forall j :: from <= j < r.value ==> bidders[j].id != id
    ensures r.None? ==> forall j :: from <= j < |bidders| ==> bidders[j].id != id
    decreases |bidders| - from
  {
    if from == |bidders| then None
    else if bidders[from].id == id then Some(from)
    else FirstIndexOf(bidders, id, from + 1)
  }

  /** `GetBidder`: the first bidder with the id, or a not-found error exactly
      when no bidder has it. */
  function GetBidder(m: Manager, id: string): (r: Result<Bidder, ErrorKind>)
    ensures r.Failure? <==> forall j :: 0 <= j < |m.bidders| ==> m.bidders[j].id != id
    ensures r.Failure? ==> r.error == BidderNotFound(id)
    ensures r.Success? ==> exists i :: 0 <= i < |m.bidders| && m.bidders[i] == r.value
                                         && r.value.id == id
                                         && forall j :: 0 <= j < i ==> m.bidders[j].id != id
  {
    match FirstIndexOf(m.bidders, id, 0)
    case Some(i) => Success(m.bidders[i])
    case None => Failure(BidderNotFound(id))
  }

  /** `GetBidderSimulators`: one simulator per bidder, in bidder order. */
  method GetBidderSimulators(m: Manager) returns (sims: seq<Simulator>)
    ensures |sims| == |m.bidders|
    ensures forall i :: 0 <= i < |sims| ==> sims[i].bidder == m.bidders[i]
  {
    sims := [];
    var i := 0;
    while i < |m.bidders|
      invariant 0 <= i <= |m.bidders|
      invariant |sims| == i
      invariant forall k :: 0 <= k < i ==> sims[k].bidder == m.bidders[k]
    {
      sims := sims + [Simulator(m.bidders[i])];
      i := i + 1;
    }
  }
}
