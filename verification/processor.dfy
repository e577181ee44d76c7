/** One auction's ledger and winner (internal/auction/processor.go). The
    clock and the race between the auction's context and the simulated-work
    timer in `Run` are inputs. */
module Processor {
  import opened Wrappers
  import opened Types
  import opened Auctions

  /** `k` holds the greatest amount among the first `n` bids, and every bid
      before `k` is strictly smaller: the first bid to reach the maximum. */
  predicate FirstMaxAmong(bids: seq<Bid>, n: nat, k: nat)
  {
    && k < n <= |bids|
    && (forall j :: 0 <= j < n ==> bids[j].amount <= bids[k].amount)
    && (forall j :: 0 <= j < k ==> bids[j].amount < bids[k].amount)
  }

  predicate IsFirstMax(bids: seq<Bid>, k: nat)
  {
    FirstMaxAmong(bids, |bids|, k)
  }

  /** The loop of `determineWinner` from index `i`, with `best` the index
      of the current winner: a later bid replaces it only when strictly greater. */
  function ScanFrom(bids: seq<Bid>, i: nat, best: nat): (w: nat)
    requires FirstMaxAmong(bids, i, best)
    ensures IsFirstMax(bids, w)
    decreases |bids| - i
  {
    if i == |bids| then best
    else if bids[i].amount > bids[best].amount then ScanFrom(bids, i + 1, i)
    else ScanFrom(bids, i + 1, best)
  }

  /** The index `determineWinner` points at, or `None` for an empty ledger. */
  function WinnerIndex(bids: seq<Bid>): (r: Option<nat>)
    ensures r.None? <==> |bids| == 0
    ensures r.Some? ==> IsFirstMax(bids, r.value)
  {
    if |bids| == 0 then None else Some(ScanFrom(bids, 1, 0))
  }

  /** There is only one first maximum, so the winner is fully determined by
      the ledger. */
  lemma FirstMaxUnique(bids: seq<Bid>, k1: nat, k2: nat)
    requires IsFirstMax(bids, k1) && IsFirstMax(bids, k2)
    ensures k1 == k2
  {
    assert bids[k1].amount == bids[k2].amount;
  }

  /** `determineWinner`: none exactly for an empty ledger; otherwise a bid of
      the ledger whose amount is at least every other. Which of several equal
      top bids it picks is stated by `DetermineWinnerIsFirstMax`. */
  function DetermineWinner(bids: seq<Bid>): (w: Option<Bid>)
    ensures w.None? <==> |bids| == 0
    ensures w.Some? ==> w.value in bids
    ensures w.Some? ==> forall j :: 0 <= j < |bids| ==> bids[j].amount <= w.value.amount
  {
    match WinnerIndex(bids)
    case None => None
    case Some(k) => Some(bids[k])
  }

  /** The same bids in any order give a winner with the same amount, and
      a winner in one order exactly when there is one in the other. */
  lemma {:induction false} SameBidsSameWinningAmount(b1: seq<Bid>, b2: seq<Bid>)
    requires multiset(b1) == multiset(b2)
    ensures |b1| == |b2|
    ensures DetermineWinner(b1).Some? <==> DetermineWinner(b2).Some?
    ensures DetermineWinner(b1).Some? ==> DetermineWinner(b1).value.amount == DetermineWinner(b2).value.amount
  {
    assert |b1| == |multiset(b1)| == |multiset(b2)| == |b2|;
    if |b1| > 0 {
      var w1 := DetermineWinner(b1).value;
      var w2 := DetermineWinner(b2).value;
      assert w1 in multiset(b2) && w2 in multiset(b1);
    }
  }

  /** The bid `determineWinner` returns is the first maximum of the ledger:
      no earlier bid reaches its amount, so ties go to the first arrival.
      Conversely, any first maximum is the bid it returns. */
  lemma DetermineWinnerIsFirstMax(bids: seq<Bid>, k: nat)
    requires k < |bids|
    ensures IsFirstMax(bids, k) <==> DetermineWinner(bids) == Some(bids[k]) && forall j :: 0 <= j < k ==> bids[j] != bids[k]
  {
    var w := WinnerIndex(bids).value;
    if IsFirstMax(bids, k) {
      FirstMaxUnique(bids, k, w);
    } else if DetermineWinner(bids) == Some(bids[k]) {
      assert bids[w] == bids[k];
    }
  }

  /** A non-empty ledger's winner sits at its first maximum. */
  lemma DetermineWinnerHasFirstMax(bids: seq<Bid>)
    requires |bids| > 0
    ensures exists k: nat :: IsFirstMax(bids, k) && DetermineWinner(bids) == Some(bids[k])
  {
    var k := WinnerIndex(bids).value;
    assert IsFirstMax(bids, k) && DetermineWinner(bids) == Some(bids[k]);
  }

  /** Ledger 10.00, 25.50, 25.50: the first 25.50 wins. */
  lemma FirstArrivalWinsTie()
    ensures DetermineWinner([Bid("a", 10.00, 1), Bid("b", 25.50, 2), Bid("c", 25.50, 3)])
         == Some(Bid("b", 25.50, 2))
  {
    var bids := [Bid("a", 10.00, 1), Bid("b", 25.50, 2), Bid("c", 25.50, 3)];
    assert IsFirstMax(bids, 1);
    DetermineWinnerIsFirstMax(bids, 1);
  }

  /** `AddBid`: the ledger grows by exactly the new bid at its end; nothing
      else about the auction changes. */
  function AddBid(a: Auction, bid: Bid): (a': Auction)
    ensures |a'.bids| == |a.bids| + 1
    ensures a'.bids[..|a.bids|] == a.bids && a'.bids[|a.bids|] == bid
    ensures a'.(bids := a.bids) == a
  {
    a.(bids := a.bids + [bid])
  }

  /** Bids appended one `AddBid` at a time, in arrival order. */
  function AddBids(a: Auction, arrivals: seq<Bid>): (a': Auction)
    ensures a'.bids == a.bids + arrivals
    ensures a'.(bids := a.bids) == a
    decreases |arrivals|
  {
    if |arrivals| == 0 then a
    else
      assert a.bids + [arrivals[0]] + arrivals[1..] == a.bids + arrivals;
      AddBids(AddBid(a, arrivals[0]), arrivals[1..])
  }

  /** The clock readings `Run` takes: on entry, on completion (the
      auction's end time) and in the deferred function (the result's end time). */
  datatype RunClock = RunClock(start: int, completed: int, end: int)

  /** `Run`: `raceWinner` is the auction context's state when the `select`
      fires; `Live` means the 100 ms work timer fired first.
      On the timeout branch the result carries the context's error, no bids,
      no winner, and the auction is not completed. On the completion branch
      the auction is complete, the bid count is the ledger size, and a winner
      is reported exactly when the ledger is non-empty. */
  function Run(a: Auction, raceWinner: CtxState, clock: RunClock): (r: (Auction, AuctionResult))
    ensures r.1.auctionId == a.id
    ensures r.1.startTime == clock.start && r.1.endTime == clock.end
    ensures r.1.duration == clock.end - clock.start
    ensures r.0.bids == a.bids && r.0.startTime == clock.start
    ensures r.0.(startTime := a.startTime, endTime := a.endTime, isComplete := a.isComplete, winner := a.winner) == a
    ensures raceWinner.Done? ==>
              && r.1.error == Some(raceWinner.err)
              && r.1.totalBids == 0
              && r.1.winner.None?
              && r.0.isComplete == a.isComplete
              && r.0.winner == a.winner
              && r.0.endTime == a.endTime
    ensures raceWinner.Live? ==>
              && r.1.error.None?
              && r.0.isComplete
              && r.0.endTime == clock.completed
              && r.1.totalBids == |a.bids|
              && (r.1.winner.Some? <==> |a.bids| > 0)
              && (|a.bids| > 0 ==> r.1.winner == DetermineWinner(a.bids) && r.0.winner == r.1.winner)
              && (|a.bids| == 0 ==> r.0.winner == a.winner)
  {
    var started := a.(startTime := clock.start);
    var base := AuctionResult(a.id, None, 0, clock.end - clock.start, None, clock.start, clock.end);
    match raceWinner
    case Done(err) =>
      (started, base.(error := Some(err)))
    case Live =>
      var completed := started.(endTime := clock.completed, isComplete := true);
      if |a.bids| > 0 then
        var winner := DetermineWinner(a.bids);
        (completed.(winner := winner), base.(totalBids := |a.bids|, winner := winner))
      else
        (completed, base.(totalBids := |a.bids|))
  }
}
