/** Concurrent auction execution (internal/auction/orchestrator.go), as
    sequential bookkeeping. Goroutine scheduling becomes inputs: for each
    bidder goroutine, which way its two `select`s went and what its evaluator
    saw; for each auction, the order its bids reached the collection channel;
    for the whole run, the order in which auctions finished. */
module Orchestrator {
  import opened Wrappers
  import opened Types
  import opened Auctions
  import opened Processor
  import opened Evaluator
  import PermitPool

  /** `order` lists each of `0 .. n-1` exactly once. */
  predicate IsPermutation(order: seq<nat>, n: nat)
  {
    && |order| == n
    && (forall k :: 0 <= k < |order| ==> order[k] < n)
    && (forall k, l :: 0 <= k < l < |order| ==> order[k] != order[l])
    && (forall i :: 0 <= i < n ==> i in order)
  }

  /** The attribute values of an auction, in attribute order. */
  function AttributeValues(attributes: seq<Attribute>): (values: seq<real>)
    ensures |values| == |attributes|
    ensures forall i :: 0 <= i < |values| ==> values[i] == attributes[i].value
  {
    seq(|attributes|, i requires 0 <= i < |attributes| => attributes[i].value)
  }

  /** The request every bidder of an auction is sent. */
  function MakeRequest(a: Auction, timestamp: int): (r: BidRequest)
    ensures r.auctionId == a.id && r.timeout == a.timeout && r.timestamp == timestamp
    ensures r.attributes == AttributeValues(a.attributes)
  {
    BidRequest(a.id, AttributeValues(a.attributes), a.timeout, timestamp)
  }

  /** How one bidder goroutine's run went. `permitFirst` is false when its
      first `select` took `ctx.Done()` instead of a permit; `delivered` is
      false when its second `select` took `ctx.Done()` instead of the send. */
  datatype SimSchedule = SimSchedule(permitFirst: bool, eval: EvalInputs, delivered: bool)

  /** The goroutine holds a permit during its evaluation. A pool with no free
      slot makes it wait until the deadline, which in this sequential model
      means it never acquires. */
  predicate Acquired(pool: PermitPool.Pool, s: SimSchedule)
    ensures Acquired(pool, s) <==> s.permitFirst && PermitPool.TryAcquire(pool).0
  {
    s.permitFirst && pool.inUse < pool.cap
  }

  /** The bid one goroutine sends, if any: only an evaluator that acquired a
      permit and returned a response without error, and whose send was not
      pre-empted by the deadline, contributes, and then exactly its response. */
  function Contribution(sim: Simulator, s: SimSchedule, request: BidRequest, pool: PermitPool.Pool): (r: Option<Bid>)
    ensures !s.permitFirst ==> r.None?
    ensures r.Some? <==>
              && Acquired(pool, s)
              && EvaluateBid(sim, request, s.eval).err.None?
              && EvaluateBid(sim, request, s.eval).response.Some?
              && s.delivered
    ensures r.Some? ==>
              var resp := EvaluateBid(sim, request, s.eval).response.value;
              r.value == Bid(resp.bidderId, resp.amount, resp.timestamp)
    ensures r.Some? ==> r.value.bidderId == sim.bidder.id && r.value.amount >= 1.0
  {
    if !Acquired(pool, s) then None
    else
      var outcome := EvaluateBid(sim, request, s.eval);
      if outcome.err.Some? || outcome.response.None? then None
      else if !s.delivered then None
      else
        var resp := outcome.response.value;
        Some(Bid(resp.bidderId, resp.amount, resp.timestamp))
  }

  function OptionToSeq<T>(o: Option<T>): seq<T>
  {
    if o.Some? then [o.value] else []
  }

  /** Which goroutines may run for `sims`: one schedule per simulator. */
  predicate Schedules(sims: seq<Simulator>, scheds: seq<SimSchedule>, order: seq<nat>)
  {
    |scheds| == |sims| && forall k :: 0 <= k < |order| ==> order[k] < |sims|
  }

  /** The bids reaching the collection channel, in arrival order `order`:
      each goroutine sends at most once. */
  function Arrivals(sims: seq<Simulator>, scheds: seq<SimSchedule>, request: BidRequest,
                    pool: PermitPool.Pool, order: seq<nat>): (bids: seq<Bid>)
    requires Schedules(sims, scheds, order)
    ensures |bids| <= |order|
    decreases |order|
  {
    if |order| == 0 then []
    else
      var w := order[0];
      OptionToSeq(Contribution(sims[w], scheds[w], request, pool)) + Arrivals(sims, scheds, request, pool, order[1..])
  }

  /** Every bid received is the contribution of some listed goroutine. */
  lemma {:induction false} ArrivalsAreContributions(sims: seq<Simulator>, scheds: seq<SimSchedule>, request: BidRequest,
                                                    pool: PermitPool.Pool, order: seq<nat>)
    requires Schedules(sims, scheds, order)
    ensures forall m :: 0 <= m < |Arrivals(sims, scheds, request, pool, order)| ==>
              exists k :: 0 <= k < |order| &&
                Contribution(sims[order[k]], scheds[order[k]], request, pool) == Some(Arrivals(sims, scheds, request, pool, order)[m])
    decreases |order|
  {
    if |order| == 0 {
      assert Arrivals(sims, scheds, request, pool, order) == [];
    } else {
      var w := order[0];
      var head := OptionToSeq(Contribution(sims[w], scheds[w], request, pool));
      var rest := Arrivals(sims, scheds, request, pool, order[1..]);
      var bids := Arrivals(sims, scheds, request, pool, order);
      assert bids == head + rest;
      ArrivalsAreContributions(sims, scheds, request, pool, order[1..]);
      forall m | 0 <= m < |bids|
        ensures exists k :: 0 <= k < |order| && Contribution(sims[order[k]], scheds[order[k]], request, pool) == Some(bids[m])
      {
        if m < |head| {
          assert Contribution(sims[order[0]], scheds[order[0]], request, pool) == Some(bids[m]);
        } else {
          var k' :| 0 <= k' < |order[1..]| && Contribution(sims[order[1..][k']], scheds[order[1..][k']], request, pool) == Some(rest[m - |head|]);
          assert order[1..][k'] == order[k' + 1];
          assert bids[m] == rest[m - |head|];
        }
      }
    }
  }

  /** Arrivals of two consecutive groups of goroutines are the first group's
      arrivals followed by the second's. */
  lemma {:induction false} ArrivalsAppend(sims: seq<Simulator>, scheds: seq<SimSchedule>, request: BidRequest,
                                          pool: PermitPool.Pool, o1: seq<nat>, o2: seq<nat>)
    requires Schedules(sims, scheds, o1) && Schedules(sims, scheds, o2)
    ensures Schedules(sims, scheds, o1 + o2)
    ensures Arrivals(sims, scheds, request, pool, o1 + o2)
         == Arrivals(sims, scheds, request, pool, o1) + Arrivals(sims, scheds, request, pool, o2)
    decreases |o1|
  {
    if |o1| == 0 {
      assert o1 + o2 == o2;
    } else {
      assert (o1 + o2)[0] == o1[0];
      assert (o1 + o2)[1..] == o1[1..] + o2;
      ArrivalsAppend(sims, scheds, request, pool, o1[1..], o2);
    }
  }

  /** Taking goroutine `o[j]` out of an arrival order removes exactly its
      contribution from the bids received. */
  lemma ArrivalsWithout(sims: seq<Simulator>, scheds: seq<SimSchedule>, request: BidRequest,
                        pool: PermitPool.Pool, o: seq<nat>, j: nat)
    requires Schedules(sims, scheds, o)
    requires j < |o|
    ensures Schedules(sims, scheds, o[..j] + o[j + 1..])
    ensures multiset(Arrivals(sims, scheds, request, pool, o))
         == multiset(Arrivals(sims, scheds, request, pool, o[..j] + o[j + 1..]))
          + multiset(Arrivals(sims, scheds, request, pool, [o[j]]))
  {
    var before, after := o[..j], o[j + 1..];
    var x := o[j];
    assert o == before + ([x] + after);
    ArrivalsAppend(sims, scheds, request, pool, [x], after);
    ArrivalsAppend(sims, scheds, request, pool, before, [x] + after);
    ArrivalsAppend(sims, scheds, request, pool, before, after);
  }

  /** The bids received do not depend on the order in which the goroutines
      arrive: any two arrival orders of the same goroutines give the same
      bids, as a multiset. */
  lemma {:induction false} ArrivalOrderIrrelevant(sims: seq<Simulator>, scheds: seq<SimSchedule>, request: BidRequest,
                                                  pool: PermitPool.Pool, o1: seq<nat>, o2: seq<nat>)
    requires Schedules(sims, scheds, o1) && Schedules(sims, scheds, o2)
    requires multiset(o1) == multiset(o2)
    ensures multiset(Arrivals(sims, scheds, request, pool, o1)) == multiset(Arrivals(sims, scheds, request, pool, o2))
    decreases |o1|
  {
    if |o1| == 0 {
      assert |o2| == |multiset(o2)| == 0;
    } else {
      var x := o1[0];
      assert x in multiset(o2);
      var j :| 0 <= j < |o2| && o2[j] == x;
      var rest := o2[..j] + o2[j + 1..];
      assert multiset(o1[1..]) == multiset(rest) by {
        assert o1 == [x] + o1[1..];
        assert o2 == o2[..j] + [x] + o2[j + 1..];
        assert multiset(o1) == multiset([x]) + multiset(o1[1..]);
        assert multiset(o2) == multiset(o2[..j]) + multiset([x]) + multiset(o2[j + 1..]);
        assert multiset(rest) == multiset(o2[..j]) + multiset(o2[j + 1..]);
        assert multiset(o1[1..]) == multiset(o1) - multiset([x]);
        assert multiset(rest) == multiset(o2) - multiset([x]);
      }
      ArrivalsWithout(sims, scheds, request, pool, o2, j);
      ArrivalsWithout(sims, scheds, request, pool, o1, 0);
      assert o1[..0] + o1[1..] == o1[1..];
      ArrivalOrderIrrelevant(sims, scheds, request, pool, o1[1..], rest);
    }
  }

  /** The per-auction schedule: the request's timestamp, the result's start
      and end readings, each bidder goroutine's run, and the arrival order of
      the goroutines at the collection channel. */
  datatype AuctionSchedule = AuctionSchedule(
    requestTime: int,
    start: int,
    end: int,
    sims: seq<SimSchedule>,
    arrival: seq<nat>)

  /** One goroutine per simulator, each arriving once; and a timeout that is
      not positive makes the auction's context done from the start, so every
      evaluator sees the deadline exceeded on entry. */
  predicate ValidSchedule(a: Auction, sched: AuctionSchedule, n: nat)
  {
    && |sched.sims| == n
    && IsPermutation(sched.arrival, n)
    && (a.timeout <= 0 ==> forall k :: 0 <= k < n ==> sched.sims[k].eval.ctxAtStart == Done(DeadlineExceeded))
  }

  /** A valid schedule's arrival order holds each simulator index exactly once. */
  lemma ValidScheduleIsRange(a: Auction, sched: AuctionSchedule, n: nat)
    requires ValidSchedule(a, sched, n)
    ensures multiset(sched.arrival) == multiset(Range(n))
  {
    PermutationIsRange(sched.arrival, n);
  }

  /** `collectBids`: the arrivals are appended to the ledger one `AddBid` at
      a time; at most one bid per simulator, and nothing but the ledger changes. */
  function CollectBids(a: Auction, sims: seq<Simulator>, pool: PermitPool.Pool, sched: AuctionSchedule): (a': Auction)
    requires ValidSchedule(a, sched, |sims|)
    ensures a'.bids == a.bids + Arrivals(sims, sched.sims, MakeRequest(a, sched.requestTime), pool, sched.arrival)
    ensures |a'.bids| <= |a.bids| + |sims|
    ensures a'.(bids := a.bids) == a
  {
    var arrivals := Arrivals(sims, sched.sims, MakeRequest(a, sched.requestTime), pool, sched.arrival);
    AddBids(a, arrivals)
  }

  /** The permit events of one goroutine: a deferred release right after its
      acquire, or nothing if it never acquired. */
  function GoroutineTrace(w: nat, acquired: bool): (t: seq<PermitPool.Event>)
    ensures forall i :: 0 <= i < |t| ==> t[i].worker == w
    ensures PermitPool.Occurrences(t, PermitPool.Acquire(w)) == (if acquired then 1 else 0)
    ensures PermitPool.Occurrences(t, PermitPool.Give(w)) == PermitPool.Occurrences(t, PermitPool.Acquire(w))
  {
    if acquired then
      var t := [PermitPool.Acquire(w), PermitPool.Give(w)];
      assert t[1..] == [PermitPool.Give(w)] && t[1..][1..] == [];
      assert PermitPool.Occurrences(t[1..], PermitPool.Acquire(w)) == 0;
      assert PermitPool.Occurrences(t[1..], PermitPool.Give(w)) == 1;
      t
    else []
  }

  /** The permit events of `collectBids`, goroutine after goroutine. */
  function CollectTrace(pool: PermitPool.Pool, scheds: seq<SimSchedule>, order: seq<nat>): (t: seq<PermitPool.Event>)
    requires forall k :: 0 <= k < |order| ==> order[k] < |scheds|
    ensures |t| <= 2 * |order|
    ensures forall i :: 0 <= i < |t| ==> t[i].worker in order
    decreases |order|
  {
    if |order| == 0 then []
    else GoroutineTrace(order[0], Acquired(pool, scheds[order[0]])) + CollectTrace(pool, scheds, order[1..])
  }

  lemma {:induction false} ReplayAppend(g: PermitPool.Gate, t1: seq<PermitPool.Event>, t2: seq<PermitPool.Event>)
    requires PermitPool.Replay(g, t1).Some?
    ensures PermitPool.Replay(g, t1 + t2) == PermitPool.Replay(PermitPool.Replay(g, t1).value, t2)
    decreases |t1|
  {
    if |t1| > 0 {
      assert (t1 + t2)[0] == t1[0];
      assert (t1 + t2)[1..] == t1[1..] + t2;
      ReplayAppend(PermitPool.Step(g, t1[0]).value, t1[1..], t2);
    } else {
      assert t1 + t2 == t2;
    }
  }

  /** Run one after another, each taking and returning its permit in turn,
      the goroutines of `collectBids` can take their permits as recorded, the
      pool stays within capacity throughout, and every permit taken is given
      back, leaving the pool as it was. At most one permit is out at a time
      in this order; the bound under any interleaving is `ReplayConsistent`
      and `ReplayPrefix` in `PermitPool`. */
  lemma {:induction false} CollectTraceBalanced(g: PermitPool.Gate, scheds: seq<SimSchedule>, order: seq<nat>)
    requires PermitPool.Consistent(g)
    requires forall k :: 0 <= k < |order| ==> order[k] < |scheds| && order[k] !in g.holders
    ensures PermitPool.Replay(g, CollectTrace(g.pool, scheds, order)) == Some(g)
    ensures forall k :: 0 <= k <= |CollectTrace(g.pool, scheds, order)| ==>
              PermitPool.Replay(g, CollectTrace(g.pool, scheds, order)[..k]).Some?
              && PermitPool.Replay(g, CollectTrace(g.pool, scheds, order)[..k]).value.pool.inUse <= g.pool.cap
    decreases |order|
  {
    var trace := CollectTrace(g.pool, scheds, order);
    if |order| > 0 {
      var w := order[0];
      var head := GoroutineTrace(w, Acquired(g.pool, scheds[w]));
      var tail := CollectTrace(g.pool, scheds, order[1..]);
      assert PermitPool.Replay(g, head) == Some(g) by {
        if Acquired(g.pool, scheds[w]) {
          var g1 := PermitPool.Gate(PermitPool.Pool(g.pool.cap, g.pool.inUse + 1), g.holders + {w});
          assert PermitPool.Step(g, PermitPool.Acquire(w)) == Some(g1);
          assert (g.holders + {w}) - {w} == g.holders;
          assert PermitPool.Step(g1, PermitPool.Give(w)) == Some(g);
          assert head[0] == PermitPool.Acquire(w) && head[1..] == [PermitPool.Give(w)];
          assert PermitPool.Replay(g1, head[1..]) == PermitPool.Replay(g, []);
        }
      }
      CollectTraceBalanced(g, scheds, order[1..]);
      ReplayAppend(g, head, tail);
    }
    forall k | 0 <= k <= |trace|
      ensures PermitPool.Replay(g, trace[..k]).Some?
      ensures PermitPool.Replay(g, trace[..k]).value.pool.inUse <= g.pool.cap
    {
      PermitPool.ReplayPrefix(g, trace, k);
    }
  }

  /** A goroutine cancelled before acquiring takes no permit and sends no bid. */
  lemma CancelledBeforePermit(sim: Simulator, s: SimSchedule, request: BidRequest, g: PermitPool.Gate, w: nat)
    requires !s.permitFirst
    ensures GoroutineTrace(w, Acquired(g.pool, s)) == []
    ensures Contribution(sim, s, request, g.pool).None?
  {
  }

  /** `runSingleAuction`: collects bids, then reports the auction complete
      with the ledger's size as its bid count and, exactly when bids were
      collected, the first-maximum bid as winner. It never sets an error. */
  function RunSingleAuction(a: Auction, sims: seq<Simulator>, pool: PermitPool.Pool, sched: AuctionSchedule): (r: (Auction, AuctionResult))
    requires ValidSchedule(a, sched, |sims|)
    ensures r.1.auctionId == a.id
    ensures r.1.error.None?
    ensures r.0.isComplete
    ensures r.1.totalBids == |r.0.bids|
    ensures r.0.bids == a.bids + Arrivals(sims, sched.sims, MakeRequest(a, sched.requestTime), pool, sched.arrival)
    ensures |a.bids| <= |r.0.bids| <= |a.bids| + |sims|
    ensures r.0.(bids := a.bids, winner := a.winner, isComplete := a.isComplete) == a
    ensures |r.0.bids| == 0 ==> r.0.winner == a.winner
    ensures r.1.winner.Some? <==> |r.0.bids| > 0
    ensures |r.0.bids| > 0 ==> r.1.winner == DetermineWinner(r.0.bids) && r.0.winner == r.1.winner
    ensures r.1.startTime == sched.start && r.1.endTime == sched.end && r.1.duration == sched.end - sched.start
  {
    var collected := CollectBids(a, sims, pool, sched);
    var winner := if |collected.bids| > 0 then DetermineWinner(collected.bids) else None;
    var updated := collected.(winner := if |collected.bids| > 0 then winner else collected.winner, isComplete := true);
    var result := AuctionResult(a.id, winner, |collected.bids|, sched.end - sched.start, None, sched.start, sched.end);
    (updated, result)
  }

  /** `runSingleAuction` settles the auction as `Processor.Run` does when its
      work timer fires first: on the ledger `collectBids` leaves, both report
      the same bid count and winner and no error, and leave the same ledger,
      winner and completion flag. */
  lemma RunAgreesWithRunSingleAuction(a: Auction, sims: seq<Simulator>, pool: PermitPool.Pool,
                                      sched: AuctionSchedule, clock: RunClock)
    requires ValidSchedule(a, sched, |sims|)
    ensures var single := RunSingleAuction(a, sims, pool, sched);
            var run := Run(CollectBids(a, sims, pool, sched), Live, clock);
            && run.1.totalBids == single.1.totalBids
            && run.1.winner == single.1.winner
            && run.1.error == single.1.error
            && run.0.bids == single.0.bids
            && run.0.winner == single.0.winner
            && run.0.isComplete == single.0.isComplete
  {
  }

  /** Whatever order the bids arrive in, an auction ends with the same bids
      (as a multiset), the same bid count, and a winner with the same amount;
      only which of several equal top bids wins depends on arrival order. */
  lemma ArrivalOrderKeepsOutcome(a: Auction, sims: seq<Simulator>, pool: PermitPool.Pool,
                                 s1: AuctionSchedule, s2: AuctionSchedule)
    requires ValidSchedule(a, s1, |sims|) && ValidSchedule(a, s2, |sims|)
    requires s2 == s1.(arrival := s2.arrival)
    ensures multiset(RunSingleAuction(a, sims, pool, s1).0.bids) == multiset(RunSingleAuction(a, sims, pool, s2).0.bids)
    ensures RunSingleAuction(a, sims, pool, s1).1.totalBids == RunSingleAuction(a, sims, pool, s2).1.totalBids
    ensures RunSingleAuction(a, sims, pool, s1).1.winner.Some? <==> RunSingleAuction(a, sims, pool, s2).1.winner.Some?
    ensures RunSingleAuction(a, sims, pool, s1).1.winner.Some? ==>
              RunSingleAuction(a, sims, pool, s1).1.winner.value.amount == RunSingleAuction(a, sims, pool, s2).1.winner.value.amount
  {
    var request := MakeRequest(a, s1.requestTime);
    PermutationsHaveSameElements(s1.arrival, s2.arrival, |sims|);
    ArrivalOrderIrrelevant(sims, s1.sims, request, pool, s1.arrival, s2.arrival);
    SameBidsSameWinningAmount(RunSingleAuction(a, sims, pool, s1).0.bids, RunSingleAuction(a, sims, pool, s2).0.bids);
  }

  /** Two permutations of the same range hold the same elements. */
  lemma PermutationsHaveSameElements(o1: seq<nat>, o2: seq<nat>, n: nat)
    requires IsPermutation(o1, n) && IsPermutation(o2, n)
    ensures multiset(o1) == multiset(o2)
  {
    PermutationIsRange(o1, n);
    PermutationIsRange(o2, n);
  }

  /** The range `0 .. n-1` as a sequence. */
  function Range(n: nat): (r: seq<nat>)
    ensures |r| == n && forall i :: 0 <= i < n ==> r[i] == i
  {
    if n == 0 then [] else Range(n - 1) + [n - 1]
  }

  /** A permutation of `n` holds each of `0 .. n-1` exactly once. */
  lemma PermutationIsRange(o: seq<nat>, n: nat)
    requires IsPermutation(o, n)
    ensures multiset(o) == multiset(Range(n))
  {
    forall x: nat
      ensures multiset(o)[x] == multiset(Range(n))[x]
    {
      if x < n {
        assert x in o;
        var k :| 0 <= k < |o| && o[k] == x;
        DistinctCount(o, k);
        DistinctCount(Range(n), x);
      } else {
        assert x !in o;
        assert x !in Range(n);
      }
    }
  }

  /** In a sequence without repeats, the element at `k` occurs once. */
  lemma {:induction false} DistinctCount(o: seq<nat>, k: nat)
    requires k < |o|
    requires forall i, j :: 0 <= i < j < |o| ==> o[i] != o[j]
    ensures multiset(o)[o[k]] == 1
    decreases |o|
  {
    var last := |o| - 1;
    assert o == o[..last] + [o[last]];
    if k == last {
      assert o[k] !in o[..last];
    } else {
      DistinctCount(o[..last], k);
      assert o[last] != o[k];
    }
  }

  /** Evaluators that all see a done context send nothing. */
  lemma {:induction false} NoArrivalsWhenCancelled(sims: seq<Simulator>, scheds: seq<SimSchedule>, request: BidRequest,
                                                   pool: PermitPool.Pool, order: seq<nat>)
    requires Schedules(sims, scheds, order)
    requires forall k :: 0 <= k < |sims| ==> scheds[k].eval.ctxAtStart.Done?
    ensures Arrivals(sims, scheds, request, pool, order) == []
    decreases |order|
  {
    if |order| > 0 {
      NoArrivalsWhenCancelled(sims, scheds, request, pool, order[1..]);
    }
  }

  /** An auction whose timeout is not positive completes with no new bids:
      a fresh auction reports zero bids and no winner. */
  lemma ZeroTimeoutCollectsNothing(a: Auction, sims: seq<Simulator>, pool: PermitPool.Pool, sched: AuctionSchedule)
    requires ValidSchedule(a, sched, |sims|)
    requires a.timeout <= 0
    ensures RunSingleAuction(a, sims, pool, sched).0.isComplete
    ensures RunSingleAuction(a, sims, pool, sched).1.totalBids == |a.bids|
    ensures a.bids == [] ==> (RunSingleAuction(a, sims, pool, sched).1.totalBids == 0
                              && RunSingleAuction(a, sims, pool, sched).1.winner.None?)
  {
    NoArrivalsWhenCancelled(sims, sched.sims, MakeRequest(a, sched.requestTime), pool, sched.arrival);
  }

  /** The first error met when walking `results` in `order`, the error the
      orchestrator keeps: once one is recorded a later one never replaces it. */
  function FirstErrorIn(results: seq<AuctionResult>, order: seq<nat>): (e: Option<ErrorKind>)
    requires forall k :: 0 <= k < |order| ==> order[k] < |results|
    ensures e.None? <==> forall k :: 0 <= k < |order| ==> results[order[k]].error.None?
    ensures e.Some? ==> exists k :: 0 <= k < |order| && results[order[k]].error == e
                         && forall l :: 0 <= l < k ==> results[order[l]].error.None?
    decreases |order|
  {
    if |order| == 0 then None
    else
      var earlier := FirstErrorIn(results, order[..|order| - 1]);
      if earlier.Some? then earlier else results[order[|order| - 1]].error
  }

  /** One more finished auction: the remembered error stays if there is
      one, and otherwise becomes that auction's error. */
  lemma FirstErrorInExtend(results: seq<AuctionResult>, order: seq<nat>, k: nat)
    requires k < |order|
    requires forall j :: 0 <= j < |order| ==> order[j] < |results|
    ensures FirstErrorIn(results, order[..k + 1])
         == if FirstErrorIn(results, order[..k]).Some? then FirstErrorIn(results, order[..k]) else results[order[k]].error
  {
    assert order[..k + 1][..k] == order[..k];
  }

  /** Over a completion order that lists every auction once, no error is
      remembered exactly when no auction failed. */
  lemma FirstErrorInPermutation(results: seq<AuctionResult>, order: seq<nat>)
    requires IsPermutation(order, |results|)
    ensures FirstErrorIn(results, order).None? <==> forall i :: 0 <= i < |results| ==> results[i].error.None?
  {
    if FirstErrorIn(results, order).None? {
      forall i | 0 <= i < |results|
        ensures results[i].error.None?
      {
        assert i in order;
        var k :| 0 <= k < |order| && order[k] == i;
      }
    }
  }

  /** Every auction listed in `done` has stored its own result at its index. */
  predicate Stored(slots: seq<Option<AuctionResult>>, outcomes: seq<AuctionResult>, done: seq<nat>)
  {
    forall j :: 0 <= j < |done| ==>
      done[j] < |slots| && done[j] < |outcomes| && slots[done[j]] == Some(outcomes[done[j]])
  }

  /** Storing the next finished auction's result keeps every earlier one
      and adds its own. */
  lemma StoredExtend(slots: seq<Option<AuctionResult>>, outcomes: seq<AuctionResult>, completion: seq<nat>, k: nat)
    requires k < |completion| && completion[k] < |slots| && completion[k] < |outcomes|
    requires Stored(slots, outcomes, completion[..k])
    ensures Stored(slots[completion[k] := Some(outcomes[completion[k]])], outcomes, completion[..k + 1])
  {
    var idx := completion[k];
    var slots' := slots[idx := Some(outcomes[idx])];
    var done := completion[..k + 1];
    forall j | 0 <= j < |done|
      ensures done[j] < |slots'| && done[j] < |outcomes| && slots'[done[j]] == Some(outcomes[done[j]])
    {
      if j < k {
        assert done[j] == completion[..k][j];
      }
    }
  }

  /** Once every auction of the completion order has stored its result,
      reading the slots back gives the results in auction order. */
  function FilledSlots(slots: seq<Option<AuctionResult>>, outcomes: seq<AuctionResult>, completion: seq<nat>): (results: seq<AuctionResult>)
    requires IsPermutation(completion, |outcomes|) && |slots| == |outcomes|
    requires Stored(slots, outcomes, completion)
    ensures results == outcomes
  {
    assert forall i :: 0 <= i < |slots| ==> slots[i] == Some(outcomes[i]) by {
      forall i | 0 <= i < |slots|
        ensures slots[i] == Some(outcomes[i])
      {
        assert i in completion;
        var j :| 0 <= j < |completion| && completion[j] == i;
      }
    }
    seq(|slots|, i requires 0 <= i < |slots| => slots[i].value)
  }

  /** The locked section of `RunAllAuctions`, run as each auction finishes
      (in `completion` order): store the result at its auction's index and
      remember the first error. */
  method GatherResults(outcomes: seq<AuctionResult>, completion: seq<nat>)
      returns (results: seq<AuctionResult>, firstError: Option<ErrorKind>)
    requires IsPermutation(completion, |outcomes|)
    ensures results == outcomes
    ensures firstError == FirstErrorIn(outcomes, completion)
    ensures firstError.None? <==> forall i :: 0 <= i < |results| ==> results[i].error.None?
  {
    var n := |outcomes|;
    var slots: seq<Option<AuctionResult>> := seq(n, _ => None);
    firstError := None;
    var k := 0;
    while k < n
      invariant 0 <= k <= n
      invariant |slots| == n
      invariant Stored(slots, outcomes, completion[..k])
      invariant firstError == FirstErrorIn(outcomes, completion[..k])
    {
      var idx := completion[k];
      StoredExtend(slots, outcomes, completion, k);
      slots := slots[idx := Some(outcomes[idx])];
      if outcomes[idx].error.Some? && firstError.None? {
        firstError := outcomes[idx].error;
      }
      FirstErrorInExtend(outcomes, completion, k);
      k := k + 1;
    }
    assert completion[..n] == completion;
    FirstErrorInPermutation(outcomes, completion);
    results := FilledSlots(slots, outcomes, completion);
  }

  /** `RunAllAuctions`: result `i` is auction `i`'s own result whatever order
      the auctions finished in, and the error is the first one recorded, so
      it is nil exactly when no auction failed, which is always, since
      `runSingleAuction` never fails. */
  method RunAllAuctions(auctions: seq<Auction>, sims: seq<Simulator>, pool: PermitPool.Pool,
                        scheds: seq<AuctionSchedule>, completion: seq<nat>)
      returns (results: seq<AuctionResult>, firstError: Option<ErrorKind>, updated: seq<Auction>)
    requires |scheds| == |auctions|
    requires forall i :: 0 <= i < |auctions| ==> ValidSchedule(auctions[i], scheds[i], |sims|)
    requires IsPermutation(completion, |auctions|)
    ensures |results| == |auctions| && |updated| == |auctions|
    ensures forall i :: 0 <= i < |auctions| ==>
              (updated[i], results[i]) == RunSingleAuction(auctions[i], sims, pool, scheds[i])
    ensures forall i :: 0 <= i < |auctions| ==> results[i].auctionId == auctions[i].id
    ensures firstError.None? <==> forall i :: 0 <= i < |results| ==> results[i].error.None?
    ensures firstError.None?
  {
    var n := |auctions|;
    var outcomes := seq(n, i requires 0 <= i < n => RunSingleAuction(auctions[i], sims, pool, scheds[i]));
    updated := seq(n, i requires 0 <= i < n => outcomes[i].0);
    results, firstError := GatherResults(seq(n, i requires 0 <= i < n => outcomes[i].1), completion);
  }
}
