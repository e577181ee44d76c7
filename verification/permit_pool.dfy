/** The orchestrator's semaphore (internal/auction/orchestrator.go:28, 127-132):
    a buffered channel of capacity `MaxConcurrentBidders`, where a send takes a
    permit and a receive gives it back. It is modelled as a counter, and a run
    of concurrent evaluators as a trace of acquire and release events. */
module PermitPool {
  import opened Wrappers

  /** `cap` slots, `inUse` of them taken. */
  datatype Pool = Pool(cap: nat, inUse: nat)

  predicate Valid(p: Pool)
  {
    p.inUse <= p.cap
  }

  /** `make(chan struct{}, cap)`: an empty channel. */
  function NewPool(cap: nat): (p: Pool)
    ensures Valid(p) && p.inUse == 0 && p.cap == cap
  {
    Pool(cap, 0)
  }

  /** A send on the channel succeeds only when a slot is free. */
  function TryAcquire(p: Pool): (r: (bool, Pool))
    ensures r.0 <==> p.inUse < p.cap
    ensures r.0 ==> r.1 == Pool(p.cap, p.inUse + 1)
    ensures !r.0 ==> r.1 == p
    ensures Valid(p) ==> Valid(r.1)
  {
    if p.inUse < p.cap then (true, Pool(p.cap, p.inUse + 1)) else (false, p)
  }

  /** A receive frees one slot. */
  function Release(p: Pool): (p': Pool)
    requires p.inUse > 0
    ensures p'.cap == p.cap && p'.inUse + 1 == p.inUse
    ensures Valid(p) ==> Valid(p')
  {
    Pool(p.cap, p.inUse - 1)
  }

  /** Releasing a permit just acquired restores the pool. */
  lemma AcquireThenRelease(p: Pool)
    requires p.inUse < p.cap
    ensures TryAcquire(p).0 && Release(TryAcquire(p).1) == p
  {
  }

  /** An evaluator goroutine takes a permit or gives one back. */
  datatype Event = Acquire(worker: nat) | Give(worker: nat)

  /** The pool together with the evaluators that currently hold a permit. */
  datatype Gate = Gate(pool: Pool, holders: set<nat>)

  /** Each permit in use belongs to exactly one holder, and the pool is within capacity. */
  predicate Consistent(g: Gate)
  {
    Valid(g.pool) && g.pool.inUse == |g.holders|
  }

  /** One event, or `None` when the event cannot happen: an acquire with no
      free slot blocks, an evaluator never acquires twice, and only a holder
      releases (the release is deferred right after its acquire). */
  function Step(g: Gate, e: Event): Option<Gate>
  {
    match e
    case Acquire(w) =>
      var (ok, p') := TryAcquire(g.pool);
      if ok && w !in g.holders then Some(Gate(p', g.holders + {w})) else None
    case Give(w) =>
      if w in g.holders && g.pool.inUse > 0 then Some(Gate(Release(g.pool), g.holders - {w})) else None
  }

  /** Plays a trace from `g`; `None` if some event in it cannot happen. */
  function Replay(g: Gate, trace: seq<Event>): Option<Gate>
    decreases |trace|
  {
    if |trace| == 0 then Some(g)
    else match Step(g, trace[0])
      case None => None
      case Some(g1) => Replay(g1, trace[1..])
  }

  /** How many times `e` occurs in `trace`. */
  function Occurrences(trace: seq<Event>, e: Event): nat
    decreases |trace|
  {
    if |trace| == 0 then 0 else (if trace[0] == e then 1 else 0) + Occurrences(trace[1..], e)
  }

  /** A step keeps the gate consistent, so the pool never exceeds its capacity. */
  lemma StepConsistent(g: Gate, e: Event)
    requires Consistent(g)
    requires Step(g, e).Some?
    ensures Consistent(Step(g, e).value)
  {
    match e
    case Acquire(w) =>
      assert |g.holders + {w}| == |g.holders| + 1;
    case Give(w) =>
      assert |g.holders - {w}| == |g.holders| - 1;
  }

  /** After any trace that can happen, the permits in use are at most the
      capacity and equal the number of holders. */
  lemma {:induction false} ReplayConsistent(g: Gate, trace: seq<Event>)
    requires Consistent(g)
    requires Replay(g, trace).Some?
    ensures Consistent(Replay(g, trace).value)
    ensures Replay(g, trace).value.pool.inUse <= g.pool.cap
    ensures Replay(g, trace).value.pool.cap == g.pool.cap
    decreases |trace|
  {
    if |trace| > 0 {
      var g1 := Step(g, trace[0]).value;
      StepConsistent(g, trace[0]);
      ReplayConsistent(g1, trace[1..]);
    }
  }

  /** Every prefix of a trace that can happen can happen too, so the bound
      holds at every instant, not only at the end. */
  lemma {:induction false} ReplayPrefix(g: Gate, trace: seq<Event>, k: nat)
    requires Consistent(g)
    requires Replay(g, trace).Some?
    requires k <= |trace|
    ensures Replay(g, trace[..k]).Some?
    ensures Replay(g, trace[..k]).value.pool.inUse <= g.pool.cap
    decreases k
  {
    if k > 0 {
      var g1 := Step(g, trace[0]).value;
      StepConsistent(g, trace[0]);
      assert trace[..k][1..] == trace[1..][..k - 1];
      ReplayPrefix(g1, trace[1..], k - 1);
    }
    ReplayConsistent(g, trace[..k]);
  }

  function Indicator(b: bool): int
  {
    if b then 1 else 0
  }

  /** Acquires and releases pair up: over any trace that can happen, each
      evaluator's acquires exceed its releases by exactly the change in
      whether it holds a permit. */
  lemma {:induction false} AcquiresPairWithReleases(g: Gate, trace: seq<Event>, w: nat)
    requires Replay(g, trace).Some?
    ensures Occurrences(trace, Acquire(w)) - Occurrences(trace, Give(w))
         == Indicator(w in Replay(g, trace).value.holders) - Indicator(w in g.holders)
    decreases |trace|
  {
    if |trace| > 0 {
      var g1 := Step(g, trace[0]).value;
      AcquiresPairWithReleases(g1, trace[1..], w);
    }
  }

  /** A trace that starts and ends with no permits held has, for every
      evaluator, exactly one release per acquire. */
  lemma BalancedTrace(g: Gate, trace: seq<Event>, w: nat)
    requires Replay(g, trace).Some?
    requires g.holders == {} && Replay(g, trace).value.holders == {}
    ensures Occurrences(trace, Acquire(w)) == Occurrences(trace, Give(w))
  {
    AcquiresPairWithReleases(g, trace, w);
  }
}
