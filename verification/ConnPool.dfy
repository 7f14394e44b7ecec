/** The per-cluster connection-creation budget with its bounded FIFO wait-queue
    (internal/cluster/connpool.go). Every function below is one critical section of `mu`. */
module ConnBudget {
  import opened Options
  import opened Seqs

  /** A pending request, named by its one-slot wake channel. */
  type Waiter = nat

  /** A cluster without circuit_breakers has no budget: every reservation succeeds. */
  datatype Cap = Unlimited | AtMost(limit: nat)

  datatype Pool = Pool(
    cap: Cap,
    maxPending: nat,
    active: int,
    waiters: seq<Waiter>,
    cxOpen: bool,
    rqPendingOpen: bool,
    pendingActive: int,
    cxOverflow: nat,
    pendingTotal: nat,
    pendingOverflow: nat)

  datatype Outcome = Permit | Pending | Overflow

  predicate UnderCap(p: Pool) {
    p.cap.Unlimited? || p.active < p.cap.limit
  }

  function Init(cap: Cap, maxPending: nat): Pool {
    Pool(cap, maxPending, 0, [], false, false, 0, 0, 0, 0)
  }

  function Reserve(p: Pool): Pool {
    var q := p.(active := p.active + 1);
    if UnderCap(q) then q else q.(cxOpen := true)
  }

  function Refuse(p: Pool): Pool {
    p.(cxOpen := true, cxOverflow := p.cxOverflow + 1)
  }

  function TryAcquire(p: Pool): (Pool, bool) {
    if UnderCap(p) then (Reserve(p), true) else (Refuse(p), false)
  }

  function AcquireOrPend(p: Pool, w: Waiter): (Pool, Outcome) {
    if UnderCap(p) then (Reserve(p), Permit)
    else
      var q := Refuse(p);
      if |q.waiters| >= q.maxPending then (q.(pendingOverflow := q.pendingOverflow + 1), Overflow)
      else
        var e := q.(waiters := q.waiters + [w],
                    pendingActive := q.pendingActive + 1,
                    pendingTotal := q.pendingTotal + 1);
        (if |e.waiters| >= e.maxPending then e.(rqPendingOpen := true) else e, Pending)
  }

  function ClearPendingOpen(p: Pool): Pool {
    if |p.waiters| < p.maxPending then p.(rqPendingOpen := false) else p
  }

  /** releaseConn: hand the permit to the head waiter, or give it back to the budget. */
  function Release(p: Pool): (Pool, Option<Waiter>) {
    if |p.waiters| > 0 then
      (ClearPendingOpen(p.(waiters := p.waiters[1..], pendingActive := p.pendingActive - 1)),
       Some(p.waiters[0]))
    else
      var q := p.(active := p.active - 1);
      (if UnderCap(q) then q.(cxOpen := false) else q, None)
  }

  /** The clean half of a cancel: the waiter is still queued and leaves the queue. */
  function Withdraw(p: Pool, w: Waiter): Pool {
    ClearPendingOpen(p.(waiters := Without(p.waiters, w), pendingActive := p.pendingActive - 1))
  }

  // ---------------------------------------------------------------------------
  // Whole runs of one pool
  // ---------------------------------------------------------------------------

  /** A pool with its ledger: `held` permits are in callers' hands, `tokens` are permits sitting
      in wake channels, and the three histories record enqueues, hand-offs and clean cancels. */
  datatype Ledger = Ledger(
    pool: Pool,
    held: int,
    tokens: set<Waiter>,
    enqueued: seq<Waiter>,
    handed: seq<Waiter>,
    withdrawn: set<Waiter>)

  datatype Event =
    | Acquire(w: Waiter)     // acquireConnOrPend up to its unlock
    | TryReserve             // tryAcquireConnSlot
    | Receive(w: Waiter)     // the waiter takes its permit off the channel
    | Cancel(w: Waiter)      // ctx fired while pending, racing a hand-off or not
    | GiveBack               // releaseConn by a permit holder

  predicate Enabled(s: Ledger, e: Event) {
    match e
    case Acquire(w) => w !in s.enqueued
    case TryReserve => true
    case Receive(w) => w in s.tokens
    case Cancel(w) => w in s.pool.waiters || w in s.tokens
    case GiveBack => s.held > 0
  }

  function Returned(s: Ledger): Ledger {
    var (p, next) := Release(s.pool);
    match next
    case None => s.(pool := p)
    case Some(w) => s.(pool := p, tokens := s.tokens + {w}, handed := s.handed + [w])
  }

  function Step(s: Ledger, e: Event): Ledger
    requires Enabled(s, e)
  {
    match e
    case Acquire(w) =>
      var (p, out) := AcquireOrPend(s.pool, w);
      (match out
       case Permit => s.(pool := p, held := s.held + 1)
       case Overflow => s.(pool := p)
       case Pending => s.(pool := p, enqueued := s.enqueued + [w]))
    case TryReserve =>
      var (p, ok) := TryAcquire(s.pool);
      if ok then s.(pool := p, held := s.held + 1) else s.(pool := p)
    case Receive(w) => s.(tokens := s.tokens - {w}, held := s.held + 1)
    case Cancel(w) =>
      if w in s.pool.waiters then s.(pool := Withdraw(s.pool, w), withdrawn := s.withdrawn + {w})
      else Returned(s.(tokens := s.tokens - {w}))
    case GiveBack => Returned(s.(held := s.held - 1))
  }

  ghost predicate Conserved(s: Ledger) {
    && s.held >= 0
    && s.pool.active == s.held + |s.tokens|
    && (s.pool.cap.AtMost? ==> s.pool.active <= s.pool.cap.limit)
  }

  ghost predicate Fifo(s: Ledger) {
    && NoDup(s.enqueued)
    && Keep(s.enqueued, s.withdrawn) == s.handed + s.pool.waiters
    && (forall w :: w in s.tokens ==> w in s.handed)
    && (forall w :: w in s.withdrawn ==> w in s.enqueued)
  }

  ghost predicate Queue(p: Pool) {
    && NoDup(p.waiters)
    && |p.waiters| <= p.maxPending
    && (p.waiters != [] ==> p.cap.AtMost? && p.active >= p.cap.limit)
    && p.pendingActive == |p.waiters|
  }

  ghost predicate Signals(p: Pool) {
    && (p.cap.AtMost? && p.cap.limit > 0 ==> (p.cxOpen <==> p.active >= p.cap.limit))
    && (p.cap.Unlimited? ==> !p.cxOpen)
    && (p.maxPending > 0 ==> (p.rqPendingOpen <==> |p.waiters| >= p.maxPending))
  }

  ghost predicate Inv(s: Ledger) {
    Conserved(s) && Fifo(s) && Queue(s.pool) && Signals(s.pool) && s.pool.pendingTotal == |s.enqueued|
  }

  lemma ReturnedKeeps(s: Ledger)
    requires s.held >= 0 && s.pool.active == s.held + |s.tokens| + 1
    requires s.pool.cap.AtMost? ==> s.pool.active <= s.pool.cap.limit
    requires Fifo(s) && Queue(s.pool) && Signals(s.pool) && s.pool.pendingTotal == |s.enqueued|
    ensures Inv(Returned(s))
  {
    if s.pool.waiters != [] {
      var w := s.pool.waiters[0];
      KeepMembers(s.enqueued, s.withdrawn);
      assert s.handed + s.pool.waiters == s.handed + [w] + s.pool.waiters[1..];
      NoDupSplit(s.handed, s.pool.waiters, w);
      assert w !in s.tokens;
    }
  }

  lemma AcquireKeeps(s: Ledger, w: Waiter)
    requires Inv(s) && w !in s.enqueued
    ensures Inv(Step(s, Acquire(w)))
  {
    KeepMembers(s.enqueued, s.withdrawn);
    KeepAppend(s.enqueued, w, s.withdrawn);
    var s' := Step(s, Acquire(w));
    if AcquireOrPend(s.pool, w).1.Pending? {
      assert w !in s.handed + s.pool.waiters;
      NoDupAppend(s.enqueued, w);
      NoDupAppend(s.pool.waiters, w);
      assert s'.handed + s'.pool.waiters == (s.handed + s.pool.waiters) + [w];
    }
  }

  lemma WithdrawKeeps(s: Ledger, w: Waiter)
    requires Inv(s) && w in s.pool.waiters
    ensures Inv(Step(s, Cancel(w)))
  {
    KeepMembers(s.enqueued, s.withdrawn);
    assert w in s.handed + s.pool.waiters;
    NoDupSplit(s.handed, s.pool.waiters, w);
    KeepDrop(s.enqueued, s.withdrawn, w);
    WithoutSuffix(s.handed, s.pool.waiters, w);
    WithoutMembers(s.pool.waiters, w);
  }

  lemma StepKeeps(s: Ledger, e: Event)
    requires Inv(s) && Enabled(s, e)
    ensures Inv(Step(s, e))
  {
    match e
    case Acquire(w) => AcquireKeeps(s, w);
    case TryReserve =>
    case Receive(w) =>
    case Cancel(w) =>
      if w in s.pool.waiters {
        WithdrawKeeps(s, w);
      } else {
        ReturnedKeeps(s.(tokens := s.tokens - {w}));
      }
    case GiveBack => ReturnedKeeps(s.(held := s.held - 1));
  }

  /** The state after a sequence of events, None when some event was not possible. */
  function Run(s: Ledger, es: seq<Event>): (r: Option<Ledger>)
    decreases es
  {
    if es == [] then Some(s)
    else if !Enabled(s, es[0]) then None
    else Run(Step(s, es[0]), es[1..])
  }

  lemma {:induction false} RunKeeps(s: Ledger, es: seq<Event>)
    requires Inv(s) && Run(s, es).Some?
    ensures Inv(Run(s, es).value)
    decreases es
  {
    if es == [] {
    } else {
      StepKeeps(s, es[0]);
      RunKeeps(Step(s, es[0]), es[1..]);
    }
  }

  lemma {:induction false} RunSettings(s: Ledger, es: seq<Event>)
    requires Run(s, es).Some?
    ensures var t := Run(s, es).value; t.pool.cap == s.pool.cap && t.pool.maxPending == s.pool.maxPending
    decreases es
  {
    if es == [] {
    } else {
      StepSettings(s, es[0]);
      hide Step, Enabled;
      RunSettings(Step(s, es[0]), es[1..]);
    }
  }

  lemma StepSettings(s: Ledger, e: Event)
    requires Enabled(s, e)
    ensures var t := Step(s, e); t.pool.cap == s.pool.cap && t.pool.maxPending == s.pool.maxPending
  {
  }

  function Unused(cap: Cap, maxPending: nat): Ledger {
    Ledger(Init(cap, maxPending), 0, {}, [], [], {})
  }

  /** From an unused pool, over every interleaving: no permit is lost or duplicated, the cap is
      never exceeded, nobody barges past a queued waiter, hand-offs are exactly the enqueues minus
      the clean cancels in order, and the two soft signals say what they claim to. */
  lemma PoolSafety(cap: Cap, maxPending: nat, es: seq<Event>)
    requires Run(Unused(cap, maxPending), es).Some?
    ensures var s := Run(Unused(cap, maxPending), es).value;
            && s.pool.active == s.held + |s.tokens| && s.held >= 0
            && (cap.AtMost? ==> s.pool.active <= cap.limit)
            && (s.pool.waiters != [] ==> cap.AtMost? && s.pool.active == cap.limit)
            && |s.pool.waiters| <= maxPending && s.pool.pendingActive == |s.pool.waiters|
            && NoDup(s.enqueued) && s.handed + s.pool.waiters == Keep(s.enqueued, s.withdrawn)
            && (forall w :: w in s.tokens ==> w in s.handed)
            && s.pool.pendingTotal == |s.enqueued|
            && (cap.AtMost? && cap.limit > 0 ==> (s.pool.cxOpen <==> s.pool.active == cap.limit))
            && (maxPending > 0 ==> (s.pool.rqPendingOpen <==> |s.pool.waiters| == maxPending))
  {
    hide Run;
    assert Inv(Unused(cap, maxPending));
    RunKeeps(Unused(cap, maxPending), es);
    RunSettings(Unused(cap, maxPending), es);
  }

  // ---------------------------------------------------------------------------
  // Who gets in
  // ---------------------------------------------------------------------------

  /** The permits are all taken. */
  predicate AtCap(p: Pool) {
    p.cap.AtMost? && p.active >= p.cap.limit
  }

  /** acquireConnOrPend: a permit exactly while one is left, an overflow exactly when there is none and
      the queue is full, and otherwise a place at the end of the queue. */
  lemma OutcomeMeans(p: Pool, w: Waiter)
    ensures var (q, out) := AcquireOrPend(p, w);
            && (out.Permit? <==> !AtCap(p))
            && (out.Overflow? <==> AtCap(p) && |p.waiters| >= p.maxPending)
            && q.active == p.active + (if out.Permit? then 1 else 0)
            && q.waiters == p.waiters + (if out.Pending? then [w] else [])
            && q.cxOverflow == p.cxOverflow + (if AtCap(p) then 1 else 0)
            && q.pendingOverflow == p.pendingOverflow + (if out.Overflow? then 1 else 0)
            && q.pendingTotal == p.pendingTotal + (if out.Pending? then 1 else 0)
  {
  }

  /** tryAcquireConnSlot: succeeds exactly while a permit is left and never queues. */
  lemma TryMeans(p: Pool)
    ensures var (q, ok) := TryAcquire(p);
            && (ok <==> !AtCap(p)) && q.active == p.active + (if ok then 1 else 0) && q.waiters == p.waiters
            && q.cxOverflow == p.cxOverflow + (if ok then 0 else 1) && q.pendingOverflow == p.pendingOverflow
  {
  }

  /** How many events of a run found the permits all taken. */
  function CapHits(s: Ledger, es: seq<Event>): nat
    decreases es
  {
    if es == [] || !Enabled(s, es[0]) then 0
    else (if (es[0].Acquire? || es[0].TryReserve?) && AtCap(s.pool) then 1 else 0) + CapHits(Step(s, es[0]), es[1..])
  }

  /** How many acquires of a run also found the queue full. */
  function QueueHits(s: Ledger, es: seq<Event>): nat
    decreases es
  {
    if es == [] || !Enabled(s, es[0]) then 0
    else (if es[0].Acquire? && AtCap(s.pool) && |s.pool.waiters| >= s.pool.maxPending then 1 else 0)
         + QueueHits(Step(s, es[0]), es[1..])
  }

  lemma StepOverflows(s: Ledger, e: Event)
    requires Enabled(s, e)
    ensures var t := Step(s, e);
            && t.pool.cxOverflow == s.pool.cxOverflow + (if (e.Acquire? || e.TryReserve?) && AtCap(s.pool) then 1 else 0)
            && t.pool.pendingOverflow
               == s.pool.pendingOverflow + (if e.Acquire? && AtCap(s.pool) && |s.pool.waiters| >= s.pool.maxPending then 1 else 0)
  {
  }

  /** The overflow counters count exactly those refusals. */
  lemma {:induction false} OverflowsCounted(s: Ledger, es: seq<Event>)
    requires Run(s, es).Some?
    ensures var t := Run(s, es).value;
            && t.pool.cxOverflow == s.pool.cxOverflow + CapHits(s, es)
            && t.pool.pendingOverflow == s.pool.pendingOverflow + QueueHits(s, es)
    decreases es
  {
    hide Step, Enabled;
    if es == [] {
    } else {
      StepOverflows(s, es[0]);
      OverflowsCounted(Step(s, es[0]), es[1..]);
    }
  }

  function Min(x: int, y: int): int { if x < y then x else y }

  /** The pool after k acquires and nothing else. */
  ghost predicate Filled(p: Pool, cap: nat, maxPending: nat, k: nat) {
    var rest := k - Min(k, cap);
    && p.cap == AtMost(cap) && p.maxPending == maxPending && p.active == Min(k, cap)
    && |p.waiters| == Min(rest, maxPending) && p.pendingOverflow == rest - |p.waiters| && p.cxOverflow == rest
  }

  lemma FillOne(s: Ledger, cap: nat, maxPending: nat, k: nat, e: Event)
    requires Filled(s.pool, cap, maxPending, k) && e.Acquire? && Enabled(s, e)
    ensures Filled(Step(s, e).pool, cap, maxPending, k + 1)
  {
    OutcomeMeans(s.pool, e.w);
    hide AcquireOrPend, Enabled;
  }

  lemma {:induction false} FillMore(s: Ledger, cap: nat, maxPending: nat, k: nat, es: seq<Event>)
    requires Filled(s.pool, cap, maxPending, k) && Run(s, es).Some? && forall i :: 0 <= i < |es| ==> es[i].Acquire?
    ensures Filled(Run(s, es).value.pool, cap, maxPending, k + |es|)
    decreases es
  {
    hide Step, Enabled, Filled;
    if es == [] {
    } else {
      FillOne(s, cap, maxPending, k, es[0]);
      FillMore(Step(s, es[0]), cap, maxPending, k + 1, es[1..]);
    }
  }

  /** From an unused pool, K acquires without a give-back: min(K, cap) permits, then min(maxPending, rest)
      in the queue, and the remainder overflows. */
  lemma FillTheorem(cap: nat, maxPending: nat, es: seq<Event>)
    requires Run(Unused(AtMost(cap), maxPending), es).Some? && forall i :: 0 <= i < |es| ==> es[i].Acquire?
    ensures var p := Run(Unused(AtMost(cap), maxPending), es).value.pool;
            var rest := |es| - Min(|es|, cap);
            && p.active == Min(|es|, cap) && |p.waiters| == Min(rest, maxPending) && p.pendingOverflow == rest - |p.waiters|
  {
    hide Run;
    FillMore(Unused(AtMost(cap), maxPending), cap, maxPending, 0, es);
  }

  // ---------------------------------------------------------------------------
  // The object itself
  // ---------------------------------------------------------------------------

  /** connPool: fields updated in place under `mu`; each method is one critical section. */
  class ConnPool {
    const maxConnections: nat
    const maxPendingRequests: nat
    var activeConns: int
    var waiters: seq<Waiter>
    var cxOpen: bool
    var rqPendingOpen: bool
    var pendingActive: int
    var cxOverflow: nat
    var pendingTotal: nat
    var pendingOverflow: nat

    function View(): Pool
      reads this
    {
      Pool(AtMost(maxConnections), maxPendingRequests, activeConns, waiters, cxOpen, rqPendingOpen,
           pendingActive, cxOverflow, pendingTotal, pendingOverflow)
    }

    constructor (maxConnections: nat, maxPendingRequests: nat)
      ensures View() == Init(AtMost(maxConnections), maxPendingRequests)
    {
      this.maxConnections, this.maxPendingRequests := maxConnections, maxPendingRequests;
      activeConns, waiters, pendingActive := 0, [], 0;
      cxOpen, rqPendingOpen := false, false;
      cxOverflow, pendingTotal, pendingOverflow := 0, 0, 0;
    }

    method TryAcquireConnSlot() returns (ok: bool)
      modifies this
      ensures (View(), ok) == TryAcquire(old(View()))
    {
      if activeConns < maxConnections {
        activeConns := activeConns + 1;
        if activeConns >= maxConnections {
          cxOpen := true;
        }
        return true;
      }
      cxOpen, cxOverflow := true, cxOverflow + 1;
      return false;
    }

    /** acquireConnOrPend up to the point where it either returns or waits on its channel. */
    method AcquireConn(w: Waiter) returns (out: Outcome)
      modifies this
      ensures (View(), out) == AcquireOrPend(old(View()), w)
    {
      if activeConns < maxConnections {
        activeConns := activeConns + 1;
        if activeConns >= maxConnections {
          cxOpen := true;
        }
        return Permit;
      }
      cxOpen, cxOverflow := true, cxOverflow + 1;
      if |waiters| >= maxPendingRequests {
        pendingOverflow := pendingOverflow + 1;
        return Overflow;
      }
      waiters := waiters + [w];
      pendingActive, pendingTotal := pendingActive + 1, pendingTotal + 1;
      if |waiters| >= maxPendingRequests {
        rqPendingOpen := true;
      }
      return Pending;
    }

    method ReleaseConn() returns (next: Option<Waiter>)
      modifies this
      ensures (View(), next) == Release(old(View()))
    {
      if |waiters| > 0 {
        next := Some(waiters[0]);
        waiters := waiters[1..];
        pendingActive := pendingActive - 1;
        ClearRqPendingOpenLocked();
        return;
      }
      activeConns := activeConns - 1;
      if activeConns < maxConnections {
        cxOpen := false;
      }
      next := None;
    }

    method ClearRqPendingOpenLocked()
      modifies this`rqPendingOpen
      ensures View() == ClearPendingOpen(old(View()))
    {
      if |waiters| < maxPendingRequests {
        rqPendingOpen := false;
      }
    }

    method RemoveWaiterLocked(w: Waiter) returns (found: bool)
      modifies this`waiters
      ensures found <==> w in old(waiters)
      ensures waiters == Without(old(waiters), w)
    {
      var i := 0;
      while i < |waiters|
        invariant 0 <= i <= |waiters| && waiters == old(waiters)
        invariant w !in waiters[..i]
      {
        if waiters[i] == w {
          WithoutAt(waiters, i);
          waiters := waiters[..i] + waiters[i + 1..];
          return true;
        }
        i := i + 1;
      }
      assert waiters[..i] == waiters;
      WithoutAbsent(waiters, w);
      return false;
    }

    /** The ctx.Done arm: a clean cancel leaves the queue; otherwise a permit is on its way and is
        given back, which may wake the next waiter. */
    method CancelPending(w: Waiter) returns (clean: bool, next: Option<Waiter>)
      modifies this
      ensures clean <==> w in old(waiters)
      ensures clean ==> View() == Withdraw(old(View()), w) && next == None
      ensures !clean ==> (View(), next) == Release(old(View()))
    {
      clean := RemoveWaiterLocked(w);
      if clean {
        pendingActive := pendingActive - 1;
        ClearRqPendingOpenLocked();
        next := None;
      } else {
        WithoutAbsent(old(waiters), w);
        next := ReleaseConn();
      }
    }
  }
}
