/** The conservation laws of the upstream pools, stated over every run from an unused cluster. */
module H2Theorems {
  import opened Options
  import opened Seqs
  import opened H2Machine
  import opened H2Ledger
  import opened H2Invariant
  import opened H2Safety
  import B = ConnBudget

  lemma ReachableInv(c: nat, cap: B.Cap, maxPending: nat, es: seq<Event>)
    requires c >= 1 && Run(Init(c, cap, maxPending), es).Some?
    ensures Inv(Run(Init(c, cap, maxPending), es).value)
  {
    var s := Init(c, cap, maxPending);
    assert PermitReqs(s.reqs) == {} && OpenConns(s.conns) == {} && StreamReqs(s.reqs, s.entries) == {};
    assert QueuedReqs(s.reqs) == {};
    forall h ensures PickDebt(s, h) == 0 {
      assert PickReqs(s.reqs, h) == {} && OpenOn(s.conns, h) == {};
    }
    hide Run, Balanced, Shape, Slots;
    RunKeeps(s, es);
  }

  /** No step changes the settings of the cluster. */
  lemma {:induction false} RunLimits(s: State, es: seq<Event>)
    requires Run(s, es).Some?
    ensures SameLimits(s, Run(s, es).value)
    decreases es
  {
    hide Step, Enabled;
    if es == [] {
    } else {
      RunLimits(Step(s, es[0]), es[1..]);
    }
  }

  /** Permits: the budget counts exactly the dials in flight, the permits on their way to a waiter
      and the connections whose close has not run, and never leaves 0..max_connections. */
  lemma PermitConservation(c: nat, cap: B.Cap, maxPending: nat, es: seq<Event>)
    requires c >= 1 && Run(Init(c, cap, maxPending), es).Some?
    ensures var s := Run(Init(c, cap, maxPending), es).value;
            && s.pool.active == |PermitReqs(s.reqs)| + |OpenConns(s.conns)|
            && 0 <= s.pool.active
            && s.pool.cap == cap && (cap.AtMost? ==> s.pool.active <= cap.limit)
            && s.cxActive == |OpenConns(s.conns)|
  {
    hide Run, Shape, Slots;
    ReachableInv(c, cap, maxPending, es);
    RunLimits(Init(c, cap, maxPending), es);
  }

  /** Stream slots: a connecting entry's promises and a pooled connection's in-flight count are
      exactly the slots held on it and stay within 0..C; streams_active is every slot outstanding,
      those on evicted connections included. */
  lemma SlotConservation(c: nat, cap: B.Cap, maxPending: nat, es: seq<Event>, l: Link)
    requires c >= 1 && Run(Init(c, cap, maxPending), es).Some?
    ensures var s := Run(Init(c, cap, maxPending), es).value;
            && s.streamsActive == |StreamReqs(s.reqs, s.entries)|
            && s.maxStreams == c
            && (l in s.entries && s.entries[l].status.Connecting? ==>
                  0 <= s.entries[l].promised == |SlotReqs(s.reqs, s.entries, l)| <= c)
            && (Pooled(s, l) ==>
                  l in s.conns && 0 <= s.conns[l].inFlight == |SlotReqs(s.reqs, s.entries, l)| <= c)
            && (l in s.entries && s.entries[l].status.Ready? ==>
                  l in s.conns && s.conns[l].inFlight >= |SlotReqs(s.reqs, s.entries, l)|)
  {
    hide Run;
    ReachableInv(c, cap, maxPending, es);
    RunLimits(Init(c, cap, maxPending), es);
    var s := Run(Init(c, cap, maxPending), es).value;
    if l in s.entries {
      assert SlotOk(s, l);
      if Pooled(s, l) {
        InPool(s, s.entries[l].addr, l);
      } else if s.entries[l].status.Ready? {
        ReadyConn(s, l);
      }
    }
  }

  /** Picks: the load of each host is the calls that still owe their release plus the open
      connections that took one over, so it is never negative and no release is lost. */
  lemma PickConservation(c: nat, cap: B.Cap, maxPending: nat, es: seq<Event>, h: Host)
    requires c >= 1 && Run(Init(c, cap, maxPending), es).Some?
    ensures var s := Run(Init(c, cap, maxPending), es).value;
            Load(s.lbActive, h) == |PickReqs(s.reqs, h)| + |OpenOn(s.conns, h)| && Load(s.lbActive, h) >= 0
  {
    hide Run, Shape, Slots;
    ReachableInv(c, cap, maxPending, es);
    assert PickDebt(Run(Init(c, cap, maxPending), es).value, h) == 0;
  }

  /** Every call has returned and every connection was closed; a caller that got an HTTP/1.1 connection
      and closed it has nothing more to do. */
  ghost predicate Quiescent(s: State) {
    && (forall r :: r in s.reqs ==> s.reqs[r].phase.Done? || s.reqs[r].phase.H1Holding?)
    && (forall l :: l in s.conns ==> s.conns[l].released)
  }

  lemma NobodyHolds(s: State, h: Host)
    requires Quiescent(s)
    ensures PermitReqs(s.reqs) == {} && OpenConns(s.conns) == {} && StreamReqs(s.reqs, s.entries) == {}
    ensures QueuedReqs(s.reqs) == {} && PickReqs(s.reqs, h) == {} && OpenOn(s.conns, h) == {}
  {
  }

  lemma NobodyWaits(s: State)
    requires Inv(s) && Quiescent(s)
    ensures s.pool.waiters == []
  {
    hide Inv;
    if s.pool.waiters != [] {
      HeadQueued(s);
      assert false;
    }
  }

  lemma HeadQueued(s: State)
    requires Inv(s) && s.pool.waiters != []
    ensures s.pool.waiters[0] in s.reqs && s.reqs[s.pool.waiters[0]].phase.H1Queued?
  {
    hide Accounts;
    assert s.pool.waiters[0] in s.pool.waiters;
  }

  lemma BooksBalance(s: State, h: Host)
    requires Inv(s)
    ensures PermitDebt(s) == 0 && StreamDebt(s) == 0 && CxDebt(s) == 0 && PickDebt(s, h) == 0
    ensures s.pool.pendingActive == |s.pool.waiters| + |QueuedReqs(s.reqs)|
  {
    hide Shape, PermitDebt, StreamDebt, CxDebt, PickDebt;
  }

  /** Then nothing is left over. */
  lemma QuiescentIsEmpty(c: nat, cap: B.Cap, maxPending: nat, es: seq<Event>, h: Host)
    requires c >= 1 && Run(Init(c, cap, maxPending), es).Some? && Quiescent(Run(Init(c, cap, maxPending), es).value)
    ensures var s := Run(Init(c, cap, maxPending), es).value;
            && s.pool.active == 0 && s.streamsActive == 0 && s.cxActive == 0 && s.pool.pendingActive == 0
            && Load(s.lbActive, h) == 0
  {
    hide Run, Inv, Quiescent;
    ReachableInv(c, cap, maxPending, es);
    var s := Run(Init(c, cap, maxPending), es).value;
    NobodyHolds(s, h);
    NobodyWaits(s);
    BooksBalance(s, h);
  }

  // ---------------------------------------------------------------------------
  // Admission
  // ---------------------------------------------------------------------------

  predicate Established(s: State, l: Link) {
    l in s.entries && s.entries[l].status.Ready?
  }

  /** One more stream is counted on connection l. */
  predicate Admits(s: State, t: State, l: Link) {
    l in s.conns && l in t.conns && t.conns[l].inFlight > s.conns[l].inFlight
  }

  lemma AcquireAdmits(s: State, q: ReqId, k: Link, l: Link)
    requires Inv(s) && q in s.reqs && Unused(s, k) && Admits(s, AcquireStep(s, q, k), l)
    ensures Pooled(s, l) && Live(s, l)
  {
    hide Inv, FirstLive, FirstSpare, AcquireStep, Pooled, Live, Admits;
    AcquireConns(s, q, k);
    var live := FirstLive(s, At(s.h2Pool, s.reqs[q].addr));
    if live.Some? {
      InPool(s, s.reqs[q].addr, live.value);
      HitAdmits(s, q, live.value, l);
    } else {
      SameConnsAdmitNobody(s, AcquireStep(s, q, k), l);
      assert false;
    }
  }

  /** Only a hit touches a connection. */
  lemma AcquireConns(s: State, q: ReqId, k: Link)
    requires q in s.reqs
    ensures var live := FirstLive(s, At(s.h2Pool, s.reqs[q].addr));
            if live.Some? then AcquireStep(s, q, k) == SetPhase(AddStream(s, live.value, 1), q, Hit(live.value))
            else AcquireStep(s, q, k).conns == s.conns
  {
    hide FirstLive, FirstSpare, SetPhase, AddStream, AddPromise, Register, Pended;
    var a := s.reqs[q].addr;
    var t := s.(pool := B.TryAcquire(s.pool).0);
    var spare := FirstSpare(s, At(s.h2Connecting, a));
    if spare.Some? {
      AttachConns(s, spare.value, q);
    }
    RegisterConns(t, q, k);
    PendedConns(t, q, a);
  }

  lemma AttachConns(s: State, l: Link, r: ReqId)
    ensures SetPhase(AddPromise(s, l, 1), r, Attaching(l)).conns == s.conns
  {
    var t := s.(streamsActive := s.streamsActive + 1);
    if l in s.entries {
      var u := t.(entries := s.entries[l := s.entries[l].(promised := s.entries[l].promised + 1)]);
      assert u.conns == s.conns;
    }
  }

  lemma RegisterConns(s: State, r: ReqId, l: Link)
    requires r in s.reqs
    ensures Register(s, r, l).conns == s.conns
  {
  }

  lemma PendedConns(s: State, r: ReqId, a: Addr)
    ensures Pended(s, r, a).conns == s.conns
  {
    hide SetPhase;
    if |At(s.h2Waiters, a)| >= s.pool.maxPending {
      PhaseConns(s.(pool := s.pool.(pendingOverflow := s.pool.pendingOverflow + 1)), r, Exiting);
    } else {
      PhaseConns(s.(h2Waiters := s.h2Waiters[a := At(s.h2Waiters, a) + [r]],
                    pool := s.pool.(pendingActive := s.pool.pendingActive + 1, pendingTotal := s.pool.pendingTotal + 1)),
                 r, Queued);
    }
  }

  lemma PhaseConns(s: State, r: ReqId, p: Phase)
    ensures SetPhase(s, r, p).conns == s.conns
  {
  }

  lemma SameConnsAdmitNobody(s: State, t: State, l: Link)
    requires t.conns == s.conns
    ensures !Admits(s, t, l)
  {
  }

  lemma HitAdmits(s: State, q: ReqId, live: Link, l: Link)
    requires q in s.reqs && Live(s, live) && OnReady(s.entries, s.reqs[q].addr, live) && live in At(s.h2Pool, s.reqs[q].addr)
    requires Admits(s, SetPhase(AddStream(s, live, 1), q, Hit(live)), l)
    ensures Pooled(s, l) && Live(s, l)
  {
    var t := s.(streamsActive := s.streamsActive + 1, conns := s.conns[live := s.conns[live].(inFlight := s.conns[live].inFlight + 1)]);
    assert SetPhase(t, q, Hit(live)).conns == t.conns;
  }

  lemma PromoteAdmits(s: State, a: Addr, l: Link)
    requires Inv(s) && Admits(s, Promote(s.(owed := s.owed - multiset{a}), a), l)
    ensures Pooled(s, l) && Live(s, l)
  {
    hide Inv, FirstLive, Promote, Admits, Pooled;
    var t := s.(owed := s.owed - multiset{a});
    SameLive(s, t, At(s.h2Pool, a));
    var live := FirstLive(s, At(s.h2Pool, a));
    PromoteConns(t, a);
    if live.Some? {
      InPool(s, a, live.value);
      GrantAdmits(s, Promote(t, a), a, live.value, l);
    } else {
      SameConnsAdmitNobody(s, Promote(t, a), l);
      assert false;
    }
  }

  /** A promotion touches at most the first live connection, by one stream. */
  lemma PromoteConns(s: State, a: Addr)
    ensures var live := FirstLive(s, At(s.h2Pool, a));
            var t := Promote(s, a);
            t.conns == s.conns || (live.Some? && t.conns == s.conns[live.value := s.conns[live.value].(inFlight := s.conns[live.value].inFlight + 1)])
  {
    hide SameLimits, FirstLive, SetPhase, AddStream, Dequeue, B.TryAcquire;
    var q := At(s.h2Waiters, a);
    if q == [] {
    } else {
      var live := FirstLive(s, At(s.h2Pool, a));
      if live.Some? {
        DequeueConns(s, a);
        StreamConns(Dequeue(s, a), live.value, 1);
        PhaseConns(AddStream(Dequeue(s, a), live.value, 1), q[0], Sent(StreamGrant(live.value)));
      } else {
        var t := s.(pool := B.TryAcquire(s.pool).0);
        DequeueConns(t, a);
        PhaseConns(Dequeue(t, a), q[0], Sent(DialGrant));
      }
    }
  }

  lemma DequeueConns(s: State, a: Addr)
    requires At(s.h2Waiters, a) != []
    ensures Dequeue(s, a).conns == s.conns
  {
  }

  lemma StreamConns(s: State, l: Link, d: int)
    requires l in s.conns
    ensures AddStream(s, l, d).conns == s.conns[l := s.conns[l].(inFlight := s.conns[l].inFlight + d)]
  {
    var u := s.(streamsActive := s.streamsActive + d, conns := s.conns[l := s.conns[l].(inFlight := s.conns[l].inFlight + d)]);
    assert AddStream(s, l, d) == u;
  }

  lemma GrantAdmits(s: State, t: State, a: Addr, live: Link, l: Link)
    requires Live(s, live) && OnReady(s.entries, a, live) && live in At(s.h2Pool, a) && Admits(s, t, l)
    requires t.conns == s.conns || t.conns == s.conns[live := s.conns[live].(inFlight := s.conns[live].inFlight + 1)]
    ensures Pooled(s, l) && Live(s, l)
  {
  }

  lemma {:induction false} SameLive(s: State, t: State, q: seq<Link>)
    requires t.conns == s.conns && t.maxStreams == s.maxStreams
    ensures FirstLive(t, q) == FirstLive(s, q)
    decreases q
  {
    if q == [] {
    } else {
      SameLive(s, t, q[1..]);
    }
  }

  lemma DialStepsAdmitNobody(s: State, e: Event, l: Link)
    requires Enabled(s, e) && Established(s, l) && Inv(s)
    requires e.DialFails? || e.DialConnects? || e.FinalizeFails? || e.FailEntry? || e.PoolConn? || e.AttachReady? || e.AttachCancel?
    ensures !Admits(s, Step(s, e), l)
  {
    hide SameLimits, Inv, GivePermit, CloseConn;
    RefsOf(s, e.r);
  }

  lemma PickStepsAdmitNobody(s: State, e: Event, l: Link)
    requires Enabled(s, e) && (e.Pick? || e.FirePick?)
    ensures !Admits(s, Step(s, e), l)
  {
    hide Admits, FirePickStep;
    match e
    case Pick(r, h, a, h2) => SameConnsAdmitNobody(s, Step(s, e), l);
    case FirePick(r) =>
      FirePickConns(s, r);
      SameConnsAdmitNobody(s, FirePickStep(s, r), l);
  }

  lemma FirePickConns(s: State, r: ReqId)
    requires r in s.reqs
    ensures FirePickStep(s, r).conns == s.conns
  {
    hide SetPhase;
    PhaseConns(AddLoad(s, s.reqs[r].host, -1), r, AfterPick(s.reqs[r].phase));
  }

  lemma GrantStepsAdmitNobody(s: State, e: Event, l: Link)
    requires Enabled(s, e) && (e.AcceptGrant? || e.UndoOrphan?)
    ensures !Admits(s, Step(s, e), l)
  {
  }

  lemma CancelAdmitsNobody(s: State, r: ReqId, l: Link)
    requires r in s.reqs
    ensures !Admits(s, CancelWaitStep(s, r), l)
  {
    hide GivePermit, SetPhase, AddStream;
    var a := s.reqs[r].addr;
    if r in At(s.h2Waiters, a) {
      PhaseConns(s.(h2Waiters := s.h2Waiters[a := Without(At(s.h2Waiters, a), r)],
                    pool := s.pool.(pendingActive := s.pool.pendingActive - 1)), r, Exiting);
    } else if s.reqs[r].phase.Sent? {
      GiveBackConns(s, r, s.reqs[r].phase.grant, l);
    }
  }

  lemma GiveBackConns(s: State, r: ReqId, g: Grant, l: Link)
    ensures g.StreamGrant? ==> !Admits(s, SetPhase(AddStream(s, g.link, -1), r, Exiting), l)
    ensures SetPhase(s.(streamsActive := s.streamsActive - 1), r, Exiting).conns == s.conns
    ensures SetPhase(GivePermit(s), r, Exiting).conns == s.conns
  {
    hide GivePermit, SetPhase, AddStream;
    if g.StreamGrant? {
      StreamLeaves(s, g.link, l);
      PhaseConns(AddStream(s, g.link, -1), r, Exiting);
    }
    PhaseConns(s.(streamsActive := s.streamsActive - 1), r, Exiting);
    PhaseConns(GivePermit(s), r, Exiting);
  }

  /** Giving a stream back admits nobody. */
  lemma StreamLeaves(s: State, k: Link, l: Link)
    ensures !Admits(s, AddStream(s, k, -1), l)
  {
    if k in s.conns {
      var u := s.(streamsActive := s.streamsActive - 1, conns := s.conns[k := s.conns[k].(inFlight := s.conns[k].inFlight - 1)]);
      assert u.conns[k].inFlight < s.conns[k].inFlight;
    }
  }

  lemma ReleaseAdmitsNobody(s: State, r: ReqId, l: Link)
    requires r in s.reqs && s.reqs[r].phase.Riding?
    ensures !Admits(s, ReleaseStep(s, r), l)
  {
    hide SetPhase, AddStream;
    var k := s.reqs[r].phase.link;
    StreamLeaves(s, k, l);
    PhaseConns(AddStream(s, k, -1), r, Releasing(k));
  }

  lemma ReleaseCheckAdmitsNobody(s: State, r: ReqId, l: Link)
    requires r in s.reqs && s.reqs[r].phase.Releasing?
    ensures !Admits(s, ReleaseCheckStep(s, r), l)
  {
    hide CloseConn;
  }

  lemma PeerAdmitsNobody(s: State, e: Event, l: Link)
    requires Enabled(s, e) && (e.PeerClose? || e.PeerGoAway?)
    ensures !Admits(s, Step(s, e), l)
  {
  }

  lemma EvictAdmitsNobody(s: State, e: Event, l: Link)
    requires Enabled(s, e) && (e.EvictOnError? || e.DrainWatch?)
    ensures !Admits(s, Step(s, e), l)
  {
    hide SameLimits, CloseConn;
    assert Step(s, e) == s || Step(s, e) == Owe(Evict(s, e.addr, e.link), e.addr);
  }

  lemma H1QueueAdmitsNobody(s: State, e: Event, l: Link)
    requires Enabled(s, e) && (e.H1PopIdle? || e.H1Acquire? || e.H1Accept? || e.H1Cancel?)
    ensures !Admits(s, Step(s, e), l)
  {
    hide SameLimits, GivePermit;
  }

  lemma CloseAdmitsNobody(s: State, l: Link, k: Link)
    ensures !Admits(s, CloseConn(s, l), k)
  {
    hide CloseConn;
  }

  lemma H1ConnAdmitsNobody(s: State, e: Event, l: Link)
    requires Enabled(s, e) && (e.H1DialFails? || e.H1DialConnects? || e.H1Close? || e.H1PutIdle?)
    ensures !Admits(s, Step(s, e), l)
  {
    hide SameLimits, GivePermit, CloseConn, SetPhase, Admits;
    match e
    case H1DialFails(r) =>
      PhaseConns(GivePermit(s), r, Exiting);
      SameConnsAdmitNobody(s, SetPhase(GivePermit(s), r, Exiting), l);
    case H1DialConnects(r, k) => ConnectedAdmitsNobody(s, r, k, H1Holding(k), l);
    case H1Close(r) => CloseAdmitsNobody(s, s.reqs[r].phase.link, l);
    case H1PutIdle(r, w) => PutIdleAdmitsNobody(s, r, w, l);
  }

  lemma ConnectedAdmitsNobody(s: State, r: ReqId, k: Link, p: Phase, l: Link)
    requires r in s.reqs && k !in s.conns
    ensures !Admits(s, Connected(s, r, k, p), l)
  {
    hide SetPhase;
    var q := s.reqs[r];
    PhaseConns(s.(conns := s.conns[k := Conn(q.addr, q.host, 0, false, false, false)], cxActive := s.cxActive + 1), r, p);
  }

  lemma PutIdleAdmitsNobody(s: State, r: ReqId, w: bool, l: Link)
    requires r in s.reqs && s.reqs[r].phase.H1Holding?
    ensures !Admits(s, H1PutIdleStep(s, r, w), l)
  {
    hide SetPhase, CloseConn;
    PhaseConns(s, r, Done);
  }

  /** No step counts one more stream on an established connection unless that connection is pooled,
      open, has seen no GOAWAY and has a stream to spare at that moment. */
  lemma AdmissionIsLive(s: State, e: Event, l: Link)
    requires Inv(s) && Enabled(s, e) && Established(s, l) && Admits(s, Step(s, e), l)
    ensures Pooled(s, l) && Live(s, l)
  {
    hide SameLimits, Inv, Promote, AcquireStep, Admits;
    match e
    case Acquire(q, k) => AcquireAdmits(s, q, k, l);
    case DoPromote(a) => PromoteAdmits(s, a, l);
    case CancelWait(r) => CancelAdmitsNobody(s, r, l);
    case Release(r) => ReleaseAdmitsNobody(s, r, l);
    case ReleaseCheck(r) => ReleaseCheckAdmitsNobody(s, r, l);
    case _ => OthersAdmitNobody(s, e, l);
  }

  lemma OthersAdmitNobody(s: State, e: Event, l: Link)
    requires Inv(s) && Enabled(s, e) && !e.Acquire? && !e.DoPromote? && !e.CancelWait? && !e.Release? && !e.ReleaseCheck?
    requires Established(s, l)
    ensures !Admits(s, Step(s, e), l)
  {
    hide Inv, Step, Enabled, Admits;
    if e.DialFails? || e.DialConnects? || e.FinalizeFails? || e.FailEntry? || e.PoolConn? || e.AttachReady? || e.AttachCancel? {
      DialStepsAdmitNobody(s, e, l);
    } else if e.Pick? || e.FirePick? {
      PickStepsAdmitNobody(s, e, l);
    } else if e.AcceptGrant? || e.UndoOrphan? {
      GrantStepsAdmitNobody(s, e, l);
    } else if e.H1PopIdle? || e.H1Acquire? || e.H1Accept? || e.H1Cancel? {
      H1QueueAdmitsNobody(s, e, l);
    } else if e.PeerClose? || e.PeerGoAway? {
      PeerAdmitsNobody(s, e, l);
    } else if e.EvictOnError? || e.DrainWatch? {
      EvictAdmitsNobody(s, e, l);
    } else {
      H1ConnAdmitsNobody(s, e, l);
    }
  }
}
