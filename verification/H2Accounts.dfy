/** Every step keeps the accounts square: permits, stream slots, picks and gauges. */
module H2Accounts {
  import opened Options
  import opened Seqs
  import opened H2Machine
  import opened H2Ledger
  import opened H2Invariant
  import B = ConnBudget

  lemma KeepsSlots(s: State, r: ReqId, p: Phase)
    requires Slots(s) && r in s.reqs && SlotLink(s.reqs[r].phase) == SlotLink(p)
    ensures SlotsOff(s, r, p)
  {
    hide SlotDebt;
    forall l | l in s.entries
      ensures SlotOff(s, l, Ind(HoldsSlot(s.entries, p, l)) - Ind(HoldsSlot(s.entries, s.reqs[r].phase, l)))
    {
      assert SlotOk(s, l);
    }
  }

  lemma PickAccounts(s: State, r: ReqId, h: Host, a: Addr, p: Phase)
    requires Accounts(s) && r !in s.reqs && (p.Picked? || p.H1Picked?)
    ensures Accounts(AddLoad(s, h, 1).(reqs := s.reqs[r := Req(h, a, p)]))
  {
    var q := Req(h, a, p);
    var t := AddLoad(s, h, 1).(reqs := s.reqs[r := q]);
    PermitMove(s.reqs, r, q);
    StreamMove(s.reqs, s.entries, r, q);
    QueuedMove(s.reqs, r, q);
    forall k ensures PickDebt(t, k) == 0 {
      PickMove(s.reqs, r, q, k);
      assert PickDebt(s, k) == 0;
    }
    forall l ensures SlotDebt(t, l) == SlotDebt(s, l) {
      SlotMove(s.reqs, s.entries, r, q, l);
    }
    assert forall l :: Counted(t, l) == Counted(s, l);
    SlotsFrom(s, t);
  }

  /** r takes a slot on l, or gives one back, and nothing else of it changes hands. */
  predicate Trades(p0: Phase, p: Phase, l: Link, d: int) {
    && p0.Queued? == p.Queued?
    && HoldsPermit(p0) == HoldsPermit(p) && HoldsPick(p0) == HoldsPick(p)
    && ((d == 1 && SlotLink(p0).None? && SlotLink(p) == Some(l))
        || (d == -1 && SlotLink(p0) == Some(l) && SlotLink(p).None?))
  }

  lemma StreamSlots(s: State, r: ReqId, l: Link, d: int, p: Phase)
    requires Slots(s) && r in s.reqs && l in s.conns && l in s.entries && s.entries[l].status.Ready?
    requires Trades(s.reqs[r].phase, p, l, d)
    requires d == 1 ==> s.conns[l].inFlight < s.maxStreams
    ensures SlotsOff(AddStream(s, l, d), r, p)
  {
    StreamDebts(s, l, d);
    var u := AddStream(s, l, d);
    forall k | k in u.entries
      ensures SlotOff(u, k, Ind(HoldsSlot(u.entries, p, k)) - Ind(HoldsSlot(u.entries, u.reqs[r].phase, k)))
    {
      assert SlotOk(s, k);
      assert Counted(u, k) == Counted(s, k) + if k == l then d else 0;
    }
  }

  lemma StreamAccounts(s: State, r: ReqId, l: Link, d: int, p: Phase)
    requires Accounts(s) && r in s.reqs && l in s.conns && l in s.entries && s.entries[l].status.Ready?
    requires Trades(s.reqs[r].phase, p, l, d)
    requires d == 1 ==> s.conns[l].inFlight < s.maxStreams
    ensures Accounts(SetPhase(AddStream(s, l, d), r, p))
  {
    hide PermitDebt, StreamDebt, PickDebt, CxDebt, PendDebt, SlotDebt, SlotOk, SlotOff, Counted;
    StreamDebts(s, l, d);
    StreamSlots(s, r, l, d, p);
    Rebalance(AddStream(s, l, d), r, p);
  }

  lemma PromiseSlots(s: State, r: ReqId, l: Link, d: int, p: Phase)
    requires Slots(s) && r in s.reqs && l in s.entries && s.entries[l].status.Connecting?
    requires Trades(s.reqs[r].phase, p, l, d)
    requires d == 1 ==> s.entries[l].promised < s.maxStreams
    ensures SlotsOff(AddPromise(s, l, d), r, p)
  {
    PromiseDebts(s, l, d);
    var u := AddPromise(s, l, d);
    forall k | k in u.entries
      ensures SlotOff(u, k, Ind(HoldsSlot(u.entries, p, k)) - Ind(HoldsSlot(u.entries, u.reqs[r].phase, k)))
    {
      assert SlotOk(s, k);
      assert Counted(u, k) == Counted(s, k) + if k == l then d else 0;
    }
  }

  lemma PromiseAccounts(s: State, r: ReqId, l: Link, d: int, p: Phase)
    requires Accounts(s) && r in s.reqs && l in s.entries && s.entries[l].status.Connecting?
    requires Trades(s.reqs[r].phase, p, l, d)
    requires d == 1 ==> s.entries[l].promised < s.maxStreams
    ensures Accounts(SetPhase(AddPromise(s, l, d), r, p))
  {
    hide PermitDebt, StreamDebt, PickDebt, CxDebt, PendDebt, SlotDebt, SlotOk, SlotOff, Counted;
    PromiseDebts(s, l, d);
    PromiseSlots(s, r, l, d, p);
    Rebalance(AddPromise(s, l, d), r, p);
  }

  /** Queues other than the pool, idle stacks and owed promotions carry no accounts. */
  lemma FrameAccounts(s: State, t: State)
    requires Accounts(s)
    requires t == s.(owed := t.owed, h1Pool := t.h1Pool, h2Connecting := t.h2Connecting, h2Waiters := t.h2Waiters)
    ensures Accounts(t)
  {
    assert forall h :: PickDebt(t, h) == PickDebt(s, h);
    assert forall l :: SlotDebt(t, l) == SlotDebt(s, l);
    assert forall l :: Counted(t, l) == Counted(s, l);
    SlotsFrom(s, t);
  }

  /** The slot of a call whose connection left the pool. */
  lemma OrphanAccounts(s: State, r: ReqId, l: Link, p: Phase)
    requires Accounts(s) && r in s.reqs && OnReady(s.entries, s.reqs[r].addr, l) && l !in At(s.h2Pool, s.reqs[r].addr)
    requires Trades(s.reqs[r].phase, p, l, -1)
    ensures Accounts(SetPhase(s.(streamsActive := s.streamsActive - 1), r, p))
  {
    var u := s.(streamsActive := s.streamsActive - 1);
    assert StreamDebt(u) == -1;
    assert forall h :: PickDebt(u, h) == PickDebt(s, h);
    hide PermitDebt, PickDebt, CxDebt, PendDebt;
    forall k | k in u.entries
      ensures SlotOff(u, k, Ind(HoldsSlot(u.entries, p, k)) - Ind(HoldsSlot(u.entries, u.reqs[r].phase, k)))
    {
      assert SlotOk(s, k);
      assert SlotDebt(u, k) == SlotDebt(s, k);
    }
    Rebalance(u, r, p);
  }

  lemma FirePickAccounts(s: State, r: ReqId, p: Phase)
    requires Accounts(s) && r in s.reqs
    requires var p0 := s.reqs[r].phase;
             && HoldsPick(p0) && !HoldsPick(p) && HoldsPermit(p0) == HoldsPermit(p) && SlotLink(p0) == SlotLink(p)
             && !p0.Queued? && !p.Queued?
    ensures Accounts(SetPhase(AddLoad(s, s.reqs[r].host, -1), r, p))
  {
    hide PermitDebt, StreamDebt, PickDebt, CxDebt, PendDebt, SlotDebt;
    LoadDebts(s, s.reqs[r].host, -1);
    var u := AddLoad(s, s.reqs[r].host, -1);
    SlotsFrom(s, u);
    KeepsSlots(u, r, p);
    Rebalance(u, r, p);
  }

  /** A permit holder gives its permit back. */
  lemma PermitBackAccounts(s: State, r: ReqId, p: Phase)
    requires Accounts(s) && H1QueueOk(s.reqs, s.pool.waiters) && r in s.reqs
    requires var p0 := s.reqs[r].phase;
             && HoldsPermit(p0) && !HoldsPermit(p) && HoldsPick(p0) == HoldsPick(p) && SlotLink(p0) == SlotLink(p)
             && !p0.Queued? && !p0.H1Queued? && !p.Queued?
    ensures Accounts(SetPhase(GivePermit(s), r, p))
  {
    hide PermitDebt, StreamDebt, PickDebt, CxDebt, PendDebt, SlotDebt, GivePermit;
    GivePermitDebts(s);
    GivePermitOthers(s, r);
    var u := GivePermit(s);
    SlotsFrom(s, u);
    KeepsSlots(u, r, p);
    Rebalance(u, r, p);
  }

  /** Close and Evict. */
  lemma CloseAccounts(s: State, l: Link)
    requires Accounts(s) && H1QueueOk(s.reqs, s.pool.waiters)
    ensures Accounts(CloseConn(s, l))
  {
    hide PermitDebt, StreamDebt, PickDebt, CxDebt, PendDebt, SlotDebt, CloseConn, H1QueueOk;
    CloseDebts(s, l);
    CloseCounts(s, l);
    SlotsFrom(s, CloseConn(s, l));
  }

  lemma EvictAccounts(s: State, a: Addr, l: Link)
    requires Accounts(s) && H1QueueOk(s.reqs, s.pool.waiters) && NoDup(At(s.h2Pool, a))
    ensures Accounts(Evict(s, a, l))
  {
    var t := s.(h2Pool := s.h2Pool[a := Without(At(s.h2Pool, a), l)]);
    WithoutMembers(At(s.h2Pool, a), l);
    assert forall h :: PickDebt(t, h) == PickDebt(s, h);
    assert forall k :: SlotDebt(t, k) == SlotDebt(s, k);
    assert forall k :: Counted(t, k) == Counted(s, k);
    SlotsFrom(s, t);
    CloseAccounts(t, l);
  }

  /** The budget changes by one reservation, or by nothing but its signals. */
  lemma BudgetDebts(s: State, p: B.Pool)
    requires p.waiters == s.pool.waiters && p.pendingActive == s.pool.pendingActive
    ensures var t := s.(pool := p);
            && PermitDebt(t) == PermitDebt(s) + p.active - s.pool.active
            && StreamDebt(t) == StreamDebt(s) && CxDebt(t) == CxDebt(s) && PendDebt(t) == PendDebt(s)
            && (forall h :: PickDebt(t, h) == PickDebt(s, h))
            && (forall l :: SlotDebt(t, l) == SlotDebt(s, l))
  {
  }

  /** Slots do not depend on the budget. */
  lemma BudgetSlots(s: State, p: B.Pool)
    requires Slots(s) && p.waiters == s.pool.waiters && p.pendingActive == s.pool.pendingActive
    ensures Slots(s.(pool := p))
  {
    hide PermitDebt, StreamDebt, PickDebt, CxDebt, PendDebt, SlotDebt;
    BudgetDebts(s, p);
    SlotsFrom(s, s.(pool := p));
  }

  lemma SignalAccounts(s: State, p: B.Pool)
    requires Accounts(s) && p.waiters == s.pool.waiters && p.pendingActive == s.pool.pendingActive
    requires p.active == s.pool.active && p.cap == s.pool.cap
    ensures Accounts(s.(pool := p))
  {
    hide PermitDebt, StreamDebt, PickDebt, CxDebt, PendDebt, SlotDebt, Slots;
    BudgetDebts(s, p);
    BudgetSlots(s, p);
  }

  /** A permit just reserved goes to r. */
  lemma ReserveAccounts(s: State, r: ReqId, p: Phase)
    requires Accounts(s) && r in s.reqs && B.UnderCap(s.pool)
    requires var p0 := s.reqs[r].phase;
             && !HoldsPermit(p0) && HoldsPermit(p) && HoldsPick(p0) == HoldsPick(p)
             && SlotLink(p0).None? && SlotLink(p).None? && !p0.Queued? && !p.Queued?
    ensures Accounts(SetPhase(s.(pool := B.Reserve(s.pool)), r, p))
  {
    hide PermitDebt, StreamDebt, PickDebt, CxDebt, PendDebt, SlotDebt;
    BudgetDebts(s, B.Reserve(s.pool));
    BudgetSlots(s, B.Reserve(s.pool));
    var u := s.(pool := B.Reserve(s.pool));
    KeepsSlots(u, r, p);
    Rebalance(u, r, p);
  }

  /** The head of an HTTP/2 queue leaves it. */
  lemma LeaveAccounts(s: State, r: ReqId, t: State)
    requires Accounts(s) && r in s.reqs && s.reqs[r].phase.Queued?
    requires t == s.(h2Waiters := t.h2Waiters, pool := s.pool.(pendingActive := s.pool.pendingActive - 1))
    ensures Accounts(SetPhase(t, r, Exiting))
  {
    assert PendDebt(t) == -1;
    assert forall h :: PickDebt(t, h) == PickDebt(s, h);
    assert forall l :: SlotDebt(t, l) == SlotDebt(s, l);
    hide PermitDebt, StreamDebt, PickDebt, CxDebt, PendDebt, SlotDebt;
    SlotsFrom(s, t);
    KeepsSlots(t, r, Exiting);
    Rebalance(t, r, Exiting);
  }

  lemma EnqueueAccounts(s: State, r: ReqId, t: State)
    requires Accounts(s) && r in s.reqs && s.reqs[r].phase.Picked?
    requires t == s.(h2Waiters := t.h2Waiters, pool := t.pool)
    requires t.pool == s.pool.(pendingActive := s.pool.pendingActive + 1, pendingTotal := t.pool.pendingTotal)
    ensures Accounts(SetPhase(t, r, Queued))
  {
    assert PendDebt(t) == 1;
    assert forall h :: PickDebt(t, h) == PickDebt(s, h);
    assert forall l :: SlotDebt(t, l) == SlotDebt(s, l);
    hide PermitDebt, StreamDebt, PickDebt, CxDebt, PendDebt, SlotDebt;
    SlotsFrom(s, t);
    KeepsSlots(t, r, Queued);
    Rebalance(t, r, Queued);
  }

  /** Nobody refers to a link that was never used. */
  lemma UnusedLink(s: State, l: Link)
    requires LinksOk(s.entries, s.reqs) && l !in s.entries
    ensures SlotReqs(s.reqs, s.entries, l) == {}
  {
    forall r | r in s.reqs ensures SlotLink(s.reqs[r].phase) != Some(l) {
      assert LinkOk(s.entries, r, s.reqs[r]);
    }
  }

  /** A new entry starts with the one slot of its initiator. */
  lemma EntryDebts(s: State, l: Link, e: Entry)
    requires LinksOk(s.entries, s.reqs) && l !in s.entries && e.status.Connecting? && e.promised == 1
    ensures var t := s.(entries := s.entries[l := e], streamsActive := s.streamsActive + 1);
            && PermitDebt(t) == PermitDebt(s) && StreamDebt(t) == StreamDebt(s) + 1
            && CxDebt(t) == CxDebt(s) && PendDebt(t) == PendDebt(s)
            && (forall h :: PickDebt(t, h) == PickDebt(s, h))
            && (forall k :: k != l ==> SlotDebt(t, k) == SlotDebt(s, k)) && SlotDebt(t, l) == 1
  {
    EntryMove(s.reqs, s.entries, l, e);
    UnusedLink(s, l);
  }

  lemma RegisterAccounts(s: State, r: ReqId, l: Link)
    requires r in s.reqs && l !in s.entries && LinksOk(s.entries, s.reqs) && s.maxStreams >= 1
    requires s.reqs[r].phase.Picked? || s.reqs[r].phase == Sent(DialGrant)
    requires PermitDebt(s) == 1 - Ind(HoldsPermit(s.reqs[r].phase))
    requires StreamDebt(s) == 0 && CxDebt(s) == 0 && PendDebt(s) == 0 && (forall h :: PickDebt(s, h) == 0)
    requires Capped(s.pool) && Slots(s)
    ensures Accounts(Register(s, r, l))
  {
    hide SameLimits, PermitDebt, StreamDebt, PickDebt, CxDebt, PendDebt, SlotDebt;
    var e := Entry(s.reqs[r].addr, r, 1, Connecting);
    EntryDebts(s, l, e);
    var u := s.(entries := s.entries[l := e], streamsActive := s.streamsActive + 1);
    forall k | k in u.entries
      ensures SlotOff(u, k, Ind(HoldsSlot(u.entries, Dialing(l), k)) - Ind(HoldsSlot(u.entries, u.reqs[r].phase, k)))
    {
      if k != l {
        assert SlotOk(s, k);
      }
    }
    Rebalance(u, r, Dialing(l));
    FrameAccounts(SetPhase(u, r, Dialing(l)), Register(s, r, l));
  }

  lemma GrantedRegisterAccounts(s: State, r: ReqId, l: Link)
    requires Inv(s) && r in s.reqs && l !in s.entries && s.reqs[r].phase == Sent(DialGrant)
    ensures Accounts(Register(s, r, l))
  {
    hide PermitDebt, StreamDebt, PickDebt, CxDebt, PendDebt, SlotDebt, Slots;
    RegisterAccounts(s, r, l);
  }

  lemma ReserveRegisterAccounts(s: State, r: ReqId, l: Link)
    requires Inv(s) && r in s.reqs && l !in s.entries && s.reqs[r].phase.Picked? && B.UnderCap(s.pool)
    ensures Accounts(Register(s.(pool := B.Reserve(s.pool)), r, l))
  {
    hide PermitDebt, StreamDebt, PickDebt, CxDebt, PendDebt, SlotDebt, Slots;
    BudgetDebts(s, B.Reserve(s.pool));
    BudgetSlots(s, B.Reserve(s.pool));
    RegisterAccounts(s.(pool := B.Reserve(s.pool)), r, l);
  }

  /** A dial succeeded: the permit and the pick move from the call into the connection. */
  lemma ConnectedAccounts(s: State, r: ReqId, l: Link, p: Phase)
    requires Accounts(s) && r in s.reqs && l !in s.conns
    requires l in s.entries ==> s.entries[l].status.Connecting?
    requires var p0 := s.reqs[r].phase;
             && HoldsPermit(p0) && !HoldsPermit(p) && HoldsPick(p0) && !HoldsPick(p) && SlotLink(p0) == SlotLink(p)
             && !p0.Queued? && !p.Queued?
    ensures Accounts(Connected(s, r, l, p))
  {
    var q := s.reqs[r];
    var c := Conn(q.addr, q.host, 0, false, false, false);
    var u := s.(conns := s.conns[l := c], cxActive := s.cxActive + 1);
    OpenMove(s.conns, l, c);
    forall h ensures PickDebt(u, h) == if h == q.host then -1 else 0 {
      OpenOnMove(s.conns, l, c, h);
      assert PickDebt(s, h) == 0;
    }
    assert forall k :: Counted(u, k) == Counted(s, k);
    SlotsFrom(s, u);
    KeepsSlots(u, r, p);
    Rebalance(u, r, p);
  }

  lemma PoolConnDebts(s: State, l: Link, a: Addr)
    requires l in s.entries && s.entries[l].status.Connecting? && l in s.conns
    ensures var e := s.entries[l];
            var t := s.(entries := s.entries[l := e.(status := Ready)],
                        conns := s.conns[l := s.conns[l].(inFlight := e.promised)],
                        h2Pool := s.h2Pool[a := At(s.h2Pool, a) + [l]]);
            && SameDebts(s, t)
            && (forall k :: k != l ==> Counted(t, k) == Counted(s, k)) && Counted(t, l) == e.promised
  {
    var e := s.entries[l];
    var c := s.conns[l].(inFlight := e.promised);
    EntryMove(s.reqs, s.entries, l, e.(status := Ready));
    OpenMove(s.conns, l, c);
    var t := s.(entries := s.entries[l := e.(status := Ready)], conns := s.conns[l := c],
                h2Pool := s.h2Pool[a := At(s.h2Pool, a) + [l]]);
    forall h ensures PickDebt(t, h) == PickDebt(s, h) {
      OpenOnMove(s.conns, l, c, h);
    }
  }

  lemma PooledAccounts(s: State, l: Link)
    requires Accounts(s) && l in s.entries && s.entries[l].status.Connecting? && l in s.conns
    ensures var e := s.entries[l];
            Accounts(s.(entries := s.entries[l := e.(status := Ready)],
                        conns := s.conns[l := s.conns[l].(inFlight := e.promised)],
                        h2Pool := s.h2Pool[e.addr := At(s.h2Pool, e.addr) + [l]]))
  {
    hide PermitDebt, StreamDebt, PickDebt, CxDebt, PendDebt, SlotDebt, Counted;
    var e := s.entries[l];
    PoolConnDebts(s, l, e.addr);
    var t := s.(entries := s.entries[l := e.(status := Ready)],
                conns := s.conns[l := s.conns[l].(inFlight := e.promised)],
                h2Pool := s.h2Pool[e.addr := At(s.h2Pool, e.addr) + [l]]);
    forall k | k in t.entries ensures SlotOk(t, k) {
      assert SlotOk(s, k);
    }
  }

  /** Conversion: the promised count becomes the in-flight count. */
  lemma PoolConnAccounts(s: State, r: ReqId)
    requires Accounts(s) && r in s.reqs && s.reqs[r].phase.Dialed?
    requires s.reqs[r].phase.link in s.entries && s.reqs[r].phase.link in s.conns
    requires OnConnecting(s.entries, s.reqs[r].addr, s.reqs[r].phase.link)
    ensures Accounts(PoolConnStep(s, r))
  {
    hide Balanced, Slots;
    var a, l := s.reqs[r].addr, s.reqs[r].phase.link;
    PooledAccounts(s, l);
    var e := s.entries[l];
    var t := s.(entries := s.entries[l := e.(status := Ready)],
                conns := s.conns[l := s.conns[l].(inFlight := e.promised)],
                h2Pool := s.h2Pool[a := At(s.h2Pool, a) + [l]]);
    QuietPhase(t, r, Riding(l));
    FrameAccounts(SetPhase(t, r, Riding(l)), PoolConnStep(s, r));
  }

  lemma FailEntryDebts(s: State, l: Link)
    requires l in s.entries && s.entries[l].status.Connecting? && SlotDebt(s, l) == 0
    ensures var e := s.entries[l];
            var t := s.(entries := s.entries[l := e.(status := Failed)], streamsActive := s.streamsActive - e.promised);
            && PermitDebt(t) == PermitDebt(s) && StreamDebt(t) == StreamDebt(s)
            && CxDebt(t) == CxDebt(s) && PendDebt(t) == PendDebt(s)
            && (forall h :: PickDebt(t, h) == PickDebt(s, h))
            && (forall k :: k != l ==> SlotDebt(t, k) == SlotDebt(s, k) && Counted(t, k) == Counted(s, k))
  {
    EntryFails(s.reqs, s.entries, l, s.entries[l].(status := Failed));
  }

  lemma FailedAccounts(s: State, l: Link)
    requires Accounts(s) && l in s.entries && s.entries[l].status.Connecting?
    ensures var e := s.entries[l];
            Accounts(s.(entries := s.entries[l := e.(status := Failed)], streamsActive := s.streamsActive - e.promised))
  {
    hide PermitDebt, StreamDebt, PickDebt, CxDebt, PendDebt, SlotDebt, Counted;
    assert SlotOk(s, l);
    FailEntryDebts(s, l);
    var e := s.entries[l];
    var t := s.(entries := s.entries[l := e.(status := Failed)], streamsActive := s.streamsActive - e.promised);
    forall k | k in t.entries ensures SlotOk(t, k) {
      assert SlotOk(s, k);
    }
  }

  /** A failed dial gives back the slots of its initiator and of everyone attached to it. */
  lemma FailEntryAccounts(s: State, r: ReqId)
    requires Accounts(s) && r in s.reqs && s.reqs[r].phase.DialFailed? && s.reqs[r].phase.link in s.entries
    requires OnConnecting(s.entries, s.reqs[r].addr, s.reqs[r].phase.link)
    ensures Accounts(FailEntryStep(s, r))
  {
    hide Balanced, Slots;
    var l := s.reqs[r].phase.link;
    FailedAccounts(s, l);
    var e := s.entries[l];
    var t := s.(entries := s.entries[l := e.(status := Failed)], streamsActive := s.streamsActive - e.promised);
    QuietPhase(t, r, Done);
    FrameAccounts(SetPhase(t, r, Done), FailEntryStep(s, r));
  }

  lemma H1PendingAccounts(s: State, r: ReqId, p: B.Pool, ph: Phase)
    requires Accounts(s) && r in s.reqs
    requires p.active == s.pool.active && p.cap == s.pool.cap
    requires p.pendingActive - |p.waiters| == s.pool.pendingActive - |s.pool.waiters|
    requires Quiet(s.entries, s.reqs[r].phase, ph)
    ensures Accounts(SetPhase(s.(pool := p), r, ph))
  {
    var t := s.(pool := p);
    assert forall h :: PickDebt(t, h) == PickDebt(s, h);
    assert forall l :: SlotDebt(t, l) == SlotDebt(s, l);
    SlotsFrom(s, t);
    QuietPhase(t, r, ph);
  }

  lemma H1AcquireAccounts(s: State, r: ReqId)
    requires Accounts(s) && r in s.reqs && s.reqs[r].phase.H1Picked?
    ensures Accounts(H1AcquireStep(s, r))
  {
    hide Balanced, Slots;
    if B.UnderCap(s.pool) {
      ReserveAccounts(s, r, H1Dialing);
    } else {
      var (p, out) := B.AcquireOrPend(s.pool, r);
      H1PendingAccounts(s, r, p, if out.Pending? then H1Queued else Exiting);
    }
  }

  lemma H1CancelAccounts(s: State, r: ReqId)
    requires Accounts(s) && H1QueueOk(s.reqs, s.pool.waiters) && r in s.reqs && (s.reqs[r].phase.H1Queued? || s.reqs[r].phase.H1Sent?)
    ensures Accounts(H1CancelStep(s, r))
  {
    hide Balanced, Slots;
    if r in s.pool.waiters {
      WithoutMembers(s.pool.waiters, r);
      H1PendingAccounts(s, r, B.Withdraw(s.pool, r), Exiting);
    } else if s.reqs[r].phase.H1Sent? {
      PermitBackAccounts(s, r, Exiting);
    }
  }

  /** h2PromoteLocked, arm (1): a stream slot for the head waiter. */
  lemma GrantStreamAccounts(s: State, a: Addr, w: ReqId, l: Link)
    requires Accounts(s) && At(s.h2Waiters, a) != [] && w in s.reqs && s.reqs[w].phase.Queued?
    requires Live(s, l) && l in s.entries && s.entries[l].status.Ready?
    ensures Accounts(SetPhase(AddStream(Dequeue(s, a), l, 1), w, Sent(StreamGrant(l))))
  {
    hide Balanced, Slots;
    var left := SetPhase(Dequeue(s, a), w, Exiting);
    LeaveAccounts(s, w, Dequeue(s, a));
    StreamAccounts(left, w, l, 1, Sent(StreamGrant(l)));
    var p := Sent(StreamGrant(l));
    assert s.reqs[w := s.reqs[w].(phase := Exiting)][w := s.reqs[w].(phase := p)] == s.reqs[w := s.reqs[w].(phase := p)];
  }

  /** h2PromoteLocked, arm (2): a permit for the head waiter. */
  lemma GrantDialAccounts(s: State, a: Addr, w: ReqId)
    requires Accounts(s) && At(s.h2Waiters, a) != [] && w in s.reqs && s.reqs[w].phase.Queued? && B.UnderCap(s.pool)
    ensures Accounts(SetPhase(Dequeue(s.(pool := B.Reserve(s.pool)), a), w, Sent(DialGrant)))
  {
    hide Balanced, Slots;
    var left := SetPhase(Dequeue(s, a), w, Exiting);
    LeaveAccounts(s, w, Dequeue(s, a));
    ReserveAccounts(left, w, Sent(DialGrant));
    var p := Sent(DialGrant);
    assert s.reqs[w := s.reqs[w].(phase := Exiting)][w := s.reqs[w].(phase := p)] == s.reqs[w := s.reqs[w].(phase := p)];
  }

  lemma PromoteAccounts(s: State, a: Addr)
    requires Accounts(s) && WaitersOk(s.reqs, s.h2Waiters) && PoolOk(s.entries, s.h2Pool)
    ensures Accounts(Promote(s, a))
  {
    hide Balanced, Slots, Accounts;
    var q := At(s.h2Waiters, a);
    if q != [] {
      assert q[0] in At(s.h2Waiters, a);
      match FirstLive(s, At(s.h2Pool, a))
      case Some(l) =>
        assert OnReady(s.entries, a, l);
        GrantStreamAccounts(s, a, q[0], l);
      case None =>
        if B.UnderCap(s.pool) {
          GrantDialAccounts(s, a, q[0]);
        } else {
          SignalAccounts(s, B.Refuse(s.pool));
        }
    }
  }
}
