/** Safety of the upstream machine over every run. */
module H2Safety {
  import opened Options
  import opened Seqs
  import opened H2Machine
  import opened H2Ledger
  import opened H2Invariant
  import opened H2Accounts
  import opened H2Shape
  import B = ConnBudget

  // ---------------------------------------------------------------------------
  // One step
  // ---------------------------------------------------------------------------

  lemma LoadShape(s: State, h: Host, d: int)
    requires Shape(s)
    ensures Shape(AddLoad(s, h, d))
  {
    hide LinksOk, ConnRefsOk, OrphansOk, PoolOk, ConnectingOk, WaitersOk, QueuedOk, H1QueueOk, H1QueuedOk, ConnsOk, IdleOk;
  }

  lemma StreamsShape(s: State, d: int)
    requires Shape(s)
    ensures Shape(s.(streamsActive := s.streamsActive + d))
  {
    hide LinksOk, ConnRefsOk, OrphansOk, PoolOk, ConnectingOk, WaitersOk, QueuedOk, H1QueueOk, H1QueuedOk, ConnsOk, IdleOk;
  }

  lemma OweKeeps(s: State, a: Addr)
    requires Inv(s)
    ensures Inv(Owe(s, a))
  {
    FrameAccounts(s, Owe(s, a));
    FrameShape(s, Owe(s, a));
  }

  lemma InPool(s: State, a: Addr, l: Link)
    requires Inv(s) && l in At(s.h2Pool, a)
    ensures OnReady(s.entries, a, l) && l in s.conns
  {
    hide Accounts;
    assert OnReady(s.entries, a, l);
  }

  lemma InConnecting(s: State, a: Addr, l: Link)
    requires Inv(s) && l in At(s.h2Connecting, a)
    ensures OnConnecting(s.entries, a, l)
  {
    hide Accounts;
  }

  lemma HitKeeps(s: State, r: ReqId, l: Link)
    requires Inv(s) && r in s.reqs && s.reqs[r].phase.Picked?
    requires OnReady(s.entries, s.reqs[r].addr, l) && Live(s, l)
    ensures Inv(SetPhase(AddStream(s, l, 1), r, Hit(l)))
  {
    hide Shape, Accounts;
    StreamAccounts(s, r, l, 1, Hit(l));
    AddStreamShape(s, l, 1);
    PhaseShape(AddStream(s, l, 1), r, Hit(l));
  }

  lemma AttachKeeps(s: State, r: ReqId, l: Link)
    requires Inv(s) && r in s.reqs && s.reqs[r].phase.Picked?
    requires OnConnecting(s.entries, s.reqs[r].addr, l) && Spare(s, l)
    ensures Inv(SetPhase(AddPromise(s, l, 1), r, Attaching(l)))
  {
    hide Shape, Accounts;
    PromiseAccounts(s, r, l, 1, Attaching(l));
    AddPromiseShape(s, l, 1);
    PhaseShape(AddPromise(s, l, 1), r, Attaching(l));
  }

  lemma MissKeeps(s: State, r: ReqId, l: Link)
    requires Inv(s) && r in s.reqs && s.reqs[r].phase.Picked? && Unused(s, l) && B.UnderCap(s.pool)
    ensures Inv(Register(s.(pool := B.Reserve(s.pool)), r, l))
  {
    hide Shape, Accounts;
    ReserveRegisterAccounts(s, r, l);
    BudgetShape(s, B.Reserve(s.pool));
    RegisterShape(s.(pool := B.Reserve(s.pool)), r, l);
  }

  lemma OverflowKeeps(s: State, r: ReqId)
    requires Inv(s) && r in s.reqs && s.reqs[r].phase.Picked?
    ensures var p := B.Refuse(s.pool);
            Inv(SetPhase(s.(pool := p.(pendingOverflow := p.pendingOverflow + 1)), r, Exiting))
  {
    hide Shape, Accounts;
    var p := B.Refuse(s.pool);
    var full := p.(pendingOverflow := p.pendingOverflow + 1);
    var t := s.(pool := full);
    SignalAccounts(s, full);
    BudgetShape(s, full);
    PhaseShape(t, r, Exiting);
    QuietPhase(t, r, Exiting);
  }

  lemma PendKeeps(s: State, r: ReqId)
    requires Inv(s) && r in s.reqs && s.reqs[r].phase.Picked?
    ensures var a, p := s.reqs[r].addr, B.Refuse(s.pool);
            Inv(SetPhase(s.(h2Waiters := s.h2Waiters[a := At(s.h2Waiters, a) + [r]],
                            pool := p.(pendingActive := p.pendingActive + 1, pendingTotal := p.pendingTotal + 1)),
                         r, Queued))
  {
    hide Shape, Accounts;
    var p := B.Refuse(s.pool);
    var more := p.(pendingActive := p.pendingActive + 1, pendingTotal := p.pendingTotal + 1);
    var a := s.reqs[r].addr;
    SignalAccounts(s, p);
    EnterShape(s, r, more);
    EnqueueAccounts(s.(pool := p), r, s.(h2Waiters := s.h2Waiters[a := At(s.h2Waiters, a) + [r]], pool := more));
  }

  lemma AcquireKeeps(s: State, r: ReqId, l: Link)
    requires Inv(s) && r in s.reqs && s.reqs[r].phase.Picked? && Unused(s, l)
    ensures Inv(AcquireStep(s, r, l))
  {
    hide Inv;
    var a := s.reqs[r].addr;
    var live := FirstLive(s, At(s.h2Pool, a));
    var spare := FirstSpare(s, At(s.h2Connecting, a));
    if live.Some? {
      InPool(s, a, live.value);
      HitKeeps(s, r, live.value);
    } else if spare.Some? {
      InConnecting(s, a, spare.value);
      AttachKeeps(s, r, spare.value);
    } else if B.UnderCap(s.pool) {
      MissKeeps(s, r, l);
    } else if |At(s.h2Waiters, a)| >= s.pool.maxPending {
      OverflowKeeps(s, r);
    } else {
      PendKeeps(s, r);
    }
  }


  lemma FirePickTo(s: State, r: ReqId, p: Phase)
    requires Inv(s) && r in s.reqs && HoldsPick(s.reqs[r].phase) && !HoldsPick(p)
    requires HoldsPermit(s.reqs[r].phase) == HoldsPermit(p) && SlotLink(s.reqs[r].phase) == SlotLink(p)
    requires !s.reqs[r].phase.Queued? && !s.reqs[r].phase.H1Queued? && !p.Queued? && !p.H1Queued? && !p.Orphaned?
    requires LinkOk(s.entries, r, s.reqs[r].(phase := p)) && ConnOk(s.conns, s.reqs[r].(phase := p))
    ensures Inv(SetPhase(AddLoad(s, s.reqs[r].host, -1), r, p))
  {
    hide Shape, Accounts;
    FirePickAccounts(s, r, p);
    LoadShape(s, s.reqs[r].host, -1);
    PhaseShape(AddLoad(s, s.reqs[r].host, -1), r, p);
  }

  lemma FirePickKeeps(s: State, r: ReqId)
    requires Inv(s) && Enabled(s, FirePick(r))
    ensures Inv(FirePickStep(s, r))
  {
    hide Inv;
    RefsOf(s, r);
    match s.reqs[r].phase
    case Hit(l) => FirePickTo(s, r, Riding(l));
    case Attaching(l) => FirePickTo(s, r, Attached(l));
    case DialRefused(l) => FirePickTo(s, r, DialFailed(l));
    case H1Hit(l) => FirePickTo(s, r, H1Holding(l));
    case Exiting => FirePickTo(s, r, Done);
  }

  lemma H1Queue(s: State)
    requires Inv(s)
    ensures H1QueueOk(s.reqs, s.pool.waiters)
  {
    hide Accounts;
  }

  lemma RefsOf(s: State, r: ReqId)
    requires Inv(s) && r in s.reqs
    ensures LinkOk(s.entries, r, s.reqs[r]) && ConnOk(s.conns, s.reqs[r])
  {
    hide Accounts;
  }

  lemma DialFailsKeeps(s: State, r: ReqId)
    requires Inv(s) && r in s.reqs && s.reqs[r].phase.Dialing?
    ensures Inv(SetPhase(GivePermit(s), r, DialRefused(s.reqs[r].phase.link)))
  {
    hide Shape, Accounts;
    RefsOf(s, r);
    var p := DialRefused(s.reqs[r].phase.link);
    H1Queue(s);
    PermitBackAccounts(s, r, p);
    PermitBackShape(s, r, p);
  }

  lemma DialConnectsKeeps(s: State, r: ReqId)
    requires Inv(s) && r in s.reqs && s.reqs[r].phase.Dialing?
    ensures Inv(Connected(s, r, s.reqs[r].phase.link, Dialed(s.reqs[r].phase.link)))
  {
    hide Shape, Accounts;
    RefsOf(s, r);
    var l := s.reqs[r].phase.link;
    ConnectedAccounts(s, r, l, Dialed(l));
    ConnectedShape(s, r, l, Dialed(l));
  }

  lemma CloseKeeps(s: State, l: Link)
    requires Inv(s) && forall r :: r in s.reqs ==> s.reqs[r].phase != Dialed(l)
    ensures Inv(CloseConn(s, l))
  {
    hide Shape, Accounts;
    H1Queue(s);
    CloseAccounts(s, l);
    CloseShape(s, l);
  }

  lemma FinalizeFailsKeeps(s: State, r: ReqId)
    requires Inv(s) && r in s.reqs && s.reqs[r].phase.Dialed?
    ensures Inv(CloseConn(SetPhase(s, r, DialFailed(s.reqs[r].phase.link)), s.reqs[r].phase.link))
  {
    hide Shape, Accounts;
    var l := s.reqs[r].phase.link;
    RefsOf(s, r);
    var t := SetPhase(s, r, DialFailed(l));
    forall k | k in t.reqs ensures t.reqs[k].phase != Dialed(l) {
      RefsOf(s, k);
    }
    QuietPhase(s, r, DialFailed(l));
    PhaseShape(s, r, DialFailed(l));
    CloseKeeps(t, l);
  }

  lemma AttachReadyKeeps(s: State, r: ReqId)
    requires Inv(s) && r in s.reqs && s.reqs[r].phase.Attached?
    requires s.reqs[r].phase.link in s.entries && !s.entries[s.reqs[r].phase.link].status.Connecting?
    ensures Inv(AttachReadyStep(s, r))
  {
    hide Shape, Accounts;
    var l := s.reqs[r].phase.link;
    RefsOf(s, r);
    if s.entries[l].status.Failed? {
      QuietPhase(s, r, Done);
      PhaseShape(s, r, Done);
    } else if l in At(s.h2Pool, s.reqs[r].addr) {
      QuietPhase(s, r, Riding(l));
      PhaseShape(s, r, Riding(l));
    } else {
      OrphanAccounts(s, r, l, Done);
      StreamsShape(s, -1);
      PhaseShape(s.(streamsActive := s.streamsActive - 1), r, Done);
    }
  }

  lemma AttachCancelKeeps(s: State, r: ReqId)
    requires Inv(s) && r in s.reqs && s.reqs[r].phase.Attached?
    requires s.reqs[r].phase.link in s.entries && s.entries[s.reqs[r].phase.link].status.Connecting?
    ensures Inv(SetPhase(AddPromise(s, s.reqs[r].phase.link, -1), r, Done))
  {
    hide Shape, Accounts;
    var l := s.reqs[r].phase.link;
    PromiseAccounts(s, r, l, -1, Done);
    AddPromiseShape(s, l, -1);
    PhaseShape(AddPromise(s, l, -1), r, Done);
  }

  lemma AcceptGrantKeeps(s: State, r: ReqId, l: Link)
    requires Inv(s) && r in s.reqs && s.reqs[r].phase.Sent? && Unused(s, l)
    ensures Inv(AcceptGrantStep(s, r, l))
  {
    hide Shape, Accounts;
    RefsOf(s, r);
    if s.reqs[r].phase.grant.DialGrant? {
      GrantedRegisterAccounts(s, r, l);
      RegisterShape(s, r, l);
    } else {
      var k := s.reqs[r].phase.grant.link;
      var p := if k in At(s.h2Pool, s.reqs[r].addr) then Hit(k) else Orphaned(k);
      QuietPhase(s, r, p);
      PhaseShape(s, r, p);
    }
  }

  lemma UndoOrphanKeeps(s: State, r: ReqId)
    requires Inv(s) && r in s.reqs && s.reqs[r].phase.Orphaned?
    ensures Inv(Owe(SetPhase(s.(streamsActive := s.streamsActive - 1), r, Exiting), s.reqs[r].addr))
  {
    hide Shape, Accounts;
    RefsOf(s, r);
    OrphanGone(s, r);
    var l := s.reqs[r].phase.link;
    OrphanAccounts(s, r, l, Exiting);
    StreamsShape(s, -1);
    PhaseShape(s.(streamsActive := s.streamsActive - 1), r, Exiting);
    OweKeeps(SetPhase(s.(streamsActive := s.streamsActive - 1), r, Exiting), s.reqs[r].addr);
  }

  lemma OrphanGone(s: State, r: ReqId)
    requires Inv(s) && r in s.reqs && s.reqs[r].phase.Orphaned?
    ensures s.reqs[r].phase.link !in At(s.h2Pool, s.reqs[r].addr)
  {
    hide Accounts;
  }

  /** The give-back of a stream grant that lost the race against the cancel. */
  lemma GiveBackStreamKeeps(s: State, r: ReqId, l: Link)
    requires Inv(s) && r in s.reqs && s.reqs[r].phase == Sent(StreamGrant(l))
    ensures var a := s.reqs[r].addr;
            var t := if l in At(s.h2Pool, a) then AddStream(s, l, -1) else s.(streamsActive := s.streamsActive - 1);
            Inv(SetPhase(t, r, Exiting))
  {
    hide Shape, Accounts;
    RefsOf(s, r);
    if l in At(s.h2Pool, s.reqs[r].addr) {
      InPool(s, s.reqs[r].addr, l);
      StreamAccounts(s, r, l, -1, Exiting);
      AddStreamShape(s, l, -1);
      PhaseShape(AddStream(s, l, -1), r, Exiting);
    } else {
      OrphanAccounts(s, r, l, Exiting);
      StreamsShape(s, -1);
      PhaseShape(s.(streamsActive := s.streamsActive - 1), r, Exiting);
    }
  }

  lemma GiveBackDialKeeps(s: State, r: ReqId)
    requires Inv(s) && r in s.reqs && s.reqs[r].phase == Sent(DialGrant)
    ensures Inv(SetPhase(GivePermit(s), r, Exiting))
  {
    hide Shape, Accounts, GivePermit;
    H1Queue(s);
    PermitBackAccounts(s, r, Exiting);
    PermitBackShape(s, r, Exiting);
  }

  lemma WithdrawKeeps(s: State, r: ReqId)
    requires Inv(s) && r in s.reqs && r in At(s.h2Waiters, s.reqs[r].addr)
    ensures var a := s.reqs[r].addr;
            Inv(SetPhase(s.(h2Waiters := s.h2Waiters[a := Without(At(s.h2Waiters, a), r)],
                            pool := s.pool.(pendingActive := s.pool.pendingActive - 1)), r, Exiting))
  {
    hide Shape, Accounts;
    var a := s.reqs[r].addr;
    InQueue(s, a, r);
    var pool := s.pool.(pendingActive := s.pool.pendingActive - 1);
    LeaveAccounts(s, r, s.(h2Waiters := s.h2Waiters[a := Without(At(s.h2Waiters, a), r)], pool := pool));
    LeaveShape(s, a, r, pool, Exiting);
  }

  lemma InQueue(s: State, a: Addr, w: ReqId)
    requires Inv(s) && w in At(s.h2Waiters, a)
    ensures w in s.reqs && s.reqs[w].phase.Queued? && s.reqs[w].addr == a
  {
    hide Accounts;
  }

  /** A cancel that does not find itself in the queue has a grant on its channel, so the receive
      that follows cannot block for ever. */
  lemma CancelFindsGrant(s: State, r: ReqId)
    requires Inv(s) && r in s.reqs && (s.reqs[r].phase.Queued? || s.reqs[r].phase.Sent?) && r !in At(s.h2Waiters, s.reqs[r].addr)
    ensures s.reqs[r].phase.Sent?
  {
    hide Accounts;
  }

  lemma CancelWaitKeeps(s: State, r: ReqId)
    requires Inv(s) && r in s.reqs && (s.reqs[r].phase.Queued? || s.reqs[r].phase.Sent?)
    ensures Inv(CancelWaitStep(s, r))
  {
    hide Inv;
    var a := s.reqs[r].addr;
    if r in At(s.h2Waiters, a) {
      WithdrawKeeps(s, r);
    } else {
      CancelFindsGrant(s, r);
      if s.reqs[r].phase.grant.DialGrant? {
        GiveBackDialKeeps(s, r);
        OweKeeps(SetPhase(GivePermit(s), r, Exiting), a);
      } else {
        var l := s.reqs[r].phase.grant.link;
        GiveBackStreamKeeps(s, r, l);
        var t := if l in At(s.h2Pool, a) then AddStream(s, l, -1) else s.(streamsActive := s.streamsActive - 1);
        OweKeeps(SetPhase(t, r, Exiting), a);
      }
    }
  }

  lemma ReleaseKeeps(s: State, r: ReqId)
    requires Inv(s) && r in s.reqs && s.reqs[r].phase.Riding?
    ensures Inv(ReleaseStep(s, r))
  {
    hide Shape, Accounts;
    RefsOf(s, r);
    var l := s.reqs[r].phase.link;
    ReadyConn(s, l);
    StreamAccounts(s, r, l, -1, Releasing(l));
    AddStreamShape(s, l, -1);
    PhaseShape(AddStream(s, l, -1), r, Releasing(l));
    OweKeeps(SetPhase(AddStream(s, l, -1), r, Releasing(l)), s.reqs[r].addr);
  }

  lemma ReadyConn(s: State, l: Link)
    requires Inv(s) && l in s.entries && s.entries[l].status.Ready?
    ensures l in s.conns
  {
    hide Accounts;
  }

  lemma EvictKeeps(s: State, a: Addr, l: Link)
    requires Inv(s) && !(l in s.entries && s.entries[l].status.Connecting?)
    ensures Inv(Owe(Evict(s, a, l), a))
  {
    hide Shape, Accounts, Evict;
    H1Queue(s);
    PoolNoDup(s, a);
    EvictAccounts(s, a, l);
    EvictShape(s, a, l);
    OweKeeps(Evict(s, a, l), a);
  }

  lemma PoolNoDup(s: State, a: Addr)
    requires Inv(s)
    ensures NoDup(At(s.h2Pool, a))
  {
    hide Accounts;
  }

  lemma ReleaseCheckKeeps(s: State, r: ReqId)
    requires Inv(s) && r in s.reqs && s.reqs[r].phase.Releasing?
    ensures Inv(ReleaseCheckStep(s, r))
  {
    hide Shape, Accounts;
    RefsOf(s, r);
    QuietPhase(s, r, Done);
    PhaseShape(s, r, Done);
    hide Inv, Evict, Owe;
    EvictKeeps(SetPhase(s, r, Done), s.reqs[r].addr, s.reqs[r].phase.link);
  }

  lemma DoPromoteKeeps(s: State, a: Addr)
    requires Inv(s) && a in s.owed
    ensures Inv(Promote(s.(owed := s.owed - multiset{a}), a))
  {
    hide Accounts, Promote;
    var t := s.(owed := s.owed - multiset{a});
    FrameAccounts(s, t);
    FrameShape(s, t);
    PromoteAccounts(t, a);
    PromoteShape(t, a);
  }

  lemma PeerKeeps(s: State, l: Link, c: Conn)
    requires Inv(s) && l in s.conns && c == s.conns[l].(closed := c.closed, goneAway := c.goneAway)
    requires s.conns[l].closed ==> c.closed
    ensures Inv(s.(conns := s.conns[l := c]))
  {
    hide Shape, Balanced, Slots;
    ReleasedClosed(s, l);
    ConnShape(s, l, c);
    ConnAccounts(s, l, c);
  }

  lemma ReleasedClosed(s: State, l: Link)
    requires Inv(s) && l in s.conns
    ensures s.conns[l].released ==> s.conns[l].closed
  {
    hide Accounts;
  }

  lemma ConnAccounts(s: State, l: Link, c: Conn)
    requires Accounts(s) && l in s.conns && c == s.conns[l].(closed := c.closed, goneAway := c.goneAway)
    ensures Accounts(s.(conns := s.conns[l := c]))
  {
    hide PermitDebt, StreamDebt, PickDebt, CxDebt, PendDebt, SlotDebt;
    ConnDebts(s, l, c);
    SlotsFrom(s, s.(conns := s.conns[l := c]));
  }

  // -- HTTP/1.1 ---------------------------------------------------------------

  lemma IdleConn(s: State, a: Addr, l: Link)
    requires Inv(s) && l in At(s.h1Pool, a)
    ensures l in s.conns && l !in s.entries
  {
    hide Accounts;
  }

  lemma IdlePop(s: State, a: Addr)
    requires Inv(s) && At(s.h1Pool, a) != []
    ensures var q := At(s.h1Pool, a); Inv(s.(h1Pool := s.h1Pool[a := q[..|q| - 1]]))
  {
    hide Accounts;
    var q := At(s.h1Pool, a);
    var idle := s.h1Pool[a := q[..|q| - 1]];
    forall b, l | l in At(idle, b) ensures l in s.conns && l !in s.entries {
      assert l in At(s.h1Pool, b);
    }
    FrameShape(s, s.(h1Pool := idle));
    FrameAccounts(s, s.(h1Pool := idle));
  }

  lemma IdlePush(s: State, a: Addr, l: Link)
    requires Inv(s) && l in s.conns && l !in s.entries
    ensures Inv(s.(h1Pool := s.h1Pool[a := At(s.h1Pool, a) + [l]]))
  {
    hide Accounts;
    var idle := s.h1Pool[a := At(s.h1Pool, a) + [l]];
    forall b, k | k in At(idle, b) ensures k in s.conns && k !in s.entries {
      assert k == l || k in At(s.h1Pool, b);
    }
    FrameShape(s, s.(h1Pool := idle));
    FrameAccounts(s, s.(h1Pool := idle));
  }

  lemma H1PopIdleKeeps(s: State, r: ReqId)
    requires Inv(s) && r in s.reqs && s.reqs[r].phase.H1Picked? && At(s.h1Pool, s.reqs[r].addr) != []
    ensures var a := s.reqs[r].addr;
            var q := At(s.h1Pool, a);
            Inv(SetPhase(s.(h1Pool := s.h1Pool[a := q[..|q| - 1]]), r, H1Hit(q[|q| - 1])))
  {
    hide Shape, Accounts;
    var a := s.reqs[r].addr;
    var q := At(s.h1Pool, a);
    var l := q[|q| - 1];
    IdleConn(s, a, l);
    IdlePop(s, a);
    var t := s.(h1Pool := s.h1Pool[a := q[..|q| - 1]]);
    QuietPhase(t, r, H1Hit(l));
    PhaseShape(t, r, H1Hit(l));
  }

  lemma H1AcquireKeeps(s: State, r: ReqId)
    requires Inv(s) && r in s.reqs && s.reqs[r].phase.H1Picked?
    ensures Inv(H1AcquireStep(s, r))
  {
    hide Shape, Accounts, H1AcquireStep;
    H1AcquireAccounts(s, r);
    H1AcquireShape(s, r);
  }

  lemma H1AcceptKeeps(s: State, r: ReqId)
    requires Inv(s) && r in s.reqs && s.reqs[r].phase.H1Sent?
    ensures Inv(SetPhase(s, r, H1Dialing))
  {
    hide Shape, Accounts;
    QuietPhase(s, r, H1Dialing);
    PhaseShape(s, r, H1Dialing);
  }

  lemma H1CancelKeeps(s: State, r: ReqId)
    requires Inv(s) && r in s.reqs && (s.reqs[r].phase.H1Queued? || s.reqs[r].phase.H1Sent?)
    ensures Inv(H1CancelStep(s, r))
  {
    hide Shape, Accounts, H1CancelStep;
    H1Queue(s);
    H1CancelAccounts(s, r);
    H1CancelShape(s, r);
  }

  lemma H1DialFailsKeeps(s: State, r: ReqId)
    requires Inv(s) && r in s.reqs && s.reqs[r].phase.H1Dialing?
    ensures Inv(SetPhase(GivePermit(s), r, Exiting))
  {
    hide Shape, Accounts, GivePermit;
    H1Queue(s);
    PermitBackAccounts(s, r, Exiting);
    PermitBackShape(s, r, Exiting);
  }

  lemma H1DialConnectsKeeps(s: State, r: ReqId, l: Link)
    requires Inv(s) && r in s.reqs && s.reqs[r].phase.H1Dialing? && Unused(s, l)
    ensures Inv(Connected(s, r, l, H1Holding(l)))
  {
    hide Shape, Accounts, Connected;
    ConnectedAccounts(s, r, l, H1Holding(l));
    ConnectedShape(s, r, l, H1Holding(l));
  }

  lemma H1CloseKeeps(s: State, l: Link)
    requires Inv(s) && l !in s.entries
    ensures Inv(CloseConn(s, l))
  {
    hide Accounts, CloseConn;
    NotDialed(s, l);
    CloseKeeps(s, l);
  }

  lemma H1PutIdleKeeps(s: State, r: ReqId, w: bool)
    requires Inv(s) && r in s.reqs && s.reqs[r].phase.H1Holding?
    ensures Inv(H1PutIdleStep(s, r, w))
  {
    hide Shape, Accounts, CloseConn;
    RefsOf(s, r);
    var l := s.reqs[r].phase.link;
    var t := SetPhase(s, r, Done);
    QuietPhase(s, r, Done);
    PhaseShape(s, r, Done);
    H1CloseKeeps(t, l);
    IdlePush(t, s.conns[l].addr, l);
  }

  // ---------------------------------------------------------------------------
  // Every step, every run
  // ---------------------------------------------------------------------------

  lemma PickKeeps(s: State, r: ReqId, h: Host, a: Addr, h2: bool)
    requires Inv(s) && r !in s.reqs
    ensures Inv(AddLoad(s, h, 1).(reqs := s.reqs[r := Req(h, a, if h2 then Picked else H1Picked)]))
  {
    hide Shape, Accounts;
    PickAccounts(s, r, h, a, if h2 then Picked else H1Picked);
    PickShape(s, r, h, a, if h2 then Picked else H1Picked);
  }

  lemma FailEntryKeeps(s: State, r: ReqId)
    requires Inv(s) && r in s.reqs && s.reqs[r].phase.DialFailed? && s.reqs[r].phase.link in s.entries
    ensures Inv(FailEntryStep(s, r))
  {
    hide Shape, Accounts, FailEntryStep;
    RefsOf(s, r);
    FailEntryAccounts(s, r);
    FailEntryShape(s, r);
  }

  lemma PoolConnKeeps(s: State, r: ReqId)
    requires Inv(s) && r in s.reqs && s.reqs[r].phase.Dialed?
    requires s.reqs[r].phase.link in s.entries && s.reqs[r].phase.link in s.conns
    ensures Inv(PoolConnStep(s, r))
  {
    hide Shape, Accounts, PoolConnStep;
    RefsOf(s, r);
    PoolConnAccounts(s, r);
    PoolConnShape(s, r);
  }

  lemma EvictIfPooledKeeps(s: State, a: Addr, l: Link)
    requires Inv(s)
    ensures l in At(s.h2Pool, a) ==> Inv(Owe(Evict(s, a, l), a))
  {
    hide Inv, Owe, Evict;
    if l in At(s.h2Pool, a) {
      InPool(s, a, l);
      EvictKeeps(s, a, l);
    }
  }

  lemma H1CallKeeps(s: State, e: Event)
    requires Inv(s) && Enabled(s, e) && (e.H1PopIdle? || e.H1Acquire? || e.H1Accept? || e.H1Cancel?)
    ensures Inv(H1Step(s, e))
  {
    hide Inv, SameLimits, SetPhase, GivePermit, CloseConn, Connected, AddPromise, Owe, AddLoad, Promote, Evict;
    match e
    case H1PopIdle(r) => H1PopIdleKeeps(s, r);
    case H1Acquire(r) => H1AcquireKeeps(s, r);
    case H1Accept(r) => H1AcceptKeeps(s, r);
    case H1Cancel(r) => H1CancelKeeps(s, r);
  }

  lemma H1ConnKeeps(s: State, e: Event)
    requires Inv(s) && Enabled(s, e) && (e.H1DialFails? || e.H1DialConnects? || e.H1Close? || e.H1PutIdle?)
    ensures Inv(H1Step(s, e))
  {
    hide Inv, SameLimits, SetPhase, GivePermit, CloseConn, Connected, AddPromise, Owe, AddLoad, Promote, Evict;
    match e
    case H1DialFails(r) => H1DialFailsKeeps(s, r);
    case H1DialConnects(r, l) => H1DialConnectsKeeps(s, r, l);
    case H1Close(r) => RefsOf(s, r); H1CloseKeeps(s, s.reqs[r].phase.link);
    case H1PutIdle(r, w) => H1PutIdleKeeps(s, r, w);
  }

  lemma H1EventKeeps(s: State, e: Event)
    requires Inv(s) && Enabled(s, e) && H1Event(e)
    ensures Inv(Step(s, e))
  {
    hide SameLimits, Inv, H1Step, Enabled;
    match e
    case H1PopIdle(_) => H1CallKeeps(s, e);
    case H1Acquire(_) => H1CallKeeps(s, e);
    case H1Accept(_) => H1CallKeeps(s, e);
    case H1Cancel(_) => H1CallKeeps(s, e);
    case H1DialFails(_) => H1ConnKeeps(s, e);
    case H1DialConnects(_, _) => H1ConnKeeps(s, e);
    case H1Close(_) => H1ConnKeeps(s, e);
    case H1PutIdle(_, _) => H1ConnKeeps(s, e);
  }

  /** Promotion, eviction and the peers. */
  lemma LateStepKeeps(s: State, e: Event)
    requires Inv(s) && Enabled(s, e)
    requires e.DoPromote? || e.EvictOnError? || e.DrainWatch? || e.PeerClose? || e.PeerGoAway?
    ensures Inv(Step(s, e))
  {
    hide SameLimits, Inv, SetPhase, GivePermit, CloseConn, Connected, AddPromise, Owe, AddLoad, Promote, Evict, H1Step;
    match e
    case DoPromote(a) => DoPromoteKeeps(s, a);
    case EvictOnError(a, l) => EvictIfPooledKeeps(s, a, l);
    case DrainWatch(a, l) => EvictIfPooledKeeps(s, a, l);
    case PeerClose(l) => PeerKeeps(s, l, s.conns[l].(closed := true));
    case PeerGoAway(l) => PeerKeeps(s, l, s.conns[l].(goneAway := true));
  }

  predicate DialEvent(e: Event) {
    e.DialFails? || e.DialConnects? || e.FinalizeFails? || e.FailEntry? || e.PoolConn? || e.Release? || e.ReleaseCheck?
  }

  /** Dials, their outcome, and the release of a stream. */
  lemma DialEventKeeps(s: State, e: Event)
    requires Inv(s) && Enabled(s, e) && DialEvent(e)
    ensures Inv(Step(s, e))
  {
    hide Inv, SameLimits, SetPhase, GivePermit, CloseConn, Connected, AddPromise, Owe, AddLoad, Promote, Evict, H1Step;
    match e
    case DialFails(r) => DialFailsKeeps(s, r);
    case DialConnects(r) => DialConnectsKeeps(s, r);
    case FinalizeFails(r) => FinalizeFailsKeeps(s, r);
    case FailEntry(r) => FailEntryKeeps(s, r);
    case PoolConn(r) => PoolConnKeeps(s, r);
    case Release(r) => ReleaseKeeps(s, r);
    case ReleaseCheck(r) => ReleaseCheckKeeps(s, r);
  }

  predicate CallEvent(e: Event) {
    e.Pick? || e.Acquire? || e.FirePick? || e.AttachReady? || e.AttachCancel? || e.AcceptGrant? || e.UndoOrphan?
    || e.CancelWait?
  }

  /** A call on its way to a stream, or giving up. */
  lemma CallEventKeeps(s: State, e: Event)
    requires Inv(s) && Enabled(s, e) && CallEvent(e)
    ensures Inv(Step(s, e))
  {
    hide Inv, SameLimits, SetPhase, GivePermit, CloseConn, Connected, AddPromise, Owe, AddLoad, Promote, Evict, H1Step;
    match e
    case Pick(r, h, a, h2) => PickKeeps(s, r, h, a, h2);
    case Acquire(r, l) => AcquireKeeps(s, r, l);
    case FirePick(r) => FirePickKeeps(s, r);
    case AttachReady(r) => AttachReadyKeeps(s, r);
    case AttachCancel(r) => AttachCancelKeeps(s, r);
    case AcceptGrant(r, l) => AcceptGrantKeeps(s, r, l);
    case UndoOrphan(r) => UndoOrphanKeeps(s, r);
    case CancelWait(r) => CancelWaitKeeps(s, r);
  }

  /** Every atomic step of every goroutine, and every move of the peers, keeps the invariant. */
  lemma StepKeeps(s: State, e: Event)
    requires Inv(s) && Enabled(s, e)
    ensures Inv(Step(s, e))
  {
    hide Inv, SameLimits, Step, Enabled;
    if CallEvent(e) {
      CallEventKeeps(s, e);
    } else if DialEvent(e) {
      DialEventKeeps(s, e);
    } else if H1Event(e) {
      H1EventKeeps(s, e);
    } else {
      LateStepKeeps(s, e);
    }
  }

  lemma {:induction false} RunKeeps(s: State, es: seq<Event>)
    requires Inv(s) && Run(s, es).Some?
    ensures Inv(Run(s, es).value)
    decreases es
  {
    hide Inv, Step, Enabled;
    if es == [] {
    } else {
      StepKeeps(s, es[0]);
      RunKeeps(Step(s, es[0]), es[1..]);
    }
  }
}
