/** No connection is lost: one that was not closed is in a pool or in the hands of a call under way. */
module H2Custody {
  import opened Options
  import opened Seqs
  import opened H2Machine
  import opened H2Ledger
  import opened H2Invariant
  import opened H2Safety
  import opened H2Theorems
  import opened H2Meaning
  import B = ConnBudget

  /** A call at p has a connection in its hands, which nobody else will close. */
  predicate Hands(p: Phase) {
    p.Dialed? || p.H1Hit? || p.H1Holding?
  }

  predicate Holds(q: Req, l: Link) {
    Hands(q.phase) && q.phase.link == l
  }

  ghost predicate Held(reqs: map<ReqId, Req>, l: Link) {
    exists r :: r in reqs && Holds(reqs[r], l)
  }

  ghost predicate InSome(pool: map<Addr, seq<Link>>, l: Link) {
    exists a :: l in At(pool, a)
  }

  ghost predicate Kept(s: State, l: Link) {
    InSome(s.h2Pool, l) || InSome(s.h1Pool, l) || Held(s.reqs, l)
  }

  predicate Open(cs: map<Link, Conn>, l: Link) {
    l in cs && !cs[l].released
  }

  ghost predicate Custody(s: State) {
    forall l :: Open(s.conns, l) ==> Kept(s, l)
  }

  /** From s to t no connection was opened, the pools are the same, and whoever had one still has it. */
  ghost predicate SameHands(s: State, t: State) {
    && (forall l :: Open(t.conns, l) ==> Open(s.conns, l))
    && t.h2Pool == s.h2Pool && t.h1Pool == s.h1Pool
    && forall r :: r in s.reqs && Hands(s.reqs[r].phase) ==> r in t.reqs && t.reqs[r] == s.reqs[r]
  }

  lemma HandsTrans(s: State, t: State, u: State)
    requires SameHands(s, t) && SameHands(t, u)
    ensures SameHands(s, u)
  {
  }

  lemma SameCustody(s: State, t: State)
    requires Custody(s) && SameHands(s, t)
    ensures Custody(t)
  {
    forall l | Open(t.conns, l) ensures Kept(t, l) {
      assert Kept(s, l);
      if Held(s.reqs, l) {
        var r :| r in s.reqs && Holds(s.reqs[r], l);
        assert r in t.reqs && Holds(t.reqs[r], l);
      }
    }
  }

  // ---------------------------------------------------------------------------
  // Building blocks
  // ---------------------------------------------------------------------------

  lemma PhaseHands(s: State, r: ReqId, p: Phase)
    requires r in s.reqs ==> !Hands(s.reqs[r].phase)
    ensures SameHands(s, SetPhase(s, r, p))
  {
  }

  lemma StreamHands(s: State, l: Link, d: int)
    ensures SameHands(s, AddStream(s, l, d)) && AddStream(s, l, d).reqs == s.reqs
  {
    if l in s.conns {
      var u := s.(streamsActive := s.streamsActive + d, conns := s.conns[l := s.conns[l].(inFlight := s.conns[l].inFlight + d)]);
      assert AddStream(s, l, d) == u;
    }
  }

  lemma PromiseHands(s: State, l: Link, d: int)
    ensures SameHands(s, AddPromise(s, l, d)) && AddPromise(s, l, d).reqs == s.reqs
  {
    if l in s.entries {
      var u := s.(streamsActive := s.streamsActive + d, entries := s.entries[l := s.entries[l].(promised := s.entries[l].promised + d)]);
      assert AddPromise(s, l, d) == u;
    }
  }

  /** The head of the HTTP/1.1 queue is a waiting call. */
  predicate HeadOk(s: State) {
    s.pool.waiters != [] ==> s.pool.waiters[0] in s.reqs && s.reqs[s.pool.waiters[0]].phase.H1Queued?
  }

  lemma GiveHands(s: State)
    requires HeadOk(s)
    ensures SameHands(s, GivePermit(s))
    ensures forall r :: r in s.reqs && !s.reqs[r].phase.H1Queued? ==> r in GivePermit(s).reqs && GivePermit(s).reqs[r] == s.reqs[r]
  {
    hide SetPhase;
    var (p, next) := B.Release(s.pool);
    if next.Some? {
      HandOffHands(s, p, next.value);
    }
  }

  lemma HandOffHands(s: State, p: B.Pool, w: ReqId)
    requires w in s.reqs && s.reqs[w].phase.H1Queued?
    ensures var t := SetPhase(s.(pool := p), w, H1Sent);
            SameHands(s, t) && forall r :: r in s.reqs && r != w ==> r in t.reqs && t.reqs[r] == s.reqs[r]
  {
  }

  /** Only the fields that custody does not look at changed. */
  lemma FieldHands(s: State, t: State)
    requires t.conns == s.conns && t.h2Pool == s.h2Pool && t.h1Pool == s.h1Pool && t.reqs == s.reqs
    ensures SameHands(s, t)
  {
  }

  /** Fields first, then the phase of a call without a connection. */
  lemma ThenPhase(s: State, t: State, r: ReqId, p: Phase)
    requires SameHands(s, t) && (r in t.reqs ==> !Hands(t.reqs[r].phase))
    ensures SameHands(s, SetPhase(t, r, p))
  {
    PhaseHands(t, r, p);
    HandsTrans(s, t, SetPhase(t, r, p));
  }

  lemma OweHands(s: State, t: State, a: Addr)
    requires SameHands(s, t)
    ensures SameHands(s, Owe(t, a))
  {
  }

  // ---------------------------------------------------------------------------
  // Steps that move no connection
  // ---------------------------------------------------------------------------

  lemma AcquireHands(s: State, r: ReqId, l: Link)
    requires r in s.reqs && !Hands(s.reqs[r].phase)
    ensures SameHands(s, AcquireStep(s, r, l))
  {
    hide SameHands, SetPhase, AddStream, AddPromise, FirstLive, FirstSpare, Register, Pended;
    var a := s.reqs[r].addr;
    var live, spare := FirstLive(s, At(s.h2Pool, a)), FirstSpare(s, At(s.h2Connecting, a));
    if live.Some? {
      StreamHands(s, live.value, 1);
      ThenPhase(s, AddStream(s, live.value, 1), r, Hit(live.value));
    } else if spare.Some? {
      PromiseHands(s, spare.value, 1);
      ThenPhase(s, AddPromise(s, spare.value, 1), r, Attaching(spare.value));
    } else {
      var t := s.(pool := B.TryAcquire(s.pool).0);
      FieldHands(s, t);
      RegisterHands(t, r, l);
      PendedHands(t, r, a);
      HandsTrans(s, t, Register(t, r, l));
      HandsTrans(s, t, Pended(t, r, a));
    }
  }

  lemma RegisterHands(s: State, r: ReqId, l: Link)
    requires r in s.reqs && !Hands(s.reqs[r].phase)
    ensures SameHands(s, Register(s, r, l))
  {
    hide SameHands, SetPhase;
    var a := s.reqs[r].addr;
    var t := s.(entries := s.entries[l := Entry(a, r, 1, Connecting)],
                h2Connecting := s.h2Connecting[a := At(s.h2Connecting, a) + [l]],
                streamsActive := s.streamsActive + 1);
    FieldHands(s, t);
    ThenPhase(s, t, r, Dialing(l));
  }

  lemma PendedHands(s: State, r: ReqId, a: Addr)
    requires r in s.reqs && !Hands(s.reqs[r].phase)
    ensures SameHands(s, Pended(s, r, a))
  {
    hide SameHands, SetPhase;
    var t := s.(pool := s.pool.(pendingOverflow := s.pool.pendingOverflow + 1));
    var u := s.(h2Waiters := s.h2Waiters[a := At(s.h2Waiters, a) + [r]],
                pool := s.pool.(pendingActive := s.pool.pendingActive + 1, pendingTotal := s.pool.pendingTotal + 1));
    FieldHands(s, t);
    FieldHands(s, u);
    ThenPhase(s, t, r, Exiting);
    ThenPhase(s, u, r, Queued);
  }

  lemma PromoteHands(s: State, a: Addr)
    requires At(s.h2Waiters, a) != [] ==> At(s.h2Waiters, a)[0] in s.reqs && s.reqs[At(s.h2Waiters, a)[0]].phase.Queued?
    ensures SameHands(s, Promote(s, a))
  {
    hide SameHands, SetPhase, AddStream, FirstLive, B.TryAcquire;
    FieldHands(s, s);
    var q := At(s.h2Waiters, a);
    if q != [] {
      var live := FirstLive(s, At(s.h2Pool, a));
      if live.Some? {
        var t := Dequeue(s, a);
        FieldHands(s, t);
        StreamHands(t, live.value, 1);
        HandsTrans(s, t, AddStream(t, live.value, 1));
        ThenPhase(s, AddStream(t, live.value, 1), q[0], Sent(StreamGrant(live.value)));
      } else {
        var t := s.(pool := B.TryAcquire(s.pool).0);
        FieldHands(s, t);
        FieldHands(s, Dequeue(t, a));
        ThenPhase(s, Dequeue(t, a), q[0], Sent(DialGrant));
      }
    }
  }

  lemma GiveThenPhase(s: State, r: ReqId, p: Phase)
    requires Inv(s) && r in s.reqs && !Hands(s.reqs[r].phase) && !s.reqs[r].phase.H1Queued?
    ensures SameHands(s, SetPhase(GivePermit(s), r, p))
  {
    hide SameHands, SetPhase, GivePermit, Inv;
    H1Head(s);
    GiveHands(s);
    ThenPhase(s, GivePermit(s), r, p);
  }

  lemma H1Head(s: State)
    requires Inv(s)
    ensures HeadOk(s)
  {
    if s.pool.waiters != [] {
      HeadQueued(s);
    }
  }

  lemma QueueHead(s: State, a: Addr)
    requires Inv(s)
    ensures At(s.h2Waiters, a) != [] ==> At(s.h2Waiters, a)[0] in s.reqs && s.reqs[At(s.h2Waiters, a)[0]].phase.Queued?
  {
    if At(s.h2Waiters, a) != [] {
      InQueue(s, a, At(s.h2Waiters, a)[0]);
    }
  }

  lemma CancelHands(s: State, r: ReqId)
    requires Inv(s) && r in s.reqs && (s.reqs[r].phase.Queued? || s.reqs[r].phase.Sent?)
    ensures SameHands(s, CancelWaitStep(s, r))
  {
    hide SameHands, SetPhase, GivePermit, Inv, AddStream;
    var a := s.reqs[r].addr;
    FieldHands(s, s);
    if r in At(s.h2Waiters, a) {
      var t := s.(h2Waiters := s.h2Waiters[a := Without(At(s.h2Waiters, a), r)],
                  pool := s.pool.(pendingActive := s.pool.pendingActive - 1));
      FieldHands(s, t);
      ThenPhase(s, t, r, Exiting);
    } else if s.reqs[r].phase.Sent? {
      match s.reqs[r].phase.grant
      case StreamGrant(l) =>
        var t := s.(streamsActive := s.streamsActive - 1);
        StreamHands(s, l, -1);
        FieldHands(s, t);
        ThenPhase(s, t, r, Exiting);
        ThenPhase(s, AddStream(s, l, -1), r, Exiting);
        OweHands(s, SetPhase(t, r, Exiting), a);
        OweHands(s, SetPhase(AddStream(s, l, -1), r, Exiting), a);
      case DialGrant =>
        GiveThenPhase(s, r, Exiting);
        OweHands(s, SetPhase(GivePermit(s), r, Exiting), a);
    }
  }

  lemma ReleaseHands(s: State, r: ReqId)
    requires r in s.reqs && s.reqs[r].phase.Riding?
    ensures SameHands(s, ReleaseStep(s, r))
  {
    hide SameHands, SetPhase, AddStream;
    var l := s.reqs[r].phase.link;
    StreamHands(s, l, -1);
    ThenPhase(s, AddStream(s, l, -1), r, Releasing(l));
    OweHands(s, SetPhase(AddStream(s, l, -1), r, Releasing(l)), s.reqs[r].addr);
  }

  lemma FailEntryHands(s: State, r: ReqId)
    requires r in s.reqs && s.reqs[r].phase.DialFailed? && s.reqs[r].phase.link in s.entries
    ensures SameHands(s, FailEntryStep(s, r))
  {
    hide SameHands, SetPhase;
    FieldHands(s, FailBase(s, r));
    ThenPhase(s, FailBase(s, r), r, Done);
    OweHands(s, SetPhase(FailBase(s, r), r, Done), s.reqs[r].addr);
  }

  lemma H1AcquireHands(s: State, r: ReqId)
    requires r in s.reqs && !Hands(s.reqs[r].phase)
    ensures SameHands(s, H1AcquireStep(s, r))
  {
    hide SameHands, SetPhase, B.AcquireOrPend;
    var (p, out) := B.AcquireOrPend(s.pool, r);
    FieldHands(s, s.(pool := p));
    ThenPhase(s, s.(pool := p), r, match out case Permit => H1Dialing case Pending => H1Queued case Overflow => Exiting);
  }

  lemma H1CancelHands(s: State, r: ReqId)
    requires Inv(s) && r in s.reqs && (s.reqs[r].phase.H1Queued? || s.reqs[r].phase.H1Sent?)
    ensures SameHands(s, H1CancelStep(s, r))
  {
    hide SameHands, SetPhase, GivePermit, Inv, B.Withdraw;
    FieldHands(s, s);
    if r in s.pool.waiters {
      FieldHands(s, s.(pool := B.Withdraw(s.pool, r)));
      ThenPhase(s, s.(pool := B.Withdraw(s.pool, r)), r, Exiting);
    } else if s.reqs[r].phase.H1Sent? {
      GiveThenPhase(s, r, Exiting);
    }
  }

  // ---------------------------------------------------------------------------
  // Steps that open, move or close a connection
  // ---------------------------------------------------------------------------

  /** Everything but l is in custody. */
  ghost predicate CustodyBut(s: State, l: Link) {
    forall k :: Open(s.conns, k) && k != l ==> Kept(s, k)
  }

  lemma ClosedCustody(s: State, t: State, l: Link)
    requires CustodyBut(s, l) && SameHands(s, t) && !Open(t.conns, l)
    ensures Custody(t)
  {
    forall k | Open(t.conns, k) ensures Kept(t, k) {
      assert Kept(s, k);
      if Held(s.reqs, k) {
        var r :| r in s.reqs && Holds(s.reqs[r], k);
        assert r in t.reqs && Holds(t.reqs[r], k);
      }
    }
  }

  lemma SettleHands(s: State, l: Link)
    requires l in s.conns
    ensures SameHands(s, Settle(s, l)) && Settle(s, l).reqs == s.reqs
  {
    var c := s.conns[l];
    var t := s.(conns := s.conns[l := c.(closed := true, released := true)], cxActive := s.cxActive - 1);
    assert Settle(s, l) == t.(lbActive := t.lbActive[c.host := Load(t.lbActive, c.host) - 1]);
  }

  /** Closing takes the connection out of everyone's charge. */
  lemma CloseHands(s: State, l: Link)
    requires HeadOk(s)
    ensures SameHands(s, CloseConn(s, l)) && !Open(CloseConn(s, l).conns, l)
  {
    hide GivePermit, Settle, SameHands;
    if l in s.conns && !s.conns[l].released {
      SettleHands(s, l);
      GiveHands(Settle(s, l));
      HandsTrans(s, Settle(s, l), GivePermit(Settle(s, l)));
    } else {
      ClosedAgain(s, l);
    }
  }

  lemma ClosedAgain(s: State, l: Link)
    requires l in s.conns ==> s.conns[l].released
    ensures SameHands(s, s)
    ensures l in s.conns ==> SameHands(s, s.(conns := s.conns[l := s.conns[l].(closed := true)]))
  {
  }

  /** A call that lets go of l leaves the rest in custody. */
  lemma LetGo(s: State, r: ReqId, l: Link, p: Phase)
    requires Custody(s) && r in s.reqs && (Hands(s.reqs[r].phase) ==> s.reqs[r].phase.link == l)
    ensures CustodyBut(SetPhase(s, r, p), l)
  {
    var t := SetPhase(s, r, p);
    forall k | Open(t.conns, k) && k != l ensures Kept(t, k) {
      assert Kept(s, k);
      if Held(s.reqs, k) {
        var w :| w in s.reqs && Holds(s.reqs[w], k);
        assert w != r && w in t.reqs && Holds(t.reqs[w], k);
      }
    }
  }

  lemma ConnectedCustody(s: State, r: ReqId, l: Link, p: Phase)
    requires Custody(s) && r in s.reqs && !Hands(s.reqs[r].phase) && Hands(p) && p.link == l
    ensures Custody(Connected(s, r, l, p))
  {
    var t := Connected(s, r, l, p);
    forall k | Open(t.conns, k) ensures Kept(t, k) {
      if k == l {
        assert Holds(t.reqs[r], l);
      } else {
        assert Open(s.conns, k);
        assert Kept(s, k);
        if Held(s.reqs, k) {
          var w :| w in s.reqs && Holds(s.reqs[w], k);
          assert w in t.reqs && Holds(t.reqs[w], k);
        }
      }
    }
  }

  lemma CloseAfter(s: State, r: ReqId, l: Link, p: Phase)
    requires Inv(s) && Custody(s) && r in s.reqs && Holds(s.reqs[r], l)
    ensures Custody(CloseConn(SetPhase(s, r, p), l))
  {
    hide Inv, CloseConn, SameHands, Custody, CustodyBut;
    LetGo(s, r, l, p);
    H1Head(s);
    var t := SetPhase(s, r, p);
    CloseHands(t, l);
    ClosedCustody(t, CloseConn(t, l), l);
  }

  lemma EvictCustody(s: State, a: Addr, l: Link)
    requires Custody(s) && NoDup(At(s.h2Pool, a)) && HeadOk(s)
    ensures Custody(Evict(s, a, l))
  {
    hide CloseConn, SameHands;
    var t := s.(h2Pool := s.h2Pool[a := Without(At(s.h2Pool, a), l)]);
    WithoutMembers(At(s.h2Pool, a), l);
    forall k | Open(t.conns, k) && k != l ensures Kept(t, k) {
      assert Kept(s, k);
      if InSome(s.h2Pool, k) {
        var b :| k in At(s.h2Pool, b);
        assert k in At(t.h2Pool, b);
      }
    }
    CloseHands(t, l);
    hide Custody;
    ClosedCustody(t, CloseConn(t, l), l);
  }

  /** l lies in a pool of t, which is s but for that. */
  lemma PooledCustody(s: State, t: State, l: Link, a: Addr)
    requires CustodyBut(s, l) && t.reqs == s.reqs && (forall k :: Open(t.conns, k) <==> Open(s.conns, k))
    requires forall b, k :: k in At(s.h2Pool, b) ==> k in At(t.h2Pool, b)
    requires forall b, k :: k in At(s.h1Pool, b) ==> k in At(t.h1Pool, b)
    requires l in At(t.h2Pool, a) || l in At(t.h1Pool, a)
    ensures Custody(t)
  {
    forall k | Open(t.conns, k) ensures Kept(t, k) {
      if k != l {
        assert Kept(s, k);
        if InSome(s.h2Pool, k) {
          var b :| k in At(s.h2Pool, b);
          assert k in At(t.h2Pool, b);
        } else if InSome(s.h1Pool, k) {
          var b :| k in At(s.h1Pool, b);
          assert k in At(t.h1Pool, b);
        }
      }
    }
  }

  lemma PoolConnCustody(s: State, r: ReqId)
    requires Custody(s) && Enabled(s, PoolConn(r))
    ensures Custody(PoolConnStep(s, r))
  {
    var a, l := s.reqs[r].addr, s.reqs[r].phase.link;
    var t := PoolConnStep(s, r);
    var u := SetPhase(s, r, Riding(l));
    LetGo(s, r, l, Riding(l));
    assert t.reqs == u.reqs;
    assert At(t.h2Pool, a) == At(s.h2Pool, a) + [l];
    assert forall k :: Open(t.conns, k) <==> Open(u.conns, k);
    hide CustodyBut, Custody;
    PooledCustody(u, t, l, a);
  }

  lemma PutIdleCustody(s: State, r: ReqId, w: bool)
    requires Inv(s) && Custody(s) && r in s.reqs && s.reqs[r].phase.H1Holding?
    ensures Custody(H1PutIdleStep(s, r, w))
  {
    hide Inv, CloseConn, Custody, CustodyBut, SetPhase;
    var l := s.reqs[r].phase.link;
    RefsOf(s, r);
    var a, u := s.conns[l].addr, SetPhase(s, r, Done);
    PhaseFields(s, r, Done);
    LetGo(s, r, l, Done);
    if w || |At(s.h1Pool, a)| >= H1_POOL_MAX_PER_ENDPOINT {
      CloseAfter(s, r, l, Done);
    } else {
      var t := u.(h1Pool := s.h1Pool[a := At(s.h1Pool, a) + [l]]);
      assert At(t.h1Pool, a) == At(s.h1Pool, a) + [l];
      PooledCustody(u, t, l, a);
    }
  }

  lemma PopIdleCustody(s: State, r: ReqId)
    requires Custody(s) && r in s.reqs && s.reqs[r].phase.H1Picked? && At(s.h1Pool, s.reqs[r].addr) != []
    ensures Custody(H1Step(s, H1PopIdle(r)))
  {
    var a := s.reqs[r].addr;
    var q := At(s.h1Pool, a);
    var n := |q| - 1;
    var l := q[n];
    var t := SetPhase(s.(h1Pool := s.h1Pool[a := q[..n]]), r, H1Hit(l));
    assert q == q[..n] + [l];
    forall k | Open(t.conns, k) ensures Kept(t, k) {
      assert Kept(s, k);
      if k == l {
        assert Holds(t.reqs[r], l);
      } else if InSome(s.h1Pool, k) {
        var b :| k in At(s.h1Pool, b);
        assert k in At(t.h1Pool, b);
      } else if Held(s.reqs, k) {
        var w :| w in s.reqs && Holds(s.reqs[w], k);
        assert w in t.reqs && Holds(t.reqs[w], k);
      }
    }
    assert t == H1Step(s, H1PopIdle(r));
  }

  lemma FirePickCustody(s: State, r: ReqId)
    requires Custody(s) && Enabled(s, FirePick(r))
    ensures Custody(FirePickStep(s, r))
  {
    var t := FirePickStep(s, r);
    forall k | Open(t.conns, k) ensures Kept(t, k) {
      assert Kept(s, k);
      if Held(s.reqs, k) {
        var w :| w in s.reqs && Holds(s.reqs[w], k);
        assert w in t.reqs && Holds(t.reqs[w], k);
      }
    }
  }

  lemma EvictPooledCustody(s: State, a: Addr, l: Link)
    requires Inv(s) && Custody(s)
    ensures Custody(Owe(Evict(s, a, l), a))
  {
    hide Inv, Custody, Evict, SameHands;
    H1Head(s);
    PoolNoDup(s, a);
    EvictCustody(s, a, l);
    FieldHands(Evict(s, a, l), Owe(Evict(s, a, l), a));
    SameCustody(Evict(s, a, l), Owe(Evict(s, a, l), a));
  }

  lemma ReleaseCheckCustody(s: State, r: ReqId)
    requires Inv(s) && Custody(s) && r in s.reqs && s.reqs[r].phase.Releasing?
    ensures Custody(ReleaseCheckStep(s, r))
  {
    hide Inv, Custody, Evict, SameHands;
    var a, l, t := s.reqs[r].addr, s.reqs[r].phase.link, SetPhase(s, r, Done);
    H1Head(s);
    PoolNoDup(s, a);
    PhaseHands(s, r, Done);
    SameCustody(s, t);
    EvictCustody(t, a, l);
    FieldHands(Evict(t, a, l), Owe(Evict(t, a, l), a));
    SameCustody(Evict(t, a, l), Owe(Evict(t, a, l), a));
  }

  // ---------------------------------------------------------------------------
  // Every step, every run
  // ---------------------------------------------------------------------------

  predicate MovesConn(e: Event) {
    e.FirePick? || e.DialConnects? || e.FinalizeFails? || e.PoolConn? || e.ReleaseCheck? || e.EvictOnError? || e.DrainWatch?
    || e.H1PopIdle? || e.H1DialConnects? || e.H1Close? || e.H1PutIdle?
  }

  lemma MoveCustody(s: State, e: Event)
    requires Inv(s) && Custody(s) && Enabled(s, e) && MovesConn(e) && !H1Event(e)
    ensures Custody(Step(s, e))
  {
    hide SameLimits, Inv, Custody, SetPhase, CloseConn, Connected, Owe, Evict, H1Step, Promote;
    match e
    case FirePick(r) => FirePickCustody(s, r);
    case DialConnects(r) => ConnectedCustody(s, r, s.reqs[r].phase.link, Dialed(s.reqs[r].phase.link));
    case FinalizeFails(r) => CloseAfter(s, r, s.reqs[r].phase.link, DialFailed(s.reqs[r].phase.link));
    case PoolConn(r) => PoolConnCustody(s, r);
    case ReleaseCheck(r) => ReleaseCheckCustody(s, r);
    case EvictOnError(a, l) => EvictPooledCustody(s, a, l);
    case DrainWatch(a, l) => EvictPooledCustody(s, a, l);
  }

  lemma H1CloseCustody(s: State, l: Link)
    requires Inv(s) && Custody(s)
    ensures Custody(CloseConn(s, l))
  {
    hide Inv, Custody, CloseConn, SameHands;
    H1Head(s);
    CloseHands(s, l);
    SameCustody(s, CloseConn(s, l));
  }

  lemma H1MoveCustody(s: State, e: Event)
    requires Inv(s) && Custody(s) && Enabled(s, e) && MovesConn(e) && H1Event(e)
    ensures Custody(H1Step(s, e))
  {
    hide SameLimits, Inv, Custody, SetPhase, CloseConn, Connected, GivePermit, H1PutIdleStep, H1AcquireStep, H1CancelStep;
    match e
    case H1PopIdle(r) => PopIdleCustody(s, r);
    case H1DialConnects(r, l) => ConnectedCustody(s, r, l, H1Holding(l));
    case H1Close(r) => H1CloseCustody(s, s.reqs[r].phase.link);
    case H1PutIdle(r, w) => PutIdleCustody(s, r, w);
  }

  lemma CallHands(s: State, e: Event)
    requires Inv(s) && Enabled(s, e)
    requires e.Pick? || e.Acquire? || e.AttachReady? || e.AttachCancel? || e.AcceptGrant? || e.UndoOrphan? || e.CancelWait?
    ensures SameHands(s, Step(s, e))
  {
    hide SameLimits, Inv, SameHands, SetPhase, AddPromise, Owe, Register, H1Step, Promote;
    match e
    case Pick(r, h, a, h2) => PickHands(s, r, h, Req(h, a, if h2 then Picked else H1Picked));
    case Acquire(r, l) => AcquireHands(s, r, l);
    case AttachReady(r) => AttachReadyHands(s, r);
    case AttachCancel(r) =>
      PromiseHands(s, s.reqs[r].phase.link, -1);
      ThenPhase(s, AddPromise(s, s.reqs[r].phase.link, -1), r, Done);
    case AcceptGrant(r, l) => AcceptHands(s, r, l);
    case UndoOrphan(r) =>
      FieldHands(s, s.(streamsActive := s.streamsActive - 1));
      ThenPhase(s, s.(streamsActive := s.streamsActive - 1), r, Exiting);
      OweHands(s, SetPhase(s.(streamsActive := s.streamsActive - 1), r, Exiting), s.reqs[r].addr);
    case CancelWait(r) => CancelHands(s, r);
  }

  lemma PickHands(s: State, r: ReqId, h: Host, q: Req)
    requires r !in s.reqs
    ensures SameHands(s, AddLoad(s, h, 1).(reqs := s.reqs[r := q]))
  {
  }

  lemma AttachReadyHands(s: State, r: ReqId)
    requires r in s.reqs && s.reqs[r].phase.Attached? && s.reqs[r].phase.link in s.entries
    ensures SameHands(s, AttachReadyStep(s, r))
  {
    hide SameHands, SetPhase;
    var l, t := s.reqs[r].phase.link, s.(streamsActive := s.streamsActive - 1);
    FieldHands(s, t);
    PhaseHands(s, r, Done);
    PhaseHands(s, r, Riding(l));
    ThenPhase(s, t, r, Done);
  }

  lemma AcceptHands(s: State, r: ReqId, l: Link)
    requires r in s.reqs && s.reqs[r].phase.Sent?
    ensures SameHands(s, AcceptGrantStep(s, r, l))
  {
    hide SameHands, SetPhase, Register;
    match s.reqs[r].phase.grant
    case StreamGrant(k) =>
      PhaseHands(s, r, Hit(k));
      PhaseHands(s, r, Orphaned(k));
    case DialGrant => RegisterHands(s, r, l);
  }

  lemma OtherHands(s: State, e: Event)
    requires Inv(s) && Enabled(s, e)
    requires e.DialFails? || e.FailEntry? || e.Release? || e.DoPromote? || e.PeerClose? || e.PeerGoAway?
    ensures SameHands(s, Step(s, e))
  {
    hide SameLimits, Inv, SameHands, SetPhase, GivePermit, Owe, H1Step, Promote;
    match e
    case DialFails(r) => GiveThenPhase(s, r, DialRefused(s.reqs[r].phase.link));
    case FailEntry(r) => FailEntryHands(s, r);
    case Release(r) => ReleaseHands(s, r);
    case DoPromote(a) =>
      var t := s.(owed := s.owed - multiset{a});
      QueueHead(s, a);
      FieldHands(s, t);
      PromoteHands(t, a);
      HandsTrans(s, t, Promote(t, a));
    case PeerClose(l) => ConnHands(s, l, s.conns[l].(closed := true));
    case PeerGoAway(l) => ConnHands(s, l, s.conns[l].(goneAway := true));
  }

  lemma ConnHands(s: State, l: Link, c: Conn)
    requires l in s.conns && c.released == s.conns[l].released
    ensures SameHands(s, s.(conns := s.conns[l := c]))
  {
  }

  lemma H1Hands(s: State, e: Event)
    requires Inv(s) && Enabled(s, e) && (e.H1Acquire? || e.H1Accept? || e.H1Cancel? || e.H1DialFails?)
    ensures SameHands(s, H1Step(s, e))
  {
    hide SameLimits, Inv, SameHands, SetPhase, GivePermit;
    match e
    case H1Acquire(r) => H1AcquireHands(s, r);
    case H1Accept(r) => PhaseHands(s, r, H1Dialing);
    case H1Cancel(r) => H1CancelHands(s, r);
    case H1DialFails(r) => GiveThenPhase(s, r, Exiting);
  }

  lemma H1IsStep(s: State, e: Event)
    requires Enabled(s, e) && H1Event(e)
    ensures Step(s, e) == H1Step(s, e)
  {
    hide SameLimits, SetPhase, GivePermit, CloseConn, Connected, AddPromise, Owe, AddLoad, Promote, Evict;
    hide AcquireStep, FirePickStep, FailEntryStep, PoolConnStep, AttachReadyStep, AcceptGrantStep, CancelWaitStep, ReleaseStep, ReleaseCheckStep;
    hide H1Step, Enabled, At;
  }

  lemma StepCustody(s: State, e: Event)
    requires Inv(s) && Custody(s) && Enabled(s, e)
    ensures Custody(Step(s, e))
  {
    hide SameLimits, Inv, Custody, SameHands, Step, Enabled;
    if MovesConn(e) {
      if H1Event(e) {
        H1MoveCustody(s, e);
        H1IsStep(s, e);
      } else {
        MoveCustody(s, e);
      }
    } else {
      if H1Event(e) {
        H1Hands(s, e);
        H1IsStep(s, e);
      } else if e.DialFails? || e.FailEntry? || e.Release? || e.DoPromote? || e.PeerClose? || e.PeerGoAway? {
        OtherHands(s, e);
      } else {
        CallHands(s, e);
      }
      SameCustody(s, Step(s, e));
    }
  }

  lemma {:induction false} RunCustody(s: State, es: seq<Event>)
    requires Inv(s) && Custody(s) && Run(s, es).Some?
    ensures Custody(Run(s, es).value)
    decreases es
  {
    hide Inv, Step, Enabled, Custody;
    if es == [] {
    } else {
      StepCustody(s, es[0]);
      StepKeeps(s, es[0]);
      RunCustody(Step(s, es[0]), es[1..]);
    }
  }

  /** Over every run: a connection that was dialed and not closed lies in a pool or is in the hands of a
      call; so none is leaked. */
  lemma NoConnectionLost(c: nat, cap: B.Cap, maxPending: nat, es: seq<Event>, l: Link)
    requires c >= 1 && Run(Init(c, cap, maxPending), es).Some?
    ensures var s := Run(Init(c, cap, maxPending), es).value;
            l in s.conns && !s.conns[l].released ==>
              || (exists a :: l in At(s.h2Pool, a) || l in At(s.h1Pool, a))
              || (exists r :: r in s.reqs && Holds(s.reqs[r], l))
  {
    hide Run, Inv;
    var s := Init(c, cap, maxPending);
    assert s == Run(s, []).value by { EmptyRun(s); }
    ReachableInv(c, cap, maxPending, []);
    RunCustody(s, es);
    var t := Run(s, es).value;
    if Open(t.conns, l) {
      assert Kept(t, l);
    }
  }

  lemma EmptyRun(s: State)
    ensures Run(s, []) == Some(s)
  {
  }

  /** Once every call is done, the budget counts exactly the connections lying in the pools: nothing else
      holds a permit. */
  lemma IdleClusterHoldsPools(c: nat, cap: B.Cap, maxPending: nat, es: seq<Event>)
    requires c >= 1 && Run(Init(c, cap, maxPending), es).Some?
    requires var s := Run(Init(c, cap, maxPending), es).value; forall r :: r in s.reqs ==> s.reqs[r].phase.Done?
    ensures var s := Run(Init(c, cap, maxPending), es).value;
            && s.pool.active == |OpenConns(s.conns)|
            && (forall l :: l in OpenConns(s.conns) ==> exists a :: l in At(s.h2Pool, a) || l in At(s.h1Pool, a))
            && ((forall a :: At(s.h2Pool, a) == [] && At(s.h1Pool, a) == []) ==> s.pool.active == 0)
  {
    hide Run;
    var s := Run(Init(c, cap, maxPending), es).value;
    PermitConservation(c, cap, maxPending, es);
    assert PermitReqs(s.reqs) == {};
    forall l | l in OpenConns(s.conns) ensures exists a :: l in At(s.h2Pool, a) || l in At(s.h1Pool, a) {
      NoConnectionLost(c, cap, maxPending, es, l);
    }
    if forall a :: At(s.h2Pool, a) == [] && At(s.h1Pool, a) == [] {
      assert OpenConns(s.conns) == {};
    }
  }
}
