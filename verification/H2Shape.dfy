/** Every step keeps the shape: queues hold waiting calls, pools hold established connections, and
    each connecting entry has one initiator. */
module H2Shape {
  import opened Options
  import opened Seqs
  import opened H2Machine
  import opened H2Ledger
  import opened H2Invariant
  import B = ConnBudget

  lemma NoDupsAt<T>(m: map<Addr, seq<T>>, a: Addr, q: seq<T>)
    requires (forall b :: NoDup(At(m, b))) && NoDup(q)
    ensures var now := m[a := q]; forall b :: NoDup(At(now, b))
  {
    var now := m[a := q];
    forall b ensures NoDup(At(now, b)) {
      assert At(now, b) == if b == a then q else At(m, b);
    }
  }

  lemma PickShape(s: State, r: ReqId, h: Host, a: Addr, p: Phase)
    requires Shape(s) && r !in s.reqs && (p.Picked? || p.H1Picked?)
    ensures Shape(AddLoad(s, h, 1).(reqs := s.reqs[r := Req(h, a, p)]))
  {
    ReqRefs(s, r, Req(h, a, p));
    ReqQueues(s, r, Req(h, a, p));
  }

  /** A connection changes in flags or counts, and is not released while its dial is being finished. */
  lemma ConnShape(s: State, l: Link, c: Conn)
    requires Shape(s) && l in s.conns
    requires c.released ==> c.closed
    requires c.released && !s.conns[l].released ==> forall r :: r in s.reqs ==> s.reqs[r].phase != Dialed(l)
    ensures Shape(s.(conns := s.conns[l := c]))
  {
    var cs := s.conns[l := c];
    assert ConnRefsOk(cs, s.reqs) by {
      forall r | r in s.reqs ensures ConnOk(cs, s.reqs[r]) {
        assert ConnOk(s.conns, s.reqs[r]);
      }
    }
    assert ConnsOk(s.entries, cs);
    assert IdleOk(s.entries, cs, s.h1Pool);
    hide LinksOk, ConnRefsOk, OrphansOk, PoolOk, ConnectingOk, WaitersOk, QueuedOk, H1QueueOk, H1QueuedOk, ConnsOk, IdleOk;
  }

  lemma PromisedShape(s: State, l: Link, e: Entry)
    requires Shape(s) && l in s.entries && e == s.entries[l].(promised := e.promised)
    ensures Shape(s.(entries := s.entries[l := e]))
  {
    var es := s.entries[l := e];
    assert LinksOk(es, s.reqs) by {
      forall r | r in s.reqs ensures LinkOk(es, r, s.reqs[r]) {
        assert LinkOk(s.entries, r, s.reqs[r]);
      }
    }
    assert PoolOk(es, s.h2Pool) by {
      forall a, k | k in At(s.h2Pool, a) ensures OnReady(es, a, k) {
        assert OnReady(s.entries, a, k);
      }
    }
    assert ConnectingOk(es, s.h2Connecting) by {
      forall a, k | k in At(s.h2Connecting, a) ensures OnConnecting(es, a, k) {
        assert OnConnecting(s.entries, a, k);
      }
    }
    assert ConnsOk(es, s.conns);
    assert IdleOk(es, s.conns, s.h1Pool);
    hide LinksOk, ConnRefsOk, OrphansOk, PoolOk, ConnectingOk, WaitersOk, QueuedOk, H1QueueOk, H1QueuedOk, ConnsOk, IdleOk;
  }

  // -- entries and connections ------------------------------------------------

  /** What a new, never used link changes in the references to entries. */
  lemma NewEntryRefs(s: State, r: ReqId, l: Link)
    requires Shape(s) && r in s.reqs && Unused(s, l)
    ensures var q := s.reqs[r].(phase := Dialing(l));
            LinksOk(s.entries[l := Entry(q.addr, r, 1, Connecting)], s.reqs[r := q])
  {
    var q := s.reqs[r].(phase := Dialing(l));
    var es := s.entries[l := Entry(q.addr, r, 1, Connecting)];
    var reqs := s.reqs[r := q];
    forall k | k in reqs ensures LinkOk(es, k, reqs[k]) {
      if k != r {
        assert LinkOk(s.entries, k, s.reqs[k]);
        assert ConnOk(s.conns, s.reqs[k]);
      }
    }
  }

  lemma NewEntryLists(s: State, l: Link, e: Entry)
    requires Shape(s) && Unused(s, l) && e.status.Connecting?
    ensures var es := s.entries[l := e];
            && PoolOk(es, s.h2Pool)
            && ConnectingOk(es, s.h2Connecting[e.addr := At(s.h2Connecting, e.addr) + [l]])
            && ConnsOk(es, s.conns) && IdleOk(es, s.conns, s.h1Pool)
  {
    var es := s.entries[l := e];
    var cn := s.h2Connecting[e.addr := At(s.h2Connecting, e.addr) + [l]];
    assert PoolOk(es, s.h2Pool) by {
      forall a, k | k in At(s.h2Pool, a) ensures OnReady(es, a, k) {
        assert OnReady(s.entries, a, k);
      }
    }
    assert !OnConnecting(s.entries, e.addr, l);
    NoDupAppend(At(s.h2Connecting, e.addr), l);
    NoDupsAt(s.h2Connecting, e.addr, At(s.h2Connecting, e.addr) + [l]);
    forall a, k | k in At(cn, a) ensures OnConnecting(es, a, k) {
      if a != e.addr {
        assert k in At(s.h2Connecting, a);
        assert OnConnecting(s.entries, a, k);
      } else if k != l {
        assert k in At(s.h2Connecting, e.addr);
        assert OnConnecting(s.entries, a, k);
      } else {
        assert es[k] == e;
      }
    }
  }

  lemma RegisterShape(s: State, r: ReqId, l: Link)
    requires Shape(s) && r in s.reqs && Unused(s, l)
    requires s.reqs[r].phase.Picked? || s.reqs[r].phase.Sent?
    ensures Shape(Register(s, r, l))
  {
    var q := s.reqs[r].(phase := Dialing(l));
    NewEntryRefs(s, r, l);
    NewEntryLists(s, l, Entry(q.addr, r, 1, Connecting));
    ReqQueues(s, r, q);
    assert ConnRefsOk(s.conns, s.reqs[r := q]);
    assert OrphansOk(s.h2Pool, s.reqs[r := q]);
    hide LinksOk, ConnRefsOk, OrphansOk, PoolOk, ConnectingOk, WaitersOk, QueuedOk, H1QueueOk, H1QueuedOk, ConnsOk, IdleOk;
  }

  lemma NewConnRefs(s: State, r: ReqId, l: Link, c: Conn, q: Req)
    requires LinksOk(s.entries, s.reqs) && ConnRefsOk(s.conns, s.reqs) && r in s.reqs && l !in s.conns && !c.released
    requires l in s.entries ==> s.entries[l].initiator == r
    requires ConnOk(s.conns[l := c], q)
    ensures ConnRefsOk(s.conns[l := c], s.reqs[r := q])
  {
    var cs, reqs := s.conns[l := c], s.reqs[r := q];
    forall k | k in reqs ensures ConnOk(cs, reqs[k]) {
      if k != r {
        assert ConnOk(s.conns, s.reqs[k]);
        assert LinkOk(s.entries, k, s.reqs[k]);
      }
    }
  }

  lemma NewConnLists(s: State, l: Link, c: Conn)
    requires ConnsOk(s.entries, s.conns) && IdleOk(s.entries, s.conns, s.h1Pool)
    requires l !in s.conns && !c.released
    ensures ConnsOk(s.entries, s.conns[l := c]) && IdleOk(s.entries, s.conns[l := c], s.h1Pool)
  {
  }

  lemma ConnectedShape(s: State, r: ReqId, l: Link, p: Phase)
    requires Shape(s) && r in s.reqs && l !in s.conns
    requires (s.reqs[r].phase == Dialing(l) && p == Dialed(l))
          || (s.reqs[r].phase.H1Dialing? && l !in s.entries && p == H1Holding(l))
    ensures Shape(Connected(s, r, l, p))
  {
    var q := s.reqs[r].(phase := p);
    var c := Conn(q.addr, q.host, 0, false, false, false);
    assert LinkOk(s.entries, r, s.reqs[r]);
    NewConnRefs(s, r, l, c, q);
    NewConnLists(s, l, c);
    assert LinksOk(s.entries, s.reqs[r := q]);
    ReqQueues(s, r, q);
    assert OrphansOk(s.h2Pool, s.reqs[r := q]);
    hide LinksOk, ConnRefsOk, OrphansOk, PoolOk, ConnectingOk, WaitersOk, QueuedOk, H1QueueOk, H1QueuedOk, ConnsOk, IdleOk;
  }

  lemma SettledRefs(s: State, r: ReqId, l: Link, e: Entry, p: Phase)
    requires LinksOk(s.entries, s.reqs) && r in s.reqs
    requires OnConnecting(s.entries, s.reqs[r].addr, l) && s.entries[l].initiator == r
    requires e == s.entries[l].(status := e.status)
    requires LinkOk(s.entries[l := e], r, s.reqs[r].(phase := p))
    ensures LinksOk(s.entries[l := e], s.reqs[r := s.reqs[r].(phase := p)])
  {
    var es, reqs := s.entries[l := e], s.reqs[r := s.reqs[r].(phase := p)];
    forall k | k in reqs ensures LinkOk(es, k, reqs[k]) {
      if k != r {
        assert LinkOk(s.entries, k, s.reqs[k]);
      }
    }
  }

  lemma SettledLists(s: State, l: Link, e: Entry)
    requires Shape(s) && l in s.entries && s.entries[l].status.Connecting?
    requires e == s.entries[l].(status := e.status) && !e.status.Connecting?
    ensures var es := s.entries[l := e];
            && PoolOk(es, s.h2Pool)
            && ConnectingOk(es, s.h2Connecting[e.addr := Without(At(s.h2Connecting, e.addr), l)])
            && IdleOk(es, s.conns, s.h1Pool) && l !in At(s.h2Pool, e.addr)
  {
    var es := s.entries[l := e];
    var cn := s.h2Connecting[e.addr := Without(At(s.h2Connecting, e.addr), l)];
    WithoutMembers(At(s.h2Connecting, e.addr), l);
    NoDupsAt(s.h2Connecting, e.addr, Without(At(s.h2Connecting, e.addr), l));
    forall a, k | k in At(s.h2Pool, a) ensures OnReady(es, a, k) {
      assert OnReady(s.entries, a, k);
    }
    forall a, k | k in At(cn, a) ensures OnConnecting(es, a, k) {
      assert k in At(s.h2Connecting, a);
      assert OnConnecting(s.entries, a, k);
    }
    assert !OnReady(s.entries, e.addr, l);
  }

  /** A call that is done refers to nothing. */
  lemma DoneRefs(s: State, r: ReqId)
    requires ConnRefsOk(s.conns, s.reqs) && OrphansOk(s.h2Pool, s.reqs) && r in s.reqs
    ensures var reqs := s.reqs[r := s.reqs[r].(phase := Done)]; ConnRefsOk(s.conns, reqs) && OrphansOk(s.h2Pool, reqs)
  {
  }

  /** An entry changes its status and its connection at most its stream count. */
  lemma SettledConns(s: State, l: Link, e: Entry, cs: map<Link, Conn>)
    requires ConnsOk(s.entries, s.conns) && IdleOk(s.entries, s.conns, s.h1Pool) && l in s.entries
    requires e.status.Ready? ==> l in s.conns
    requires cs.Keys == s.conns.Keys
    requires forall k :: k in cs ==> cs[k].released == s.conns[k].released && cs[k].closed == s.conns[k].closed
    ensures ConnsOk(s.entries[l := e], cs) && IdleOk(s.entries[l := e], cs, s.h1Pool)
  {
  }

  lemma FailEntryShape(s: State, r: ReqId)
    requires Shape(s) && r in s.reqs && s.reqs[r].phase.DialFailed? && s.reqs[r].phase.link in s.entries
    ensures Shape(FailEntryStep(s, r))
  {
    var q, l := s.reqs[r].(phase := Done), s.reqs[r].phase.link;
    assert LinkOk(s.entries, r, s.reqs[r]);
    var e := s.entries[l].(status := Failed);
    SettledRefs(s, r, l, e, Done);
    SettledLists(s, l, e);
    ReqQueues(s, r, q);
    DoneRefs(s, r);
    SettledConns(s, l, e, s.conns);
    hide LinksOk, ConnRefsOk, OrphansOk, PoolOk, ConnectingOk, WaitersOk, QueuedOk, H1QueueOk, H1QueuedOk, ConnsOk, IdleOk;
  }

  lemma PoolAppend(es: map<Link, Entry>, pool: map<Addr, seq<Link>>, a: Addr, l: Link)
    requires PoolOk(es, pool) && OnReady(es, a, l) && l !in At(pool, a)
    ensures PoolOk(es, pool[a := At(pool, a) + [l]])
  {
    NoDupAppend(At(pool, a), l);
    NoDupsAt(pool, a, At(pool, a) + [l]);
    var now := pool[a := At(pool, a) + [l]];
    forall b, k | k in At(now, b) ensures OnReady(es, b, k) {
      assert (k == l && b == a) || k in At(pool, b);
    }
  }

  lemma PoolConnRefs(s: State, r: ReqId, l: Link, c: Conn)
    requires Shape(s) && r in s.reqs && s.reqs[r].phase == Dialed(l) && l in s.conns && c == s.conns[l].(inFlight := c.inFlight)
    ensures var q := s.reqs[r].(phase := Riding(l));
            && ConnRefsOk(s.conns[l := c], s.reqs[r := q])
            && OrphansOk(s.h2Pool[q.addr := At(s.h2Pool, q.addr) + [l]], s.reqs[r := q])
  {
    var q := s.reqs[r].(phase := Riding(l));
    assert LinkOk(s.entries, r, s.reqs[r]);
    forall k | k in s.reqs ensures ConnOk(s.conns[l := c], s.reqs[k]) {
      assert ConnOk(s.conns, s.reqs[k]);
    }
    forall k | k in s.reqs && s.reqs[k].phase.Orphaned? ensures s.reqs[k].phase.link != l {
      assert LinkOk(s.entries, k, s.reqs[k]);
    }
  }

  lemma PoolConnShape(s: State, r: ReqId)
    requires Shape(s) && r in s.reqs && s.reqs[r].phase.Dialed?
    requires s.reqs[r].phase.link in s.entries && s.reqs[r].phase.link in s.conns
    ensures Shape(PoolConnStep(s, r))
  {
    var q, l := s.reqs[r].(phase := Riding(s.reqs[r].phase.link)), s.reqs[r].phase.link;
    assert LinkOk(s.entries, r, s.reqs[r]);
    var e := s.entries[l].(status := Ready);
    var c := s.conns[l].(inFlight := e.promised);
    SettledRefs(s, r, l, e, Riding(l));
    SettledLists(s, l, e);
    PoolAppend(s.entries[l := e], s.h2Pool, q.addr, l);
    PoolConnRefs(s, r, l, c);
    ReqQueues(s, r, q);
    SettledConns(s, l, e, s.conns[l := c]);
    hide LinksOk, ConnRefsOk, OrphansOk, PoolOk, ConnectingOk, WaitersOk, QueuedOk, H1QueueOk, H1QueuedOk, ConnsOk, IdleOk;
  }

  lemma CloseShape(s: State, l: Link)
    requires Shape(s) && forall r :: r in s.reqs ==> s.reqs[r].phase != Dialed(l)
    ensures Shape(CloseConn(s, l))
  {
    if l in s.conns {
      ConnShape(s, l, s.conns[l].(closed := true, released := true));
      ConnShape(s, l, s.conns[l].(closed := true));
      if !s.conns[l].released {
        var u := Settle(s, l);
        assert Shape(u) by {
          hide LinksOk, ConnRefsOk, OrphansOk, PoolOk, ConnectingOk, WaitersOk, QueuedOk, H1QueueOk, H1QueuedOk, ConnsOk, IdleOk;
        }
        GivePermitShape(u);
      }
    }
  }

  /** A settled connection is not in the middle of a dial. */
  lemma NotDialed(s: State, l: Link)
    requires LinksOk(s.entries, s.reqs) && !(l in s.entries && s.entries[l].status.Connecting?)
    ensures forall r :: r in s.reqs ==> s.reqs[r].phase != Dialed(l)
  {
    forall r | r in s.reqs ensures s.reqs[r].phase != Dialed(l) {
      assert LinkOk(s.entries, r, s.reqs[r]);
    }
  }

  lemma EvictShape(s: State, a: Addr, l: Link)
    requires Shape(s) && !(l in s.entries && s.entries[l].status.Connecting?)
    ensures Shape(Evict(s, a, l))
  {
    var pool := s.h2Pool[a := Without(At(s.h2Pool, a), l)];
    WithoutMembers(At(s.h2Pool, a), l);
    NoDupsAt(s.h2Pool, a, Without(At(s.h2Pool, a), l));
    assert PoolOk(s.entries, pool) by {
      forall b, k | k in At(pool, b) ensures OnReady(s.entries, b, k) {
        assert k in At(s.h2Pool, b);
      }
    }
    assert OrphansOk(pool, s.reqs);
    NotDialed(s, l);
    var t := s.(h2Pool := pool);
    assert Shape(t) by {
      hide LinksOk, ConnRefsOk, OrphansOk, PoolOk, ConnectingOk, WaitersOk, QueuedOk, H1QueueOk, H1QueuedOk, ConnsOk, IdleOk;
    }
    CloseShape(t, l);
  }

  // -- queues -----------------------------------------------------------------

  lemma LeaveQueue(reqs: map<ReqId, Req>, waiters: map<Addr, seq<ReqId>>, a: Addr, w: ReqId, q: Req)
    requires WaitersOk(reqs, waiters) && QueuedOk(reqs, waiters) && w in At(waiters, a) && !q.phase.Queued?
    ensures WaitersOk(reqs[w := q], waiters[a := Without(At(waiters, a), w)])
    ensures QueuedOk(reqs[w := q], waiters[a := Without(At(waiters, a), w)])
  {
    WithoutMembers(At(waiters, a), w);
    NoDupsAt(waiters, a, Without(At(waiters, a), w));
    var now := waiters[a := Without(At(waiters, a), w)];
    assert reqs[w].addr == a;
    forall b, k | k in At(now, b)
      ensures k in reqs[w := q] && reqs[w := q][k].phase.Queued? && reqs[w := q][k].addr == b
    {
      assert k in At(waiters, b);
    }
  }

  lemma EnterQueue(reqs: map<ReqId, Req>, waiters: map<Addr, seq<ReqId>>, w: ReqId)
    requires WaitersOk(reqs, waiters) && QueuedOk(reqs, waiters) && w in reqs && !reqs[w].phase.Queued?
    ensures var q := reqs[w].(phase := Queued);
            var now := waiters[q.addr := At(waiters, q.addr) + [w]];
            WaitersOk(reqs[w := q], now) && QueuedOk(reqs[w := q], now)
  {
    var q := reqs[w].(phase := Queued);
    var now := waiters[q.addr := At(waiters, q.addr) + [w]];
    NoDupAppend(At(waiters, q.addr), w);
    NoDupsAt(waiters, q.addr, At(waiters, q.addr) + [w]);
    forall b, k | k in At(now, b)
      ensures k in reqs[w := q] && reqs[w := q][k].phase.Queued? && reqs[w := q][k].addr == b
    {
      assert k == w || k in At(waiters, b);
    }
  }

  lemma LeaveH1Queue(reqs: map<ReqId, Req>, waiters: seq<ReqId>, w: ReqId, q: Req)
    requires H1QueueOk(reqs, waiters) && H1QueuedOk(reqs, waiters) && w in waiters && !q.phase.H1Queued?
    ensures H1QueueOk(reqs[w := q], Without(waiters, w)) && H1QueuedOk(reqs[w := q], Without(waiters, w))
  {
    WithoutMembers(waiters, w);
  }

  /** A queued call leaves its queue for a phase that needs no queue. */
  lemma LeaveShape(s: State, a: Addr, w: ReqId, pool: B.Pool, p: Phase)
    requires Shape(s) && w in At(s.h2Waiters, a) && pool.waiters == s.pool.waiters
    requires w in s.reqs && !p.Queued? && !p.H1Queued? && !p.Orphaned?
    requires LinkOk(s.entries, w, s.reqs[w].(phase := p)) && ConnOk(s.conns, s.reqs[w].(phase := p))
    ensures Shape(SetPhase(s.(h2Waiters := s.h2Waiters[a := Without(At(s.h2Waiters, a), w)], pool := pool), w, p))
  {
    var q := s.reqs[w].(phase := p);
    LeaveQueue(s.reqs, s.h2Waiters, a, w, q);
    ReqRefs(s, w, q);
    assert H1QueueOk(s.reqs[w := q], s.pool.waiters) && H1QueuedOk(s.reqs[w := q], s.pool.waiters);
    hide LinksOk, ConnRefsOk, OrphansOk, PoolOk, ConnectingOk, WaitersOk, QueuedOk, H1QueueOk, H1QueuedOk, ConnsOk, IdleOk;
  }

  lemma EnterShape(s: State, r: ReqId, pool: B.Pool)
    requires Shape(s) && r in s.reqs && s.reqs[r].phase.Picked? && pool.waiters == s.pool.waiters
    ensures var a := s.reqs[r].addr;
            Shape(SetPhase(s.(h2Waiters := s.h2Waiters[a := At(s.h2Waiters, a) + [r]], pool := pool), r, Queued))
  {
    var q := s.reqs[r].(phase := Queued);
    EnterQueue(s.reqs, s.h2Waiters, r);
    ReqRefs(s, r, q);
    assert H1QueueOk(s.reqs[r := q], s.pool.waiters) && H1QueuedOk(s.reqs[r := q], s.pool.waiters);
    hide LinksOk, ConnRefsOk, OrphansOk, PoolOk, ConnectingOk, WaitersOk, QueuedOk, H1QueueOk, H1QueuedOk, ConnsOk, IdleOk;
  }

  /** Counters, owed promotions and idle stacks that stay within the open connections. */
  lemma FrameShape(s: State, t: State)
    requires Shape(s)
    requires t == s.(pool := t.pool, owed := t.owed, streamsActive := t.streamsActive, h1Pool := t.h1Pool)
    requires t.pool.waiters == s.pool.waiters && IdleOk(s.entries, s.conns, t.h1Pool)
    ensures Shape(t)
  {
    hide LinksOk, ConnRefsOk, OrphansOk, PoolOk, ConnectingOk, WaitersOk, QueuedOk, H1QueueOk, H1QueuedOk, ConnsOk, IdleOk;
  }

  lemma BudgetShape(s: State, p: B.Pool)
    requires Shape(s) && p.waiters == s.pool.waiters
    ensures Shape(s.(pool := p))
  {
    hide LinksOk, ConnRefsOk, OrphansOk, PoolOk, ConnectingOk, WaitersOk, QueuedOk, H1QueueOk, H1QueuedOk, ConnsOk, IdleOk;
  }

  lemma AddStreamShape(s: State, l: Link, d: int)
    requires Shape(s) && l in s.conns
    ensures Shape(AddStream(s, l, d))
  {
    var c := s.conns[l].(inFlight := s.conns[l].inFlight + d);
    ConnShape(s, l, c);
    FrameShape(s.(conns := s.conns[l := c]), AddStream(s, l, d));
  }

  lemma AddPromiseShape(s: State, l: Link, d: int)
    requires Shape(s) && l in s.entries
    ensures Shape(AddPromise(s, l, d))
  {
    var e := s.entries[l].(promised := s.entries[l].promised + d);
    PromisedShape(s, l, e);
    FrameShape(s.(entries := s.entries[l := e]), AddPromise(s, l, d));
  }

  lemma GrantStreamShape(s: State, a: Addr, l: Link)
    requires Shape(s) && At(s.h2Waiters, a) != [] && At(s.h2Waiters, a)[0] in s.reqs
    requires OnReady(s.entries, a, l) && l in s.conns && s.reqs[At(s.h2Waiters, a)[0]].addr == a
    ensures Shape(SetPhase(AddStream(Dequeue(s, a), l, 1), At(s.h2Waiters, a)[0], Sent(StreamGrant(l))))
  {
    hide Shape, LinksOk, ConnRefsOk, OrphansOk, PoolOk, ConnectingOk, WaitersOk, QueuedOk, H1QueueOk, H1QueuedOk, ConnsOk, IdleOk;
    var q := At(s.h2Waiters, a);
    assert Without(q, q[0]) == q[1..];
    LeaveShape(s, a, q[0], s.pool.(pendingActive := s.pool.pendingActive - 1), Sent(StreamGrant(l)));
    AddStreamShape(SetPhase(Dequeue(s, a), q[0], Sent(StreamGrant(l))), l, 1);
  }

  lemma GrantDialShape(s: State, a: Addr, pool: B.Pool)
    requires Shape(s) && At(s.h2Waiters, a) != [] && At(s.h2Waiters, a)[0] in s.reqs && pool.waiters == s.pool.waiters
    ensures Shape(SetPhase(Dequeue(s.(pool := pool), a), At(s.h2Waiters, a)[0], Sent(DialGrant)))
  {
    hide Shape, LinksOk, ConnRefsOk, OrphansOk, PoolOk, ConnectingOk, WaitersOk, QueuedOk, H1QueueOk, H1QueuedOk, ConnsOk, IdleOk;
    var q := At(s.h2Waiters, a);
    assert Without(q, q[0]) == q[1..];
    LeaveShape(s, a, q[0], pool.(pendingActive := pool.pendingActive - 1), Sent(DialGrant));
  }

  lemma PromoteShape(s: State, a: Addr)
    requires Shape(s)
    ensures Shape(Promote(s, a))
  {
    var q := At(s.h2Waiters, a);
    if q != [] {
      assert q[0] in At(s.h2Waiters, a);
      var live := FirstLive(s, At(s.h2Pool, a));
      if live.Some? {
        assert OnReady(s.entries, a, live.value);
        GrantStreamShape(s, a, live.value);
      } else if B.UnderCap(s.pool) {
        hide Shape, LinksOk, ConnRefsOk, OrphansOk, PoolOk, ConnectingOk, WaitersOk, QueuedOk, H1QueueOk, H1QueuedOk, ConnsOk, IdleOk;
        GrantDialShape(s, a, B.Reserve(s.pool));
      } else {
        BudgetShape(s, B.Refuse(s.pool));
      }
    }
  }

  lemma H1EnterShape(s: State, r: ReqId, p: B.Pool)
    requires Shape(s) && r in s.reqs && s.reqs[r].phase.H1Picked? && p.waiters == s.pool.waiters + [r]
    ensures Shape(SetPhase(s.(pool := p), r, H1Queued))
  {
    var q := s.reqs[r].(phase := H1Queued);
    ReqRefs(s, r, q);
    NoDupAppend(s.pool.waiters, r);
    assert H1QueueOk(s.reqs[r := q], p.waiters) && H1QueuedOk(s.reqs[r := q], p.waiters);
    assert WaitersOk(s.reqs[r := q], s.h2Waiters) && QueuedOk(s.reqs[r := q], s.h2Waiters);
    hide LinksOk, ConnRefsOk, OrphansOk, PoolOk, ConnectingOk, WaitersOk, QueuedOk, H1QueueOk, H1QueuedOk, ConnsOk, IdleOk;
  }

  lemma H1AcquireShape(s: State, r: ReqId)
    requires Shape(s) && r in s.reqs && s.reqs[r].phase.H1Picked?
    ensures Shape(H1AcquireStep(s, r))
  {
    var (p, out) := B.AcquireOrPend(s.pool, r);
    if out.Pending? {
      H1EnterShape(s, r, p);
    } else {
      BudgetShape(s, p);
      PhaseShape(s.(pool := p), r, if out.Permit? then H1Dialing else Exiting);
    }
  }

  lemma H1LeaveShape(s: State, r: ReqId, p: B.Pool)
    requires Shape(s) && r in s.reqs && r in s.pool.waiters && p.waiters == Without(s.pool.waiters, r)
    ensures Shape(SetPhase(s.(pool := p), r, Exiting))
  {
    var q := s.reqs[r].(phase := Exiting);
    LeaveH1Queue(s.reqs, s.pool.waiters, r, q);
    ReqRefs(s, r, q);
    assert WaitersOk(s.reqs[r := q], s.h2Waiters) && QueuedOk(s.reqs[r := q], s.h2Waiters);
    hide LinksOk, ConnRefsOk, OrphansOk, PoolOk, ConnectingOk, WaitersOk, QueuedOk, H1QueueOk, H1QueuedOk, ConnsOk, IdleOk;
  }

  /** A call that gives its permit back and moves on. */
  lemma PermitBackShape(s: State, r: ReqId, p: Phase)
    requires Shape(s) && r in s.reqs && !s.reqs[r].phase.Queued? && !s.reqs[r].phase.H1Queued?
    requires !p.Queued? && !p.H1Queued? && !p.Orphaned?
    requires LinkOk(s.entries, r, s.reqs[r].(phase := p)) && ConnOk(s.conns, s.reqs[r].(phase := p))
    ensures Shape(SetPhase(GivePermit(s), r, p))
  {
    GivePermitOthers(s, r);
    hide LinksOk, ConnRefsOk, OrphansOk, PoolOk, ConnectingOk, WaitersOk, QueuedOk, H1QueueOk, H1QueuedOk, ConnsOk, IdleOk, GivePermit, Shape;
    GivePermitShape(s);
    PhaseShape(GivePermit(s), r, p);
  }

  lemma H1CancelShape(s: State, r: ReqId)
    requires Shape(s) && r in s.reqs && (s.reqs[r].phase.H1Queued? || s.reqs[r].phase.H1Sent?)
    ensures Shape(H1CancelStep(s, r))
  {
    if r in s.pool.waiters {
      H1LeaveShape(s, r, B.Withdraw(s.pool, r));
    } else {
      assert !s.reqs[r].phase.H1Queued?;
      PermitBackShape(s, r, Exiting);
    }
  }
}
