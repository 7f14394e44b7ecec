/** The HTTP/2 pool as an object (internal/cluster/h2pool.go): each method is what one goroutine does
    between locking and unlocking h2PoolMu, loops and promotion included. A method is proved to leave
    the pool where the corresponding steps of the machine lead, and so to keep every conservation law. */
module H2Pool {
  import opened Options
  import opened Seqs
  import opened H2Machine
  import opened H2Invariant
  import opened H2Safety
  import B = ConnBudget

  /** A step with the promotions it owes taken at once, before the lock is released. */
  ghost function Promoted(s: State, a: Addr): State {
    Promote(s.(owed := s.owed - multiset{a}), a)
  }

  class Cluster {
    const maxStreams: nat
    var pool: B.Pool
    var calls: map<ReqId, Req>             // where each goroutine inside the package stands
    var entries: map<Link, Entry>
    var conns: map<Link, Conn>
    var h2Pool: map<Addr, seq<Link>>
    var h2Connecting: map<Addr, seq<Link>>
    var h2Waiters: map<Addr, seq<ReqId>>
    var h1Pool: map<Addr, seq<Link>>
    var streamsActive: int
    var cxActive: int
    var lbActive: map<Host, int>
    ghost var owed: multiset<Addr>         // promotions other goroutines still have to make

    ghost function View(): State
      reads this
    {
      State(maxStreams, pool, calls, entries, conns, h2Pool, h2Connecting, h2Waiters, h1Pool, owed,
            streamsActive, cxActive, lbActive)
    }

    ghost predicate Valid()
      reads this
    {
      Inv(View())
    }

    constructor (maxStreams: nat, cap: B.Cap, maxPending: nat)
      ensures View() == Init(maxStreams, cap, maxPending)
    {
      this.maxStreams := maxStreams;
      pool := B.Init(cap, maxPending);
      calls, entries, conns := map[], map[], map[];
      h2Pool, h2Connecting, h2Waiters, h1Pool := map[], map[], map[], map[];
      streamsActive, cxActive, lbActive, owed := 0, 0, map[], multiset{};
    }

    /** findStreamHitLocked. */
    method FindStreamHit(a: Addr) returns (hit: Option<Link>)
      ensures hit == FirstLive(View(), At(h2Pool, a))
    {
      var q := At(h2Pool, a);
      for i := 0 to |q|
        invariant FirstLive(View(), q) == FirstLive(View(), q[i..])
      {
        assert q[i..][1..] == q[i + 1..];
        if q[i] in conns && !conns[q[i]].closed && !conns[q[i]].goneAway && conns[q[i]].inFlight < maxStreams {
          return Some(q[i]);
        }
      }
      return None;
    }

    /** findConnectingHitLocked. */
    method FindConnectingHit(a: Addr) returns (hit: Option<Link>)
      ensures hit == FirstSpare(View(), At(h2Connecting, a))
    {
      var q := At(h2Connecting, a);
      for i := 0 to |q|
        invariant FirstSpare(View(), q) == FirstSpare(View(), q[i..])
      {
        assert q[i..][1..] == q[i + 1..];
        if q[i] in entries && entries[q[i]].promised < maxStreams {
          return Some(q[i]);
        }
      }
      return None;
    }

    /** removeH2WaiterLocked. */
    method RemoveWaiter(a: Addr, r: ReqId) returns (found: bool)
      modifies this`h2Waiters, this`pool
      ensures found == (r in At(old(h2Waiters), a))
      ensures found ==> h2Waiters == old(h2Waiters)[a := Without(At(old(h2Waiters), a), r)]
                        && pool == old(pool).(pendingActive := old(pool).pendingActive - 1)
      ensures !found ==> h2Waiters == old(h2Waiters) && pool == old(pool)
    {
      var q := At(h2Waiters, a);
      for i := 0 to |q|
        invariant r !in q[..i]
      {
        if q[i] == r {
          WithoutAt(q, i);
          h2Waiters := h2Waiters[a := q[..i] + q[i + 1..]];
          pool := pool.(pendingActive := pool.pendingActive - 1);
          return true;
        }
      }
      return false;
    }

    /** removeConnectingLocked; a missing key and an empty list read alike. */
    method RemoveConnecting(a: Addr, l: Link)
      modifies this`h2Connecting
      ensures h2Connecting == old(h2Connecting)[a := Without(At(old(h2Connecting), a), l)]
    {
      var q := At(h2Connecting, a);
      for i := 0 to |q|
        invariant l !in q[..i]
      {
        if q[i] == l {
          WithoutAt(q, i);
          h2Connecting := h2Connecting[a := q[..i] + q[i + 1..]];
          return;
        }
      }
      assert q[..|q|] == q;
      WithoutAbsent(q, l);
      h2Connecting := h2Connecting[a := q];
    }

    method SetCall(r: ReqId, p: Phase)
      modifies this`calls
      ensures View() == SetPhase(old(View()), r, p)
    {
      if r in calls {
        calls := calls[r := calls[r].(phase := p)];
      }
    }

    /** Take the head waiter of a off the queue. */
    method DequeueLocked(a: Addr) returns (w: ReqId)
      requires At(h2Waiters, a) != []
      modifies this`h2Waiters, this`pool
      ensures w == At(old(h2Waiters), a)[0] && View() == Dequeue(old(View()), a)
    {
      var q := At(h2Waiters, a);
      w := q[0];
      h2Waiters := h2Waiters[a := q[1..]];
      pool := pool.(pendingActive := pool.pendingActive - 1);
    }

    /** inFlight and streams_active move together. */
    method MoveStream(l: Link, d: int)
      requires l in conns
      modifies this`conns, this`streamsActive
      ensures View() == AddStream(old(View()), l, d)
    {
      conns := conns[l := conns[l].(inFlight := conns[l].inFlight + d)];
      streamsActive := streamsActive + d;
    }

    /** tryAcquireConnSlot. */
    method TryAcquireSlot() returns (ok: bool)
      modifies this`pool
      ensures (pool, ok) == B.TryAcquire(old(pool))
    {
      var (p, got) := B.TryAcquire(pool);
      pool, ok := p, got;
    }

    /** h2PromoteLocked. */
    method PromoteLocked(a: Addr)
      modifies this`pool, this`calls, this`conns, this`h2Waiters, this`streamsActive
      ensures View() == Promote(old(View()), a)
    {
      hide SameLimits, FirstLive, SetPhase, AddStream, Dequeue, B.TryAcquire;
      if |At(h2Waiters, a)| == 0 {
        return;
      }
      var w;
      var hit := FindStreamHit(a);
      if hit.Some? {
        w := DequeueLocked(a);
        DequeueLeaves(old(View()), a);
        MoveStream(hit.value, 1);
        SetCall(w, Sent(StreamGrant(hit.value)));
        return;
      }
      var ok := TryAcquireSlot();
      if ok {
        w := DequeueLocked(a);
        SetCall(w, Sent(DialGrant));
      }
    }

    /** The gauge and the dial-time pick of a connection whose close runs now. */
    method SettleLocked(l: Link)
      requires l in conns
      modifies this`conns, this`cxActive, this`lbActive
      ensures View() == Settle(old(View()), l)
    {
      var c := conns[l];
      conns := conns[l := c.(closed := true, released := true)];
      cxActive := cxActive - 1;
      lbActive := lbActive[c.host := Load(lbActive, c.host) - 1];
    }

    /** releaseConnSlot: the permit goes to the head HTTP/1.1 waiter if there is one. */
    method ReleaseSlot()
      modifies this`pool, this`calls
      ensures View() == GivePermit(old(View()))
    {
      hide B.Release, SetPhase;
      var (p, next) := B.Release(pool);
      pool := p;
      if next.Some? {
        SetCall(next.value, H1Sent);
      }
    }

    /** Closing a connection runs the once-guarded closure of its gauge wrapper. */
    method CloseLocked(l: Link)
      modifies this`pool, this`calls, this`conns, this`cxActive, this`lbActive
      ensures View() == CloseConn(old(View()), l)
    {
      hide Settle, GivePermit;
      if l in conns && !conns[l].released {
        SettleLocked(l);
        ReleaseSlot();
      } else if l in conns {
        conns := conns[l := conns[l].(closed := true)];
      }
    }

    /** evictH2ConnLocked's removal loop. */
    method RemovePooled(a: Addr, l: Link)
      modifies this`h2Pool
      ensures h2Pool == old(h2Pool)[a := Without(At(old(h2Pool), a), l)]
    {
      var q := At(h2Pool, a);
      for i := 0 to |q|
        invariant l !in q[..i]
      {
        if q[i] == l {
          WithoutAt(q, i);
          h2Pool := h2Pool[a := q[..i] + q[i + 1..]];
          return;
        }
      }
      assert q[..|q|] == q;
      WithoutAbsent(q, l);
      h2Pool := h2Pool[a := q];
    }

    /** evictH2ConnLocked. */
    method EvictLocked(a: Addr, l: Link)
      modifies this`pool, this`calls, this`conns, this`cxActive, this`lbActive, this`h2Pool
      ensures View() == Evict(old(View()), a, l)
    {
      hide CloseConn;
      RemovePooled(a, l);
      CloseLocked(l);
    }

    /** promised and streams_active move together. */
    method MovePromise(l: Link, d: int)
      requires l in entries
      modifies this`entries, this`streamsActive
      ensures View() == AddPromise(old(View()), l, d)
    {
      entries := entries[l := entries[l].(promised := entries[l].promised + d)];
      streamsActive := streamsActive + d;
    }

    /** Register a connecting entry for an initiator that holds a permit. */
    method RegisterLocked(r: ReqId, l: Link)
      requires r in calls
      modifies this`entries, this`h2Connecting, this`streamsActive, this`calls
      ensures View() == Register(old(View()), r, l)
    {
      hide SetPhase;
      var a := calls[r].addr;
      entries := entries[l := Entry(a, r, 1, Connecting)];
      h2Connecting := h2Connecting[a := At(h2Connecting, a) + [l]];
      streamsActive := streamsActive + 1;
      SetCall(r, Dialing(l));
    }

    /** The (D) branch of AcquireH2Stream: overflow or enqueue. */
    method PendLocked(r: ReqId, a: Addr)
      modifies this`pool, this`h2Waiters, this`calls
      ensures View() == Pended(old(View()), r, a)
    {
      hide SetPhase;
      if |At(h2Waiters, a)| >= pool.maxPending {
        pool := pool.(pendingOverflow := pool.pendingOverflow + 1);
        SetCall(r, Exiting);
      } else {
        h2Waiters := h2Waiters[a := At(h2Waiters, a) + [r]];
        pool := pool.(pendingActive := pool.pendingActive + 1, pendingTotal := pool.pendingTotal + 1);
        SetCall(r, Queued);
      }
    }

    method AcquireLocked(r: ReqId, newLink: Link)
      requires r in calls
      modifies this`pool, this`calls, this`entries, this`conns, this`h2Connecting, this`h2Waiters, this`streamsActive
      ensures View() == AcquireStep(old(View()), r, newLink)
    {
      hide SameLimits, FirstLive, FirstSpare, SetPhase, AddStream, AddPromise, Register, B.TryAcquire, Pended, AcquireStep;
      AcquireCases(View(), r, newLink);
      var a := calls[r].addr;
      var live := FindStreamHit(a);
      if live.Some? {
        MoveStream(live.value, 1);
        SetCall(r, Hit(live.value));
        return;
      }
      var spare := FindConnectingHit(a);
      if spare.Some? {
        MovePromise(spare.value, 1);
        SetCall(r, Attaching(spare.value));
        return;
      }
      var ok := TryAcquireSlot();
      if ok {
        RegisterLocked(r, newLink);
      } else {
        PendLocked(r, a);
      }
    }

    /** AcquireH2Stream from its first lock to its unlock. */
    method Acquire(r: ReqId, newLink: Link)
      requires Valid() && r in calls && calls[r].phase.Picked? && Unused(View(), newLink)
      modifies this`pool, this`calls, this`entries, this`conns, this`h2Connecting, this`h2Waiters, this`streamsActive
      ensures View() == AcquireStep(old(View()), r, newLink) && Valid()
    {
      hide Inv, AcquireStep;
      AcquireKeeps(View(), r, newLink);
      AcquireLocked(r, newLink);
    }

    /** One streams_active decrement per promised slot. */
    method GiveUpStreams(n: int)
      requires n >= 0
      modifies this`streamsActive
      ensures streamsActive == old(streamsActive) - n
    {
      var i := 0;
      while i < n
        invariant 0 <= i <= n && streamsActive == old(streamsActive) - i
      {
        streamsActive := streamsActive - 1;
        i := i + 1;
      }
    }

    /** Mark the entry failed and give up all its promised slots. */
    method AbandonEntry(l: Link)
      requires l in entries && entries[l].promised >= 0
      modifies this`entries, this`streamsActive
      ensures entries == old(entries)[l := old(entries)[l].(status := Failed)]
      ensures streamsActive == old(streamsActive) - old(entries)[l].promised
    {
      var e := entries[l];
      entries := entries[l := e.(status := Failed)];
      GiveUpStreams(e.promised);
    }

    method FailLocked(r: ReqId, a: Addr, l: Link)
      requires r in calls && calls[r].addr == a && calls[r].phase == DialFailed(l) && l in entries && entries[l].promised >= 0
      modifies this`calls, this`entries, this`h2Connecting, this`streamsActive
      ensures Owe(View(), a) == FailEntryStep(old(View()), r)
    {
      hide SameLimits, SetPhase;
      RemoveConnecting(a, l);
      AbandonEntry(l);
      SetCall(r, Done);
    }

    /** The failure half of dialAndPool. */
    method FailEntry(r: ReqId)
      requires Valid() && r in calls && calls[r].phase.DialFailed? && calls[r].phase.link in entries
      modifies this`pool, this`calls, this`entries, this`conns, this`h2Connecting, this`h2Waiters, this`streamsActive
      ensures View() == Promoted(FailEntryStep(old(View()), r), old(calls)[r].addr) && Valid()
    {
      hide Inv, FailEntryStep, Promote, Owe;
      ghost var s := View();
      var a, l := calls[r].addr, calls[r].phase.link;
      PromisesCount(s, r);
      FailEntryKeeps(s, r);
      FailLocked(r, a, l);
      Settled(View(), a);
      PromoteLocked(a);
    }

    /** Append the established connection to its pool with every promise as a stream in flight. */
    method AppendPooled(a: Addr, l: Link, promised: int)
      requires l in conns
      modifies this`conns, this`h2Pool
      ensures conns == old(conns)[l := old(conns)[l].(inFlight := promised)]
      ensures h2Pool == old(h2Pool)[a := At(old(h2Pool), a) + [l]]
    {
      conns := conns[l := conns[l].(inFlight := promised)];
      h2Pool := h2Pool[a := At(h2Pool, a) + [l]];
    }

    method ConvertLocked(r: ReqId, a: Addr, l: Link)
      requires r in calls && calls[r].addr == a && calls[r].phase == Dialed(l) && l in entries && l in conns
      modifies this`calls, this`entries, this`conns, this`h2Connecting, this`h2Pool
      ensures Owe(View(), a) == PoolConnStep(old(View()), r)
    {
      hide SameLimits, SetPhase;
      var e := entries[l];
      RemoveConnecting(a, l);
      AppendPooled(a, l, e.promised);
      entries := entries[l := e.(status := Ready)];
      SetCall(r, Riding(l));
    }

    /** The success half of dialAndPool. */
    method PoolConn(r: ReqId)
      requires Valid() && r in calls && calls[r].phase.Dialed?
      requires calls[r].phase.link in entries && calls[r].phase.link in conns
      modifies this`pool, this`calls, this`entries, this`conns, this`h2Connecting, this`h2Waiters, this`h2Pool, this`streamsActive
      ensures View() == Promoted(PoolConnStep(old(View()), r), old(calls)[r].addr) && Valid()
    {
      hide Inv, PoolConnStep, Promote, Owe;
      PoolConnKeeps(View(), r);
      var a := calls[r].addr;
      ConvertLocked(r, a, calls[r].phase.link);
      Settled(View(), a);
      PromoteLocked(a);
    }

    /** attachAfterReady. */
    method AttachReady(r: ReqId)
      requires Valid() && Enabled(View(), H2Machine.AttachReady(r))
      modifies this`calls, this`streamsActive
      ensures View() == AttachReadyStep(old(View()), r) && Valid()
    {
      hide Inv, SetPhase;
      AttachReadyKeeps(View(), r);
      var l := calls[r].phase.link;
      if entries[l].status.Failed? {
        SetCall(r, Done);
      } else if l in At(h2Pool, calls[r].addr) {
        SetCall(r, Riding(l));
      } else {
        streamsActive := streamsActive - 1;
        SetCall(r, Done);
      }
    }

    /** awaitAttach cancelled while the entry is still connecting: the promised slot goes back. */
    method AttachCancel(r: ReqId)
      requires Valid() && Enabled(View(), H2Machine.AttachCancel(r))
      modifies this`calls, this`entries, this`streamsActive
      ensures View() == SetPhase(AddPromise(old(View()), old(calls)[r].phase.link, -1), r, Done) && Valid()
    {
      hide Inv, SetPhase, AddPromise;
      AttachCancelKeeps(View(), r);
      MovePromise(calls[r].phase.link, -1);
      SetCall(r, Done);
    }

    /** The grant branch of AcquireH2Stream: ride the granted connection if it is still pooled, or
        register the dial the permit is for. */
    method AcceptGrant(r: ReqId, newLink: Link)
      requires Valid() && r in calls && calls[r].phase.Sent? && Unused(View(), newLink)
      modifies this`calls, this`entries, this`h2Connecting, this`streamsActive
      ensures View() == AcceptGrantStep(old(View()), r, newLink) && Valid()
    {
      hide Inv, SetPhase, Register;
      AcceptGrantKeeps(View(), r, newLink);
      var g := calls[r].phase.grant;
      if g.StreamGrant? {
        SetCall(r, if g.link in At(h2Pool, calls[r].addr) then Hit(g.link) else Orphaned(g.link));
      } else {
        RegisterLocked(r, newLink);
      }
    }

    /** Give back a grant that crossed the cancellation on the channel. */
    method GiveBackLocked(r: ReqId, a: Addr, g: Grant)
      requires r in calls && calls[r].addr == a && (g.StreamGrant? && g.link in At(h2Pool, a) ==> g.link in conns)
      modifies this`pool, this`calls, this`conns, this`streamsActive
      ensures View() == GivenBack(old(View()), r, a, g)
    {
      hide SetPhase, GivePermit, AddStream;
      if g.StreamGrant? {
        if g.link in At(h2Pool, a) {
          MoveStream(g.link, -1);
        } else {
          streamsActive := streamsActive - 1;
        }
      } else {
        ReleaseSlot();
      }
      SetCall(r, Exiting);
    }

    /** A grant is en route: take it off the channel, give it back and promote. */
    method CancelRace(r: ReqId)
      requires Valid() && Enabled(View(), H2Machine.CancelWait(r)) && r !in At(h2Waiters, calls[r].addr)
      modifies this`pool, this`calls, this`conns, this`h2Waiters, this`streamsActive
      ensures View() == Promoted(CancelWaitStep(old(View()), r), old(calls)[r].addr) && Valid()
    {
      hide Inv, Promote, Owe, GivenBack, CancelWaitStep;
      CancelWaitKeeps(View(), r);
      CancelFindsGrant(View(), r);
      CancelRaced(View(), r);
      GrantedConn(View(), r);
      var a := calls[r].addr;
      GiveBackLocked(r, a, calls[r].phase.grant);
      Settled(View(), a);
      PromoteLocked(a);
    }

    /** The cancel branch of AcquireH2Stream while pending. */
    method CancelWait(r: ReqId)
      requires Valid() && Enabled(View(), H2Machine.CancelWait(r))
      modifies this`pool, this`calls, this`conns, this`h2Waiters, this`streamsActive
      ensures var s, a := old(View()), old(calls)[r].addr;
              View() == (if r in At(s.h2Waiters, a) then CancelWaitStep(s, r) else Promoted(CancelWaitStep(s, r), a))
      ensures Valid()
    {
      hide SameLimits, Inv, SetPhase, Promote, CancelWaitStep;
      CancelWaitKeeps(View(), r);
      ghost var s := View();
      var found := RemoveWaiter(calls[r].addr, r);
      if found {
        CancelClean(s, r);
        SetCall(r, Exiting);
      } else {
        CancelRace(r);
      }
    }

    /** The tail of the release closure: the last stream of a closed or draining connection evicts it. */
    method CheckReleased(r: ReqId)
      requires Valid() && r in calls && calls[r].phase.Releasing?
      modifies this`pool, this`calls, this`conns, this`cxActive, this`lbActive, this`h2Pool, this`h2Waiters, this`streamsActive
      ensures View() == Checked(old(View()), r) && Valid()
    {
      hide Inv, Evict, Promote, Owe, SetPhase;
      ReleaseCheckKeeps(View(), r);
      var a, l := calls[r].addr, calls[r].phase.link;
      var evict := l in conns && (conns[l].closed || conns[l].goneAway) && conns[l].inFlight == 0;
      SetCall(r, Done);
      if evict {
        EvictLocked(a, l);
        Settled(View(), a);
        PromoteLocked(a);
      }
    }

    /** inFlight-- and streams_active--. */
    method ReleaseLocked(r: ReqId, a: Addr, l: Link)
      requires r in calls && calls[r] == Req(calls[r].host, a, Riding(l)) && l in conns
      modifies this`calls, this`conns, this`streamsActive
      ensures Owe(View(), a) == ReleaseStep(old(View()), r)
      ensures r in calls && calls[r] == old(calls)[r].(phase := Releasing(l))
    {
      hide AddStream;
      MoveStream(l, -1);
      AddStreamLeaves(old(View()), l, -1, r);
      SetCall(r, Releasing(l));
    }

    /** The release closure of makeRelease. */
    method ReleaseStream(r: ReqId)
      requires Valid() && r in calls && calls[r].phase.Riding?
      modifies this`pool, this`calls, this`conns, this`cxActive, this`lbActive, this`h2Pool, this`h2Waiters, this`streamsActive
      ensures View() == Checked(Promoted(ReleaseStep(old(View()), r), old(calls)[r].addr), r) && Valid()
    {
      hide Inv, ReleaseStep, Promote, Checked, Owe;
      ghost var s := View();
      var a, l := calls[r].addr, calls[r].phase.link;
      ReleaseInv(s, r);
      ReleaseLocked(r, a, l);
      Settled(View(), a);
      PromoteLeaves(s, View(), a, r);
      PromoteLocked(a);
      CheckReleased(r);
    }

    /** dialPicked and h2ConnFromDialed on an error after the connection was wrapped: closing the
        wrapper returns permit and pick. */
    method FinalizeFails(r: ReqId)
      requires Valid() && r in calls && calls[r].phase.Dialed?
      modifies this`pool, this`calls, this`conns, this`cxActive, this`lbActive
      ensures var l := old(calls)[r].phase.link; View() == CloseConn(SetPhase(old(View()), r, DialFailed(l)), l)
      ensures Valid()
    {
      hide Inv, CloseConn, SetPhase;
      FinalizeFailsKeeps(View(), r);
      var l := calls[r].phase.link;
      SetCall(r, DialFailed(l));
      CloseLocked(l);
    }

    /** The fast path of AcquireH1: pop the most recently idle connection of the endpoint. */
    method PopIdleH1(r: ReqId)
      requires Valid() && Enabled(View(), H1PopIdle(r))
      modifies this`calls, this`h1Pool
      ensures View() == Step(old(View()), H1PopIdle(r)) && Valid()
    {
      hide Inv, SetPhase;
      H1PopIdleKeeps(View(), r);
      var a := calls[r].addr;
      var list := At(h1Pool, a);
      var n := |list|;
      h1Pool := h1Pool[a := list[..n - 1]];
      SetCall(r, H1Hit(list[n - 1]));
    }

    /** PutIdleH1; sawWaiter is the outcome of its racy peek at the wait queue. */
    method PutIdleH1(r: ReqId, sawWaiter: bool)
      requires Valid() && r in calls && calls[r].phase.H1Holding?
      modifies this`pool, this`calls, this`conns, this`cxActive, this`lbActive, this`h1Pool
      ensures View() == H1PutIdleStep(old(View()), r, sawWaiter) && Valid()
    {
      hide Inv, SetPhase, CloseConn;
      H1PutIdleKeeps(View(), r, sawWaiter);
      var l := calls[r].phase.link;
      SetCall(r, Done);
      PhaseLeavesConns(old(View()), r, Done);
      if l !in conns {
        return;
      }
      var a := conns[l].addr;
      var list := At(h1Pool, a);
      if sawWaiter || |list| >= H1_POOL_MAX_PER_ENDPOINT {
        CloseLocked(l);
        return;
      }
      h1Pool := h1Pool[a := list + [l]];
    }

    /** EvictH2ConnOnError, and watchDrain once the connection is empty. */
    method EvictOnError(a: Addr, l: Link)
      requires Valid()
      modifies this`pool, this`calls, this`conns, this`cxActive, this`lbActive, this`h2Pool, this`h2Waiters, this`streamsActive
      ensures View() == (if l in At(old(h2Pool), a) then Promoted(Owe(Evict(old(View()), a, l), a), a) else old(View()))
      ensures Valid()
    {
      hide Inv, Evict, Promote, Owe;
      EvictIfPooledKeeps(View(), a, l);
      if l in At(h2Pool, a) {
        EvictLocked(a, l);
        Settled(View(), a);
        PromoteLocked(a);
      }
    }
  }

  /** The eviction check with its promotion. */
  ghost function Checked(s: State, r: ReqId): State {
    if r in s.reqs && s.reqs[r].phase.Releasing? then
      var l := s.reqs[r].phase.link;
      var t := ReleaseCheckStep(s, r);
      if l in s.conns && (s.conns[l].closed || s.conns[l].goneAway) && s.conns[l].inFlight == 0
      then Promoted(t, s.reqs[r].addr) else t
    else s
  }

  lemma PhaseLeavesConns(s: State, r: ReqId, p: Phase)
    ensures SetPhase(s, r, p).conns == s.conns && SetPhase(s, r, p).h1Pool == s.h1Pool
  {
  }

  lemma AddStreamLeaves(s: State, l: Link, d: int, r: ReqId)
    requires r in s.reqs
    ensures var t := AddStream(s, l, d); r in t.reqs && t.reqs[r] == s.reqs[r]
  {
    var t := s.(streamsActive := s.streamsActive + d);
    if l in s.conns {
      var u := t.(conns := s.conns[l := s.conns[l].(inFlight := s.conns[l].inFlight + d)]);
      assert u.reqs == s.reqs;
    }
  }

  lemma ReleaseInv(s: State, r: ReqId)
    requires Inv(s) && r in s.reqs && s.reqs[r].phase.Riding?
    ensures Inv(ReleaseStep(s, r)) && s.reqs[r].phase.link in s.conns
  {
    hide Inv, ReleaseStep;
    ReleaseKeeps(s, r);
    RefsOf(s, r);
    ReadyConn(s, s.reqs[r].phase.link);
  }

  /** Promotion wakes a queued call only, so a call in another phase stands where it stood. */
  lemma PromoteLeaves(s: State, x: State, a: Addr, r: ReqId)
    requires Inv(s) && r in s.reqs && !s.reqs[r].phase.Queued? && x.h2Waiters == s.h2Waiters && r in x.reqs
    ensures r in Promote(x, a).reqs && Promote(x, a).reqs[r] == x.reqs[r]
  {
    hide Inv, FirstLive, AddStream, Dequeue, B.TryAcquire;
    var q := At(s.h2Waiters, a);
    if q != [] {
      InQueue(s, a, q[0]);
      DequeueLeaves(x, a);
      match FirstLive(x, At(x.h2Pool, a))
      case Some(l) => AddStreamLeaves(Dequeue(x, a), l, 1, r);
      case None => DequeueLeaves(x.(pool := B.TryAcquire(x.pool).0), a);
    }
  }

  /** The give-back of a grant, without the promotion that follows. */
  ghost function GivenBack(s: State, r: ReqId, a: Addr, g: Grant): State {
    match g
    case StreamGrant(l) =>
      SetPhase(if l in At(s.h2Pool, a) then AddStream(s, l, -1) else s.(streamsActive := s.streamsActive - 1), r, Exiting)
    case DialGrant => SetPhase(GivePermit(s), r, Exiting)
  }

  lemma CancelClean(s: State, r: ReqId)
    requires r in s.reqs && (s.reqs[r].phase.Queued? || s.reqs[r].phase.Sent?) && r in At(s.h2Waiters, s.reqs[r].addr)
    ensures var a := s.reqs[r].addr;
            CancelWaitStep(s, r) == SetPhase(s.(h2Waiters := s.h2Waiters[a := Without(At(s.h2Waiters, a), r)],
                                               pool := s.pool.(pendingActive := s.pool.pendingActive - 1)), r, Exiting)
  {
    hide SetPhase;
  }

  lemma CancelRaced(s: State, r: ReqId)
    requires r in s.reqs && (s.reqs[r].phase.Queued? || s.reqs[r].phase.Sent?) && r !in At(s.h2Waiters, s.reqs[r].addr) && s.reqs[r].phase.Sent?
    ensures var a := s.reqs[r].addr;
            CancelWaitStep(s, r) == Owe(GivenBack(s, r, a, s.reqs[r].phase.grant), a)
  {
    hide SetPhase, GivePermit, AddStream, Owe;
  }

  /** A granted connection that is still pooled exists. */
  lemma GrantedConn(s: State, r: ReqId)
    requires Inv(s) && r in s.reqs && s.reqs[r].phase.Sent?
    ensures var a, g := s.reqs[r].addr, s.reqs[r].phase.grant;
            g.StreamGrant? && g.link in At(s.h2Pool, a) ==> g.link in s.conns
  {
    hide Inv;
    var a, g := s.reqs[r].addr, s.reqs[r].phase.grant;
    if g.StreamGrant? && g.link in At(s.h2Pool, a) {
      InPool(s, a, g.link);
      ReadyConn(s, g.link);
    }
  }

  /** The initiator's entry counts at least its own slot. */
  lemma PromisesCount(s: State, r: ReqId)
    requires Inv(s) && r in s.reqs && s.reqs[r].phase.DialFailed?
    ensures var l := s.reqs[r].phase.link; l in s.entries && s.entries[l].promised >= 0
  {
    hide Shape;
    RefsOf(s, r);
    assert SlotOk(s, s.reqs[r].phase.link);
  }

  /** The promotion a step owes, taken at once, keeps the invariant. */
  lemma Settled(x: State, a: Addr)
    requires Inv(Owe(x, a))
    ensures Promoted(Owe(x, a), a) == Promote(x, a) && Inv(Promote(x, a))
  {
    hide Inv, Promote;
    assert x.owed + multiset{a} - multiset{a} == x.owed;
    assert a in Owe(x, a).owed;
    DoPromoteKeeps(Owe(x, a), a);
  }

  /** The acquire step, case by case. */
  lemma AcquireCases(s: State, r: ReqId, l: Link)
    requires r in s.reqs
    ensures var a := s.reqs[r].addr;
            var live, spare, (p, ok) := FirstLive(s, At(s.h2Pool, a)), FirstSpare(s, At(s.h2Connecting, a)), B.TryAcquire(s.pool);
            AcquireStep(s, r, l) ==
              if live.Some? then SetPhase(AddStream(s, live.value, 1), r, Hit(live.value))
              else if spare.Some? then SetPhase(AddPromise(s, spare.value, 1), r, Attaching(spare.value))
              else if ok then Register(s.(pool := p), r, l)
              else Pended(s.(pool := p), r, a)
  {
    hide FirstLive, FirstSpare, SetPhase, AddStream, AddPromise, Register, B.TryAcquire;
  }

  lemma DequeueLeaves(s: State, a: Addr)
    requires At(s.h2Waiters, a) != []
    ensures Dequeue(s, a).conns == s.conns && Dequeue(s, a).reqs == s.reqs
  {
  }
}
