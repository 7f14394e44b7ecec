/** What the single operations of the pool come to, said on the state before and after and not
    through the step functions. */
module H2Meaning {
  import opened Options
  import opened Seqs
  import opened H2Machine
  import opened H2Invariant
  import opened H2Safety
  import B = ConnBudget

  /** The connection is open, has seen no GOAWAY and has a free slot. */
  predicate HasRoom(s: State, l: Link) {
    l in s.conns && !s.conns[l].closed && !s.conns[l].goneAway && s.conns[l].inFlight < s.maxStreams
  }

  predicate HasPromise(s: State, l: Link) {
    l in s.entries && s.entries[l].promised < s.maxStreams
  }

  /** The budget has a permit left. */
  predicate PermitLeft(p: B.Pool) {
    p.cap.AtMost? ==> p.active < p.cap.limit
  }

  /** Position i of q is the first with room, or the first with a promise to spare. */
  ghost predicate FirstRoom(s: State, q: seq<Link>, i: int) {
    0 <= i < |q| && HasRoom(s, q[i]) && forall j :: 0 <= j < i ==> !HasRoom(s, q[j])
  }

  ghost predicate FirstPromise(s: State, q: seq<Link>, i: int) {
    0 <= i < |q| && HasPromise(s, q[i]) && forall j :: 0 <= j < i ==> !HasPromise(s, q[j])
  }

  /** findStreamHitLocked finds the first connection with room, and nothing exactly if there is none. */
  lemma {:induction false} FirstLiveIsFirst(s: State, q: seq<Link>)
    ensures var r := FirstLive(s, q);
            if r.Some? then exists i :: FirstRoom(s, q, i) && q[i] == r.value
            else forall l :: l in q ==> !HasRoom(s, l)
    decreases q
  {
    if q == [] {
    } else if Live(s, q[0]) {
      assert FirstRoom(s, q, 0);
    } else {
      FirstLiveIsFirst(s, q[1..]);
      if FirstLive(s, q[1..]).Some? {
        var i :| FirstRoom(s, q[1..], i) && q[1..][i] == FirstLive(s, q).value;
        assert FirstRoom(s, q, i + 1);
      }
    }
  }

  /** findConnectingHitLocked finds the first entry with a promise to spare, and nothing exactly if
      there is none. */
  lemma {:induction false} FirstSpareIsFirst(s: State, q: seq<Link>)
    ensures var r := FirstSpare(s, q);
            if r.Some? then exists i :: FirstPromise(s, q, i) && q[i] == r.value
            else forall l :: l in q ==> !HasPromise(s, l)
    decreases q
  {
    if q == [] {
    } else if Spare(s, q[0]) {
      assert FirstPromise(s, q, 0);
    } else {
      FirstSpareIsFirst(s, q[1..]);
      if FirstSpare(s, q[1..]).Some? {
        var i :| FirstPromise(s, q[1..], i) && q[1..][i] == FirstSpare(s, q).value;
        assert FirstPromise(s, q, i + 1);
      }
    }
  }

  // ---------------------------------------------------------------------------
  // Building blocks, field by field
  // ---------------------------------------------------------------------------

  /** Call r now stands at p and every other call where it stood. */
  ghost predicate OnlyCall(s: State, t: State, r: ReqId, p: Phase) {
    r in s.reqs && t.reqs == s.reqs[r := s.reqs[r].(phase := p)]
  }

  ghost predicate OneMoreStream(s: State, t: State, l: Link) {
    && l in s.conns && t.conns == s.conns[l := s.conns[l].(inFlight := s.conns[l].inFlight + 1)]
    && t.streamsActive == s.streamsActive + 1
  }

  lemma PhaseFields(s: State, r: ReqId, p: Phase)
    requires r in s.reqs
    ensures var t := SetPhase(s, r, p);
            && OnlyCall(s, t, r, p) && t.pool == s.pool && t.conns == s.conns && t.entries == s.entries
            && t.h2Pool == s.h2Pool && t.h2Waiters == s.h2Waiters && t.h2Connecting == s.h2Connecting
            && t.h1Pool == s.h1Pool && t.streamsActive == s.streamsActive && t.owed == s.owed
  {
  }

  lemma StreamFields(s: State, l: Link)
    requires l in s.conns
    ensures var t := AddStream(s, l, 1);
            OneMoreStream(s, t, l) && t.reqs == s.reqs && t.pool == s.pool && t.h2Waiters == s.h2Waiters && t.entries == s.entries
  {
    var u := s.(streamsActive := s.streamsActive + 1, conns := s.conns[l := s.conns[l].(inFlight := s.conns[l].inFlight + 1)]);
    assert AddStream(s, l, 1) == u;
  }

  lemma DequeueFields(s: State, a: Addr)
    requires At(s.h2Waiters, a) != []
    ensures var t := Dequeue(s, a);
            && t.h2Waiters == s.h2Waiters[a := At(s.h2Waiters, a)[1..]] && t.reqs == s.reqs && t.conns == s.conns
            && t.pool.active == s.pool.active && t.streamsActive == s.streamsActive && t.entries == s.entries
  {
  }

  lemma TryFields(p: B.Pool)
    ensures var (q, ok) := B.TryAcquire(p);
            ok == PermitLeft(p) && q.active == p.active + (if ok then 1 else 0) && q.pendingActive == p.pendingActive
  {
  }

  // ---------------------------------------------------------------------------
  // Promotion
  // ---------------------------------------------------------------------------

  /** The head w of a's queue got a stream on a connection of a that had room. */
  ghost predicate WokenOnStream(s: State, t: State, a: Addr, w: ReqId, l: Link)
    requires At(s.h2Waiters, a) != []
  {
    && l in At(s.h2Pool, a) && HasRoom(s, l)
    && OnlyCall(s, t, w, Sent(StreamGrant(l))) && OneMoreStream(s, t, l)
    && t.h2Waiters == s.h2Waiters[a := At(s.h2Waiters, a)[1..]] && t.pool.active == s.pool.active
  }

  /** The head w of a's queue got a permit to dial. */
  ghost predicate WokenToDial(s: State, t: State, a: Addr, w: ReqId)
    requires At(s.h2Waiters, a) != []
  {
    && OnlyCall(s, t, w, Sent(DialGrant)) && t.conns == s.conns && t.streamsActive == s.streamsActive
    && t.h2Waiters == s.h2Waiters[a := At(s.h2Waiters, a)[1..]] && t.pool.active == s.pool.active + 1
  }

  ghost predicate NobodyWoken(s: State, t: State) {
    && t.reqs == s.reqs && t.conns == s.conns && t.streamsActive == s.streamsActive && t.h2Waiters == s.h2Waiters
    && t.pool.active == s.pool.active
  }

  ghost predicate SomeRoom(s: State, a: Addr) {
    exists l :: l in At(s.h2Pool, a) && HasRoom(s, l)
  }

  /** h2PromoteLocked wakes the head waiter onto a connection of its address whenever one has room, else
      with a permit whenever one is left, and otherwise nobody; nobody else moves. */
  lemma PromoteMeans(s: State, a: Addr)
    requires At(s.h2Waiters, a) != [] ==> At(s.h2Waiters, a)[0] in s.reqs
    ensures var t, q := Promote(s, a), At(s.h2Waiters, a);
            if q == [] then NobodyWoken(s, t)
            else if SomeRoom(s, a) then exists l :: WokenOnStream(s, t, a, q[0], l)
            else if PermitLeft(s.pool) then WokenToDial(s, t, a, q[0])
            else NobodyWoken(s, t)
  {
    hide SetPhase, AddStream, Dequeue, FirstLive, B.TryAcquire;
    var q, live := At(s.h2Waiters, a), FirstLive(s, At(s.h2Pool, a));
    if q == [] {
    } else {
      FirstLiveIsFirst(s, At(s.h2Pool, a));
      if live.Some? {
        PromoteStream(s, a, live.value);
        assert WokenOnStream(s, Promote(s, a), a, q[0], live.value);
      } else {
        PromoteDial(s, a);
      }
    }
  }

  lemma PromoteStream(s: State, a: Addr, l: Link)
    requires At(s.h2Waiters, a) != [] && At(s.h2Waiters, a)[0] in s.reqs && l in At(s.h2Pool, a) && HasRoom(s, l)
    ensures WokenOnStream(s, SetPhase(AddStream(Dequeue(s, a), l, 1), At(s.h2Waiters, a)[0], Sent(StreamGrant(l))),
                          a, At(s.h2Waiters, a)[0], l)
  {
    hide SetPhase, AddStream, Dequeue;
    DequeueFields(s, a);
    StreamFields(Dequeue(s, a), l);
    PhaseFields(AddStream(Dequeue(s, a), l, 1), At(s.h2Waiters, a)[0], Sent(StreamGrant(l)));
  }

  lemma PromoteDial(s: State, a: Addr)
    requires At(s.h2Waiters, a) != [] && At(s.h2Waiters, a)[0] in s.reqs
    ensures var (p, ok) := B.TryAcquire(s.pool);
            var t, w := s.(pool := p), At(s.h2Waiters, a)[0];
            && ok == PermitLeft(s.pool)
            && (ok ==> WokenToDial(s, SetPhase(Dequeue(t, a), w, Sent(DialGrant)), a, w))
            && (!ok ==> NobodyWoken(s, t))
  {
    hide SetPhase, Dequeue, B.TryAcquire;
    TryFields(s.pool);
    var t := s.(pool := B.TryAcquire(s.pool).0);
    DequeueFields(t, a);
    PhaseFields(Dequeue(t, a), At(s.h2Waiters, a)[0], Sent(DialGrant));
  }

  // ---------------------------------------------------------------------------
  // Acquire
  // ---------------------------------------------------------------------------

  ghost predicate Hits(s: State, t: State, r: ReqId, l: Link)
    requires r in s.reqs
  {
    && l in At(s.h2Pool, s.reqs[r].addr) && HasRoom(s, l) && OnlyCall(s, t, r, Hit(l)) && OneMoreStream(s, t, l)
    && t.pool == s.pool && t.entries == s.entries && t.h2Waiters == s.h2Waiters
  }

  ghost predicate Attaches(s: State, t: State, r: ReqId, l: Link)
    requires r in s.reqs
  {
    && l in At(s.h2Connecting, s.reqs[r].addr) && HasPromise(s, l) && OnlyCall(s, t, r, Attaching(l))
    && t.entries == s.entries[l := s.entries[l].(promised := s.entries[l].promised + 1)]
    && t.streamsActive == s.streamsActive + 1 && t.pool == s.pool && t.conns == s.conns && t.h2Waiters == s.h2Waiters
  }

  ghost predicate Dials(s: State, t: State, r: ReqId, l: Link)
    requires r in s.reqs
  {
    var a := s.reqs[r].addr;
    && OnlyCall(s, t, r, Dialing(l)) && t.entries == s.entries[l := Entry(a, r, 1, Connecting)]
    && t.h2Connecting == s.h2Connecting[a := At(s.h2Connecting, a) + [l]]
    && t.streamsActive == s.streamsActive + 1 && t.pool.active == s.pool.active + 1 && t.conns == s.conns
    && t.h2Waiters == s.h2Waiters
  }

  ghost predicate TurnedAway(s: State, t: State, r: ReqId) {
    && OnlyCall(s, t, r, Exiting) && t.pool.pendingOverflow == s.pool.pendingOverflow + 1 && t.pool.active == s.pool.active
    && t.h2Waiters == s.h2Waiters && t.conns == s.conns && t.entries == s.entries && t.streamsActive == s.streamsActive
  }

  ghost predicate Waits(s: State, t: State, r: ReqId)
    requires r in s.reqs
  {
    var a := s.reqs[r].addr;
    && OnlyCall(s, t, r, Queued) && t.h2Waiters == s.h2Waiters[a := At(s.h2Waiters, a) + [r]]
    && t.pool.pendingOverflow == s.pool.pendingOverflow && t.pool.active == s.pool.active
    && t.conns == s.conns && t.entries == s.entries && t.streamsActive == s.streamsActive
  }

  /** AcquireH2Stream: a connection with room, else a connecting entry with a promise to spare, else a
      permit to dial, else the queue, else an overflow, in this order and never past one that applies. */
  lemma AcquireMeans(s: State, r: ReqId, newLink: Link)
    requires r in s.reqs
    ensures var t, a := AcquireStep(s, r, newLink), s.reqs[r].addr;
            if SomeRoom(s, a) then exists l :: Hits(s, t, r, l)
            else if exists l :: l in At(s.h2Connecting, a) && HasPromise(s, l) then exists l :: Attaches(s, t, r, l)
            else if PermitLeft(s.pool) then Dials(s, t, r, newLink)
            else if |At(s.h2Waiters, a)| < s.pool.maxPending then Waits(s, t, r)
            else TurnedAway(s, t, r)
  {
    hide SetPhase, AddStream, AddPromise, Register, Pended, FirstLive, FirstSpare, B.TryAcquire;
    var a := s.reqs[r].addr;
    var live, spare := FirstLive(s, At(s.h2Pool, a)), FirstSpare(s, At(s.h2Connecting, a));
    FirstLiveIsFirst(s, At(s.h2Pool, a));
    FirstSpareIsFirst(s, At(s.h2Connecting, a));
    if live.Some? {
      AcquireHits(s, r, live.value);
      assert Hits(s, AcquireStep(s, r, newLink), r, live.value);
    } else if spare.Some? {
      AcquireAttaches(s, r, spare.value);
      assert Attaches(s, AcquireStep(s, r, newLink), r, spare.value);
    } else {
      AcquireDials(s, r, newLink);
    }
  }

  lemma AcquireHits(s: State, r: ReqId, l: Link)
    requires r in s.reqs && l in At(s.h2Pool, s.reqs[r].addr) && HasRoom(s, l)
    ensures Hits(s, SetPhase(AddStream(s, l, 1), r, Hit(l)), r, l)
  {
    hide SetPhase, AddStream;
    StreamFields(s, l);
    PhaseFields(AddStream(s, l, 1), r, Hit(l));
  }

  lemma AcquireAttaches(s: State, r: ReqId, l: Link)
    requires r in s.reqs && l in At(s.h2Connecting, s.reqs[r].addr) && HasPromise(s, l)
    ensures Attaches(s, SetPhase(AddPromise(s, l, 1), r, Attaching(l)), r, l)
  {
    hide SetPhase;
    var u := s.(streamsActive := s.streamsActive + 1, entries := s.entries[l := s.entries[l].(promised := s.entries[l].promised + 1)]);
    assert AddPromise(s, l, 1) == u;
    PhaseFields(u, r, Attaching(l));
  }

  lemma AcquireDials(s: State, r: ReqId, l: Link)
    requires r in s.reqs
    ensures var (p, ok) := B.TryAcquire(s.pool);
            var t, a := s.(pool := p), s.reqs[r].addr;
            && ok == PermitLeft(s.pool)
            && (ok ==> Dials(s, Register(t, r, l), r, l))
            && (!ok && |At(s.h2Waiters, a)| < s.pool.maxPending ==> Waits(s, Pended(t, r, a), r))
            && (!ok && |At(s.h2Waiters, a)| >= s.pool.maxPending ==> TurnedAway(s, Pended(t, r, a), r))
  {
    hide SetPhase;
    var (p, ok) := B.TryAcquire(s.pool);
    var t, a := s.(pool := p), s.reqs[r].addr;
    PhaseFields(t.(entries := t.entries[l := Entry(a, r, 1, Connecting)],
                   h2Connecting := t.h2Connecting[a := At(t.h2Connecting, a) + [l]],
                   streamsActive := t.streamsActive + 1), r, Dialing(l));
    PhaseFields(t.(pool := t.pool.(pendingOverflow := t.pool.pendingOverflow + 1)), r, Exiting);
    PhaseFields(t.(h2Waiters := t.h2Waiters[a := At(t.h2Waiters, a) + [r]],
                   pool := t.pool.(pendingActive := t.pool.pendingActive + 1, pendingTotal := t.pool.pendingTotal + 1)),
                r, Queued);
  }

  // ---------------------------------------------------------------------------
  // Closing, evicting and pooling
  // ---------------------------------------------------------------------------

  /** Connection l is closed and its permit given back, to the head HTTP/1.1 waiter if there is one. */
  ghost predicate ClosedOnce(s: State, t: State, l: Link)
    requires l in s.conns
  {
    && t.conns == s.conns[l := s.conns[l].(closed := true, released := true)]
    && (s.conns[l].released ==> t.pool == s.pool && t.cxActive == s.cxActive)
    && (!s.conns[l].released ==> t.cxActive == s.cxActive - 1)
    && (!s.conns[l].released && s.pool.waiters == [] ==> t.pool.active == s.pool.active - 1)
    && (!s.conns[l].released && s.pool.waiters != [] ==> t.pool.active == s.pool.active && t.pool.waiters == s.pool.waiters[1..])
  }

  lemma CloseMeans(s: State, l: Link)
    requires l in s.conns
    ensures var t := CloseConn(s, l); ClosedOnce(s, t, l) && t.h2Pool == s.h2Pool && t.h1Pool == s.h1Pool && t.owed == s.owed
  {
    hide SetPhase;
    if s.conns[l].released {
    } else {
      CloseSettles(s, l);
    }
  }

  lemma CloseSettles(s: State, l: Link)
    requires l in s.conns && !s.conns[l].released
    ensures var t := GivePermit(Settle(s, l)); ClosedOnce(s, t, l) && t.h2Pool == s.h2Pool && t.h1Pool == s.h1Pool && t.owed == s.owed
  {
    hide SetPhase;
    var u := Settle(s, l);
    GiveMeans(u);
    hide GivePermit;
  }

  lemma GiveMeans(s: State)
    ensures var t := GivePermit(s);
            && t.conns == s.conns && t.cxActive == s.cxActive && t.h2Pool == s.h2Pool && t.h1Pool == s.h1Pool && t.owed == s.owed
            && (s.pool.waiters == [] ==> t.pool.active == s.pool.active - 1)
            && (s.pool.waiters != [] ==> t.pool.active == s.pool.active && t.pool.waiters == s.pool.waiters[1..])
  {
    hide SetPhase;
    var (p, next) := B.Release(s.pool);
    if next.Some? {
      PhaseFrame(s.(pool := p), next.value, H1Sent);
    }
  }

  lemma PhaseFrame(s: State, r: ReqId, p: Phase)
    ensures var t := SetPhase(s, r, p);
            && t.pool == s.pool && t.conns == s.conns && t.h2Pool == s.h2Pool && t.h1Pool == s.h1Pool
            && t.owed == s.owed && t.cxActive == s.cxActive
  {
  }

  /** evictH2ConnLocked: l leaves the pool of a and is closed, once. */
  lemma EvictMeans(s: State, a: Addr, l: Link)
    requires l in s.conns && NoDup(At(s.h2Pool, a))
    ensures var t := Evict(s, a, l);
            && ClosedOnce(s, t, l) && l !in At(t.h2Pool, a) && (forall k :: k in At(s.h2Pool, a) && k != l ==> k in At(t.h2Pool, a))
            && (forall b :: b != a ==> At(t.h2Pool, b) == At(s.h2Pool, b))
  {
    hide CloseConn;
    var u := s.(h2Pool := s.h2Pool[a := Without(At(s.h2Pool, a), l)]);
    CloseMeans(u, l);
    WithoutMembers(At(s.h2Pool, a), l);
  }

  /** The last stream of a connection that closed or saw GOAWAY takes it out of the pool and closes it,
      and owes a promotion; any other release leaves pool, connections and permits alone. */
  lemma ReleaseCheckMeans(s: State, r: ReqId)
    requires r in s.reqs && s.reqs[r].phase.Releasing? && s.reqs[r].phase.link in s.conns
    requires NoDup(At(s.h2Pool, s.reqs[r].addr))
    ensures var t, a, l := ReleaseCheckStep(s, r), s.reqs[r].addr, s.reqs[r].phase.link;
            if (s.conns[l].closed || s.conns[l].goneAway) && s.conns[l].inFlight == 0
            then ClosedOnce(s, t, l) && l !in At(t.h2Pool, a) && t.owed == s.owed + multiset{a}
            else t.conns == s.conns && t.pool == s.pool && t.h2Pool == s.h2Pool && t.owed == s.owed && OnlyCall(s, t, r, Done)
  {
    hide SetPhase, Evict;
    PhaseFields(s, r, Done);
    PhaseFrame(s, r, Done);
    EvictMeans(SetPhase(s, r, Done), s.reqs[r].addr, s.reqs[r].phase.link);
    EvictOwes(SetPhase(s, r, Done), s.reqs[r].addr, s.reqs[r].phase.link);
  }

  lemma EvictOwes(s: State, a: Addr, l: Link)
    requires l in s.conns
    ensures Evict(s, a, l).owed == s.owed
  {
    hide CloseConn;
    CloseMeans(s.(h2Pool := s.h2Pool[a := Without(At(s.h2Pool, a), l)]), l);
  }

  /** evictH2ConnOnError and the drain watcher's goroutine: a pooled connection leaves its pool and is
      closed, at once on an error and on GOAWAY only when no stream is left; and a promotion is owed.
      Otherwise nothing happens. */
  lemma EvictEventMeans(s: State, a: Addr, l: Link, onError: bool)
    requires l in s.conns && NoDup(At(s.h2Pool, a)) && (onError || s.conns[l].goneAway)
    ensures var t := Step(s, if onError then EvictOnError(a, l) else DrainWatch(a, l));
            if l in At(s.h2Pool, a) && (onError || s.conns[l].inFlight == 0)
            then ClosedOnce(s, t, l) && l !in At(t.h2Pool, a) && t.owed == s.owed + multiset{a}
            else t.conns == s.conns && t.pool == s.pool && t.h2Pool == s.h2Pool && t.owed == s.owed
  {
    hide Evict;
    EvictMeans(s, a, l);
    EvictOwes(s, a, l);
  }

  /** A dial that fails after its connection was wrapped closes it: the permit goes back, and the entry is
      still to be failed. */
  lemma FinalizeFailsMeans(s: State, r: ReqId)
    requires r in s.reqs && s.reqs[r].phase.Dialed? && s.reqs[r].phase.link in s.conns
    ensures ClosedOnce(s, Step(s, FinalizeFails(r)), s.reqs[r].phase.link)
  {
    hide SetPhase, CloseConn;
    var l := s.reqs[r].phase.link;
    PhaseFrame(s, r, DialFailed(l));
    CloseMeans(SetPhase(s, r, DialFailed(l)), l);
  }

  /** PutIdleH1: a returned connection goes to the end of its endpoint's idle list, unless a request was
      seen waiting or the list is full, and then it is closed. */
  lemma PutIdleMeans(s: State, r: ReqId, sawWaiter: bool)
    requires r in s.reqs && s.reqs[r].phase.H1Holding? && s.reqs[r].phase.link in s.conns
    ensures var t, l := H1PutIdleStep(s, r, sawWaiter), s.reqs[r].phase.link;
            var a := s.conns[l].addr;
            if sawWaiter || |At(s.h1Pool, a)| >= 1024 then ClosedOnce(s, t, l) && t.h1Pool == s.h1Pool
            else && t.h1Pool == s.h1Pool[a := At(s.h1Pool, a) + [l]] && t.conns == s.conns && t.pool == s.pool
                 && OnlyCall(s, t, r, Done)
  {
    hide SetPhase, CloseConn;
    PhaseFields(s, r, Done);
    PhaseFrame(s, r, Done);
    CloseMeans(SetPhase(s, r, Done), s.reqs[r].phase.link);
  }

  /** AcquireH1 takes the connection returned last: what one caller puts back the next one pops. */
  lemma PopIdleMeans(s: State, r: ReqId)
    requires r in s.reqs && s.reqs[r].phase.H1Picked? && At(s.h1Pool, s.reqs[r].addr) != []
    ensures var t, a := Step(s, H1PopIdle(r)), s.reqs[r].addr;
            exists l :: OnlyCall(s, t, r, H1Hit(l)) && At(s.h1Pool, a) == At(t.h1Pool, a) + [l]
                        && t.conns == s.conns && t.pool == s.pool
  {
    hide SetPhase;
    var a := s.reqs[r].addr;
    var q := At(s.h1Pool, a);
    var n := |q| - 1;
    var u := s.(h1Pool := s.h1Pool[a := q[..n]]);
    PhaseFields(u, r, H1Hit(q[n]));
    assert q == q[..n] + [q[n]];
    var t := Step(s, H1PopIdle(r));
    assert OnlyCall(s, t, r, H1Hit(q[n]));
  }

  // ---------------------------------------------------------------------------
  // Promotions are owed
  // ---------------------------------------------------------------------------

  /** The step frees a stream slot or a permit that a waiter of a could use. */
  ghost predicate Frees(s: State, e: Event, a: Addr) {
    match e
    case FailEntry(r) => r in s.reqs && a == s.reqs[r].addr
    case PoolConn(r) => r in s.reqs && a == s.reqs[r].addr
    case UndoOrphan(r) => r in s.reqs && a == s.reqs[r].addr
    case Release(r) => r in s.reqs && a == s.reqs[r].addr
    case CancelWait(r) => r in s.reqs && a == s.reqs[r].addr && s.reqs[r].phase.Sent? && r !in At(s.h2Waiters, a)
    case EvictOnError(b, l) => a == b && l in At(s.h2Pool, b) && l in s.conns
    case DrainWatch(b, l) => a == b && l in At(s.h2Pool, b) && l in s.conns && s.conns[l].inFlight == 0
    case _ => false
  }

  /** Every such step owes its address exactly one promotion. */
  lemma FreeingOwes(s: State, e: Event, a: Addr)
    requires Enabled(s, e) && Frees(s, e, a)
    ensures Step(s, e).owed == s.owed + multiset{a}
  {
    hide SetPhase, AddStream, GivePermit, Evict;
    match e
    case FailEntry(r) => OweAfter(FailBase(s, r), r, Done, a);
    case PoolConn(r) => OweAfter(PoolBase(s, r), r, Riding(s.reqs[r].phase.link), a);
    case UndoOrphan(r) => OweAfter(s.(streamsActive := s.streamsActive - 1), r, Exiting, a);
    case Release(r) => StreamOwed(s, s.reqs[r].phase.link); OweAfter(AddStream(s, s.reqs[r].phase.link, -1), r, Releasing(s.reqs[r].phase.link), a);
    case CancelWait(r) => CancelOwes(s, r, a);
    case EvictOnError(b, l) => EvictOwes(s, b, l);
    case DrainWatch(b, l) => EvictOwes(s, b, l);
  }

  lemma OweAfter(t: State, r: ReqId, p: Phase, a: Addr)
    ensures SetPhase(t, r, p).owed == t.owed && Owe(SetPhase(t, r, p), a).owed == t.owed + multiset{a}
  {
  }

  lemma StreamOwed(s: State, l: Link)
    ensures AddStream(s, l, -1).owed == s.owed
  {
    if l in s.conns {
      var u := s.(streamsActive := s.streamsActive - 1, conns := s.conns[l := s.conns[l].(inFlight := s.conns[l].inFlight - 1)]);
      assert AddStream(s, l, -1) == u;
    }
  }

  function FailBase(s: State, r: ReqId): State
    requires r in s.reqs && s.reqs[r].phase.DialFailed? && s.reqs[r].phase.link in s.entries
  {
    var a, l := s.reqs[r].addr, s.reqs[r].phase.link;
    var e := s.entries[l];
    s.(entries := s.entries[l := e.(status := Failed)],
       h2Connecting := s.h2Connecting[a := Without(At(s.h2Connecting, a), l)],
       streamsActive := s.streamsActive - e.promised)
  }

  function PoolBase(s: State, r: ReqId): State
    requires r in s.reqs && s.reqs[r].phase.Dialed? && s.reqs[r].phase.link in s.entries && s.reqs[r].phase.link in s.conns
  {
    var a, l := s.reqs[r].addr, s.reqs[r].phase.link;
    var e := s.entries[l];
    s.(entries := s.entries[l := e.(status := Ready)],
       conns := s.conns[l := s.conns[l].(inFlight := e.promised)],
       h2Connecting := s.h2Connecting[a := Without(At(s.h2Connecting, a), l)],
       h2Pool := s.h2Pool[a := At(s.h2Pool, a) + [l]])
  }

  lemma CancelOwes(s: State, r: ReqId, a: Addr)
    requires r in s.reqs && a == s.reqs[r].addr && s.reqs[r].phase.Sent? && r !in At(s.h2Waiters, a)
    ensures CancelWaitStep(s, r).owed == s.owed + multiset{a}
  {
    hide SetPhase, AddStream, GivePermit;
    match s.reqs[r].phase.grant
    case StreamGrant(l) =>
      StreamOwed(s, l);
      OweAfter(AddStream(s, l, -1), r, Exiting, a);
      OweAfter(s.(streamsActive := s.streamsActive - 1), r, Exiting, a);
    case DialGrant =>
      GiveMeans(s);
      OweAfter(GivePermit(s), r, Exiting, a);
  }
}
