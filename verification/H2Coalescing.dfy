/** Connect-time coalescing: concurrent demand for one address opens as few connections as the
    stream cap allows. */
module H2Coalescing {
  import opened Options
  import opened Seqs
  import opened Arith
  import opened H2Machine
  import opened H2Ledger
  import opened H2Invariant
  import opened H2Accounts
  import opened H2Shape
  import opened H2Safety
  import opened H2Theorems
  import B = ConnBudget

  /** Arrivals for one address and successful dials; no release, cancel, failure or peer move. */
  predicate Demand(e: Event, a: Addr) {
    (e.Pick? && e.addr == a && e.h2) || e.Acquire? || e.FirePick? || e.DialConnects? || e.PoolConn?
    || e.AttachReady? || e.DoPromote?
  }

  /** The calls that have entered the pool. */
  function Arrived(es: seq<Event>): nat {
    if es == [] then 0 else Ind(es[0].Acquire?) + Arrived(es[1..])
  }

  function Min(x: int, y: int): int { if x < y then x else y }

  function CeilDiv(x: nat, y: nat): nat
    requires y > 0
  {
    (x + y - 1) / y
  }

  /** Every entry is connecting in its list, or pooled and healthy. */
  predicate Lane(s: State, a: Addr, l: Link)
    requires l in s.entries
  {
    if s.entries[l].status.Connecting? then l in At(s.h2Connecting, a)
    else s.entries[l].status.Ready? && l in At(s.h2Pool, a)
         && l in s.conns
  }

  ghost predicate Lanes(s: State, a: Addr) {
    && (forall l :: l in s.entries ==> Lane(s, a, l))
    && (forall r :: r in s.reqs ==> s.reqs[r].addr == a)
    && (forall l :: l in s.conns ==> !s.conns[l].closed && !s.conns[l].goneAway)
  }

  /** At most one entry, cur, has slots to spare. */
  ghost predicate Packed(s: State, cur: Link) {
    && (forall l :: l in s.entries && l != cur ==> Counted(s, l) == s.maxStreams)
    && (if s.entries == map[] then s.streamsActive == 0
        else cur in s.entries && 1 <= Counted(s, cur) <= s.maxStreams
             && s.streamsActive == (|s.entries| - 1) * s.maxStreams + Counted(s, cur))
  }

  /** The cluster's settings: C, M and the length of the wait queue. */
  datatype Limits = Limits(streams: nat, permits: nat, pending: nat)

  /** k calls came in; those beyond the open slots wait or overflowed, and only when all is full. */
  ghost predicate Served(s: State, a: Addr, k: int, d: Limits, cur: Link) {
    var waiting := k - s.streamsActive;
    && s.maxStreams == d.streams && s.pool.cap == B.AtMost(d.permits) && s.pool.maxPending == d.pending
    && s.pool.active == |s.entries| <= d.permits
    && waiting >= 0
    && |At(s.h2Waiters, a)| == Min(d.pending, waiting)
    && s.pool.pendingOverflow == waiting - |At(s.h2Waiters, a)|
    && (waiting > 0 ==> |s.entries| == d.permits && (cur in s.entries ==> Counted(s, cur) == s.maxStreams))
  }

  ghost predicate Coalesced(s: State, a: Addr, k: int, d: Limits, cur: Link) {
    Inv(s) && Lanes(s, a) && Packed(s, cur) && Served(s, a, k, d, cur)
  }

  lemma SpareIsCur(s: State, a: Addr, cur: Link, l: Link)
    requires Packed(s, cur) && l in s.entries && Counted(s, l) < s.maxStreams
    ensures l == cur
  {
  }

  /** With no live connection and no connecting entry to attach to, every entry is full. */
  lemma NothingSpare(s: State, a: Addr, l: Link)
    requires Lanes(s, a) && l in s.entries
    requires FirstLive(s, At(s.h2Pool, a)).None? && FirstSpare(s, At(s.h2Connecting, a)).None?
    ensures Counted(s, l) >= s.maxStreams
  {
    assert Lane(s, a, l);
    hide FirstLive, FirstSpare;
    if s.entries[l].status.Connecting? {
      assert !Spare(s, l);
    } else {
      assert !Live(s, l);
    }
  }

  lemma HitPacks(s: State, a: Addr, k: int, d: Limits, cur: Link, r: ReqId, l: Link)
    requires Lanes(s, a) && Packed(s, cur) && Served(s, a, k, d, cur)
    requires r in s.reqs && OnReady(s.entries, a, l) && Live(s, l)
    ensures var t := SetPhase(AddStream(s, l, 1), r, Hit(l));
            Lanes(t, a) && Packed(t, cur) && Served(t, a, k + 1, d, cur)
  {
    var t := SetPhase(AddStream(s, l, 1), r, Hit(l));
    SpareIsCur(s, a, cur, l);
    assert forall m :: m != l ==> Counted(t, m) == Counted(s, m);
    assert Counted(t, l) == Counted(s, l) + 1;
    forall m | m in t.entries ensures Lane(t, a, m) {
      assert Lane(s, a, m);
    }
  }

  lemma AttachPacks(s: State, a: Addr, k: int, d: Limits, cur: Link, r: ReqId, l: Link)
    requires Lanes(s, a) && Packed(s, cur) && Served(s, a, k, d, cur)
    requires r in s.reqs && OnConnecting(s.entries, a, l) && Spare(s, l)
    ensures var t := SetPhase(AddPromise(s, l, 1), r, Attaching(l));
            Lanes(t, a) && Packed(t, cur) && Served(t, a, k + 1, d, cur)
  {
    hide Lanes, Packed, Served, SetPhase;
    SpareIsCur(s, a, cur, l);
    PromiseLanes(s, a, l);
    PromisePacks(s, a, k, d, l);
    PhaseLanes(AddPromise(s, l, 1), a, r, Attaching(l));
    PhasePacked(AddPromise(s, l, 1), cur, r, Attaching(l));
    PhaseServed(AddPromise(s, l, 1), a, k + 1, d, cur, r, Attaching(l));
  }

  lemma PromiseLanes(s: State, a: Addr, l: Link)
    requires Lanes(s, a) && OnConnecting(s.entries, a, l)
    ensures Lanes(AddPromise(s, l, 1), a)
  {
    var t := AddPromise(s, l, 1);
    forall m | m in t.entries ensures Lane(t, a, m) {
      assert Lane(s, a, m);
    }
  }

  lemma PromisePacks(s: State, a: Addr, k: int, d: Limits, l: Link)
    requires Packed(s, l) && Served(s, a, k, d, l) && OnConnecting(s.entries, a, l) && Spare(s, l)
    ensures Packed(AddPromise(s, l, 1), l) && Served(AddPromise(s, l, 1), a, k + 1, d, l)
  {
    var e := s.entries[l].(promised := s.entries[l].promised + 1);
    var t := s.(streamsActive := s.streamsActive + 1, entries := s.entries[l := e]);
    assert forall m :: m != l ==> Counted(t, m) == Counted(s, m);
    assert Counted(t, l) == Counted(s, l) + 1;
    assert t.entries.Keys == s.entries.Keys;
    assert |t.entries| == |t.entries.Keys| == |s.entries.Keys| == |s.entries|;
  }

  lemma AllFull(s: State, a: Addr, cur: Link)
    requires Lanes(s, a) && Packed(s, cur)
    requires FirstLive(s, At(s.h2Pool, a)).None? && FirstSpare(s, At(s.h2Connecting, a)).None?
    ensures s.streamsActive == |s.entries| * s.maxStreams
    ensures cur in s.entries ==> Counted(s, cur) == s.maxStreams
  {
    if cur in s.entries {
      NothingSpare(s, a, cur);
      assert (|s.entries| - 1) * s.maxStreams + s.maxStreams == |s.entries| * s.maxStreams;
    } else {
      assert s.entries == map[];
    }
  }

  lemma DialLanes(s: State, a: Addr, r: ReqId, l: Link, p: B.Pool)
    requires Lanes(s, a) && r in s.reqs && Unused(s, l)
    ensures Lanes(Register(s.(pool := p), r, l), a)
  {
    var t := Register(s.(pool := p), r, l);
    assert s.reqs[r].addr == a;
    forall m | m in t.entries ensures Lane(t, a, m) {
      if m != l {
        assert Lane(s, a, m);
      }
    }
  }

  lemma DialCounts(s: State, r: ReqId, l: Link, p: B.Pool)
    requires r in s.reqs && Unused(s, l)
    ensures var t := Register(s.(pool := p), r, l);
            && |t.entries| == |s.entries| + 1 && Counted(t, l) == 1
            && (forall m :: m in t.entries && m != l ==> m in s.entries && Counted(t, m) == Counted(s, m))
  {
    hide Counted;
    var t := Register(s.(pool := p), r, l);
    assert t.entries == s.entries[l := Entry(s.reqs[r].addr, r, 1, Connecting)] && t.conns == s.conns;
    OneMoreEntry(s, t, l);
  }

  lemma OneMoreEntry(s: State, t: State, l: Link)
    requires l !in s.entries && t.conns == s.conns && l in t.entries && t.entries == s.entries[l := t.entries[l]]
    requires t.entries[l].status.Connecting? && t.entries[l].promised == 1
    ensures |t.entries| == |s.entries| + 1 && Counted(t, l) == 1
    ensures forall m :: m in t.entries && m != l ==> m in s.entries && Counted(t, m) == Counted(s, m)
  {
    assert t.entries.Keys == s.entries.Keys + {l};
    assert |t.entries.Keys| == |s.entries.Keys| + 1;
  }

  lemma DialPacks(s: State, a: Addr, k: int, d: Limits, cur: Link, r: ReqId, l: Link)
    requires Lanes(s, a) && Packed(s, cur) && Served(s, a, k, d, cur) && s.maxStreams >= 1
    requires r in s.reqs && Unused(s, l) && B.UnderCap(s.pool)
    requires FirstLive(s, At(s.h2Pool, a)).None? && FirstSpare(s, At(s.h2Connecting, a)).None?
    ensures var t := Register(s.(pool := B.Reserve(s.pool)), r, l);
            Packed(t, l) && Served(t, a, k + 1, d, l)
  {
    hide FirstLive, FirstSpare, Counted, Lanes;
    AllFull(s, a, cur);
    DialCounts(s, r, l, B.Reserve(s.pool));
  }

  /** A call's position does not matter to the lanes. */
  lemma PhaseLanes(s: State, a: Addr, r: ReqId, p: Phase)
    requires Lanes(s, a)
    ensures Lanes(SetPhase(s, r, p), a)
  {
    var t := SetPhase(s, r, p);
    forall m | m in t.entries ensures Lane(t, a, m) {
      assert Lane(s, a, m);
    }
  }

  lemma PhasePacked(s: State, cur: Link, r: ReqId, p: Phase)
    requires Packed(s, cur)
    ensures Packed(SetPhase(s, r, p), cur)
  {
    var t := SetPhase(s, r, p);
    assert forall m :: Counted(t, m) == Counted(s, m);
  }

  lemma BudgetLanes(s: State, a: Addr, w: map<Addr, seq<ReqId>>, p: B.Pool)
    requires Lanes(s, a)
    ensures Lanes(s.(h2Waiters := w, pool := p), a)
  {
    var t := s.(h2Waiters := w, pool := p);
    forall m | m in t.entries ensures Lane(t, a, m) {
      assert Lane(s, a, m);
    }
  }

  lemma BudgetPacked(s: State, cur: Link, w: map<Addr, seq<ReqId>>, p: B.Pool)
    requires Packed(s, cur)
    ensures Packed(s.(h2Waiters := w, pool := p), cur)
  {
    var t := s.(h2Waiters := w, pool := p);
    assert forall m :: Counted(t, m) == Counted(s, m);
  }

  lemma WaitLanes(s: State, a: Addr, cur: Link, r: ReqId, w: map<Addr, seq<ReqId>>, p: B.Pool, ph: Phase)
    requires Lanes(s, a) && Packed(s, cur)
    ensures var t := SetPhase(s.(h2Waiters := w, pool := p), r, ph);
            Lanes(t, a) && Packed(t, cur)
  {
    hide Lanes, Packed, SetPhase;
    BudgetLanes(s, a, w, p);
    BudgetPacked(s, cur, w, p);
    PhaseLanes(s.(h2Waiters := w, pool := p), a, r, ph);
    PhasePacked(s.(h2Waiters := w, pool := p), cur, r, ph);
  }

  predicate Waits(s: State, a: Addr, w: map<Addr, seq<ReqId>>, p: B.Pool) {
    && p.cap == s.pool.cap && p.active == s.pool.active && p.maxPending == s.pool.maxPending
    && if |At(s.h2Waiters, a)| >= s.pool.maxPending
       then |At(w, a)| == |At(s.h2Waiters, a)| && p.pendingOverflow == s.pool.pendingOverflow + 1
       else |At(w, a)| == |At(s.h2Waiters, a)| + 1 && p.pendingOverflow == s.pool.pendingOverflow
  }

  lemma PhaseServed(s: State, a: Addr, k: int, d: Limits, cur: Link, r: ReqId, p: Phase)
    requires Served(s, a, k, d, cur)
    ensures Served(SetPhase(s, r, p), a, k, d, cur)
  {
    hide At;
    assert Counted(SetPhase(s, r, p), cur) == Counted(s, cur);
  }

  lemma WaitServed(s: State, a: Addr, k: int, d: Limits, cur: Link, r: ReqId, w: map<Addr, seq<ReqId>>, p: B.Pool, ph: Phase)
    requires Served(s, a, k, d, cur) && !B.UnderCap(s.pool) && Waits(s, a, w, p)
    requires cur in s.entries ==> Counted(s, cur) == s.maxStreams
    ensures Served(SetPhase(s.(h2Waiters := w, pool := p), r, ph), a, k + 1, d, cur)
  {
    hide At, SetPhase;
    var t := s.(h2Waiters := w, pool := p);
    assert Counted(t, cur) == Counted(s, cur);
    assert Served(t, a, k + 1, d, cur);
    PhaseServed(t, a, k + 1, d, cur, r, ph);
  }

  lemma WaitPacks(s: State, a: Addr, k: int, d: Limits, cur: Link, r: ReqId, w: map<Addr, seq<ReqId>>, p: B.Pool, ph: Phase)
    requires Lanes(s, a) && Packed(s, cur) && Served(s, a, k, d, cur) && !B.UnderCap(s.pool) && Waits(s, a, w, p)
    requires FirstLive(s, At(s.h2Pool, a)).None? && FirstSpare(s, At(s.h2Connecting, a)).None?
    ensures var t := SetPhase(s.(h2Waiters := w, pool := p), r, ph);
            Lanes(t, a) && Packed(t, cur) && Served(t, a, k + 1, d, cur)
  {
    hide Lanes, Packed, FirstLive, FirstSpare, At, Served, SetPhase, Waits;
    AllFull(s, a, cur);
    WaitLanes(s, a, cur, r, w, p, ph);
    WaitServed(s, a, k, d, cur, r, w, p, ph);
  }

  /** Steps that move no slot, open no dial and touch no queue of the address. */
  lemma QuietPacks(s: State, a: Addr, k: int, d: Limits, cur: Link, t: State)
    requires Lanes(s, a) && Packed(s, cur) && Served(s, a, k, d, cur)
    requires t.maxStreams == s.maxStreams && t.entries == s.entries && t.streamsActive == s.streamsActive
    requires t.h2Pool == s.h2Pool && t.h2Connecting == s.h2Connecting && t.h2Waiters == s.h2Waiters
    requires forall r :: r in t.reqs ==> t.reqs[r].addr == a
    requires forall l :: l in s.conns ==> l in t.conns && t.conns[l] == s.conns[l]
    requires forall l :: l in t.conns ==> !t.conns[l].closed && !t.conns[l].goneAway
    requires t.pool.cap == s.pool.cap && t.pool.active == s.pool.active && t.pool.maxPending == s.pool.maxPending
             && t.pool.pendingOverflow == s.pool.pendingOverflow
    ensures Lanes(t, a) && Packed(t, cur) && Served(t, a, k, d, cur)
  {
    forall m | m in t.entries ensures Lane(t, a, m) && Counted(t, m) == Counted(s, m) {
      assert Lane(s, a, m);
    }
  }

  predicate Converts(s: State, a: Addr, r: ReqId, l: Link) {
    && r in s.reqs && s.reqs[r].phase == Dialed(l) && s.reqs[r].addr == a
    && OnConnecting(s.entries, a, l) && l in s.conns
  }

  lemma PoolConnLanes(s: State, a: Addr, r: ReqId, l: Link)
    requires Lanes(s, a) && Converts(s, a, r, l) && NoDup(At(s.h2Connecting, a))
    ensures Lanes(PoolConnStep(s, r), a)
  {
    var t := PoolConnStep(s, r);
    WithoutMembers(At(s.h2Connecting, a), l);
    forall m | m in t.entries ensures Lane(t, a, m) {
      if m != l {
        assert Lane(s, a, m);
      }
    }
  }

  lemma PoolConnPacks(s: State, a: Addr, k: int, d: Limits, cur: Link, r: ReqId, l: Link)
    requires Packed(s, cur) && Served(s, a, k, d, cur) && Converts(s, a, r, l)
    ensures Packed(PoolConnStep(s, r), cur) && Served(PoolConnStep(s, r), a, k, d, cur)
  {
    var t := PoolConnStep(s, r);
    assert t.entries.Keys == s.entries.Keys;
    assert |t.entries| == |t.entries.Keys| == |s.entries.Keys| == |s.entries|;
    assert forall m :: Counted(t, m) == Counted(s, m);
  }

  lemma NoDupConnecting(s: State, a: Addr)
    requires Inv(s)
    ensures NoDup(At(s.h2Connecting, a))
  {
    hide Accounts;
  }

  /** Nobody is promoted: the queue is empty, or every slot and every permit is taken. */
  lemma PromotePacks(s: State, a: Addr, k: int, d: Limits, cur: Link, b: Addr)
    requires Inv(s) && Lanes(s, a) && Packed(s, cur) && Served(s, a, k, d, cur)
    ensures var t := Promote(s, b);
            Lanes(t, a) && Packed(t, cur) && Served(t, a, k, d, cur)
  {
    hide Inv;
    var q := At(s.h2Waiters, b);
    if q != [] {
      InQueue(s, b, q[0]);
      assert a == b;
      forall l | l in At(s.h2Pool, a) ensures !Live(s, l) {
        InPool(s, a, l);
      }
      assert FirstLive(s, At(s.h2Pool, a)).None?;
      QuietPacks(s, a, k, d, cur, s.(pool := B.Refuse(s.pool)));
    }
  }

  lemma AcquireCoalesces(s: State, a: Addr, k: int, d: Limits, cur: Link, r: ReqId, l: Link) returns (now: Link)
    requires Coalesced(s, a, k, d, cur) && r in s.reqs && s.reqs[r].phase.Picked? && Unused(s, l)
    ensures Coalesced(AcquireStep(s, r, l), a, k + 1, d, now)
  {
    hide Inv, Packed, Served;
    AcquireKeeps(s, r, l);
    now := AcquirePacks(s, a, k, d, cur, r, l);
  }

  lemma AcquirePacks(s: State, a: Addr, k: int, d: Limits, cur: Link, r: ReqId, l: Link) returns (now: Link)
    requires Coalesced(s, a, k, d, cur) && r in s.reqs && Unused(s, l)
    ensures var t := AcquireStep(s, r, l); Lanes(t, a) && Packed(t, now) && Served(t, a, k + 1, d, now)
  {
    hide Inv, Packed, Served, Register;
    assert s.reqs[r].addr == a;
    var live := FirstLive(s, At(s.h2Pool, a));
    var spare := FirstSpare(s, At(s.h2Connecting, a));
    now := cur;
    if live.Some? {
      InPool(s, a, live.value);
      HitPacks(s, a, k, d, cur, r, live.value);
    } else if spare.Some? {
      InConnecting(s, a, spare.value);
      AttachPacks(s, a, k, d, cur, r, spare.value);
    } else if B.UnderCap(s.pool) {
      AtLeastOneStream(s);
      DialLanes(s, a, r, l, B.Reserve(s.pool));
      DialPacks(s, a, k, d, cur, r, l);
      now := l;
    } else {
      LateAcquirePacks(s, a, k, d, cur, r, l);
    }
  }

  lemma LateAcquirePacks(s: State, a: Addr, k: int, d: Limits, cur: Link, r: ReqId, l: Link)
    requires Lanes(s, a) && Packed(s, cur) && Served(s, a, k, d, cur) && r in s.reqs && !B.UnderCap(s.pool)
    requires FirstLive(s, At(s.h2Pool, a)).None? && FirstSpare(s, At(s.h2Connecting, a)).None?
    ensures var t := AcquireStep(s, r, l); Lanes(t, a) && Packed(t, cur) && Served(t, a, k + 1, d, cur)
  {
    hide Packed, Served, Register, SetPhase;
    assert s.reqs[r].addr == a;
    hide Lanes, FirstLive, FirstSpare;
    var p := B.Refuse(s.pool);
    if |At(s.h2Waiters, a)| >= s.pool.maxPending {
      WaitPacks(s, a, k, d, cur, r, s.h2Waiters, p.(pendingOverflow := p.pendingOverflow + 1), Exiting);
    } else {
      WaitPacks(s, a, k, d, cur, r, s.h2Waiters[a := At(s.h2Waiters, a) + [r]],
                p.(pendingActive := p.pendingActive + 1, pendingTotal := p.pendingTotal + 1), Queued);
    }
  }

  lemma AtLeastOneStream(s: State)
    requires Inv(s)
    ensures s.maxStreams >= 1
  {
    hide Accounts;
  }

  lemma ConvertCoalesces(s: State, a: Addr, k: int, d: Limits, cur: Link, r: ReqId)
    requires Coalesced(s, a, k, d, cur) && r in s.reqs && s.reqs[r].phase.Dialed?
    requires s.reqs[r].phase.link in s.entries && s.reqs[r].phase.link in s.conns
    ensures Coalesced(PoolConnStep(s, r), a, k, d, cur)
  {
    hide Inv, Packed, Served, PoolConnStep;
    PoolConnKeeps(s, r);
    RefsOf(s, r);
    NoDupConnecting(s, a);
    PoolConnLanes(s, a, r, s.reqs[r].phase.link);
    PoolConnPacks(s, a, k, d, cur, r, s.reqs[r].phase.link);
  }

  /** An attacher that wakes up finds its connection: nothing failed and nothing was evicted. */
  lemma AttachRides(s: State, a: Addr, r: ReqId)
    requires Inv(s) && Lanes(s, a) && r in s.reqs && s.reqs[r].phase.Attached?
    requires s.reqs[r].phase.link in s.entries && !s.entries[s.reqs[r].phase.link].status.Connecting?
    ensures AttachReadyStep(s, r) == SetPhase(s, r, Riding(s.reqs[r].phase.link))
  {
    hide Inv;
    RefsOf(s, r);
    assert Lane(s, a, s.reqs[r].phase.link);
  }

  lemma PickPacks(s: State, a: Addr, k: int, d: Limits, cur: Link, r: ReqId, h: Host, h2: bool)
    requires Lanes(s, a) && Packed(s, cur) && Served(s, a, k, d, cur) && r !in s.reqs
    ensures var t := Step(s, Pick(r, h, a, h2)); Lanes(t, a) && Packed(t, cur) && Served(t, a, k, d, cur)
  {
    hide Packed, Served;
    QuietPacks(s, a, k, d, cur, Step(s, Pick(r, h, a, h2)));
  }

  lemma FirePickPacks(s: State, a: Addr, k: int, d: Limits, cur: Link, r: ReqId)
    requires Lanes(s, a) && Packed(s, cur) && Served(s, a, k, d, cur) && r in s.reqs
    ensures var t := FirePickStep(s, r); Lanes(t, a) && Packed(t, cur) && Served(t, a, k, d, cur)
  {
    hide Packed, Served, Lanes, SetPhase, AddLoad;
    PhasePacks(s, a, k, d, cur, r, AfterPick(s.reqs[r].phase));
  }

  lemma PhasePacks(s: State, a: Addr, k: int, d: Limits, cur: Link, r: ReqId, p: Phase)
    requires Lanes(s, a) && Packed(s, cur) && Served(s, a, k, d, cur) && r in s.reqs
    ensures var t := SetPhase(AddLoad(s, s.reqs[r].host, -1), r, p);
            Lanes(t, a) && Packed(t, cur) && Served(t, a, k, d, cur)
  {
    hide Packed, Served;
    QuietPacks(s, a, k, d, cur, SetPhase(AddLoad(s, s.reqs[r].host, -1), r, p));
  }

  lemma ConnectsPacks(s: State, a: Addr, k: int, d: Limits, cur: Link, r: ReqId, l: Link)
    requires Lanes(s, a) && Packed(s, cur) && Served(s, a, k, d, cur) && r in s.reqs && l !in s.conns
    ensures var t := Connected(s, r, l, Dialed(l)); Lanes(t, a) && Packed(t, cur) && Served(t, a, k, d, cur)
  {
    hide Packed, Served;
    QuietPacks(s, a, k, d, cur, Connected(s, r, l, Dialed(l)));
  }

  lemma RidePacks(s: State, a: Addr, k: int, d: Limits, cur: Link, r: ReqId)
    requires Inv(s) && Lanes(s, a) && Packed(s, cur) && Served(s, a, k, d, cur) && r in s.reqs && s.reqs[r].phase.Attached?
    requires s.reqs[r].phase.link in s.entries && !s.entries[s.reqs[r].phase.link].status.Connecting?
    ensures var t := AttachReadyStep(s, r); Lanes(t, a) && Packed(t, cur) && Served(t, a, k, d, cur)
  {
    hide Inv, Packed, Served, AttachReadyStep;
    AttachRides(s, a, r);
    QuietPacks(s, a, k, d, cur, SetPhase(s, r, Riding(s.reqs[r].phase.link)));
  }

  lemma OwedIgnored(s: State, t: State)
    requires Inv(s) && t == s.(owed := t.owed)
    ensures Inv(t)
  {
    hide Accounts;
    FrameAccounts(s, t);
    FrameShape(s, t);
  }

  lemma PromoteCoalesces(s: State, a: Addr, k: int, d: Limits, cur: Link, b: Addr)
    requires Coalesced(s, a, k, d, cur) && b in s.owed
    ensures Coalesced(Step(s, DoPromote(b)), a, k, d, cur)
  {
    hide Inv, Packed, Served, Promote;
    StepKeeps(s, DoPromote(b));
    var t := s.(owed := s.owed - multiset{b});
    OwedIgnored(s, t);
    QuietPacks(s, a, k, d, cur, t);
    PromotePacks(t, a, k, d, cur, b);
  }

  lemma StepCoalesces(s: State, a: Addr, k: int, d: Limits, cur: Link, e: Event) returns (now: Link)
    requires Coalesced(s, a, k, d, cur) && Enabled(s, e) && Demand(e, a)
    ensures Coalesced(Step(s, e), a, k + Ind(e.Acquire?), d, now)
  {
    hide SameLimits, Inv, Lanes, Packed, Served;
    now := cur;
    match e
    case Acquire(r, l) => now := AcquireCoalesces(s, a, k, d, cur, r, l);
    case PoolConn(r) => ConvertCoalesces(s, a, k, d, cur, r);
    case DoPromote(b) => PromoteCoalesces(s, a, k, d, cur, b);
    case Pick(r, h, _, h2) => StepKeeps(s, e); PickPacks(s, a, k, d, cur, r, h, h2);
    case FirePick(r) => StepKeeps(s, e); FirePickPacks(s, a, k, d, cur, r);
    case DialConnects(r) => StepKeeps(s, e); RefsOf(s, r); ConnectsPacks(s, a, k, d, cur, r, s.reqs[r].phase.link);
    case AttachReady(r) => StepKeeps(s, e); RidePacks(s, a, k, d, cur, r);
  }

  lemma {:induction false} RunCoalesces(s: State, a: Addr, k: int, d: Limits, cur: Link, es: seq<Event>) returns (now: Link)
    requires Coalesced(s, a, k, d, cur) && Run(s, es).Some? && forall i :: 0 <= i < |es| ==> Demand(es[i], a)
    ensures Coalesced(Run(s, es).value, a, k + Arrived(es), d, now)
    decreases es
  {
    hide Coalesced, Step, Enabled, Demand;
    now := cur;
    if es == [] {
    } else {
      var mid := StepCoalesces(s, a, k, d, cur, es[0]);
      now := RunCoalesces(Step(s, es[0]), a, k + Ind(es[0].Acquire?), d, mid, es[1..]);
    }
  }

  /** x = n full rows of c minus what is missing in the last. */
  lemma CeilOfRows(n: nat, c: nat, last: nat)
    requires n >= 1 && 1 <= last <= c
    ensures CeilDiv((n - 1) * c + last, c) == n
  {
    assert (n - 1) * c + c == n * c && n * c + c == (n + 1) * c;
    DivIs((n - 1) * c + last + c - 1, c, n);
  }

  lemma CeilAtLeast(k: nat, c: nat, m: nat)
    requires c >= 1 && k > m * c
    ensures CeilDiv(k, c) >= m
  {
    var d := CeilDiv(k, c);
    assert (d + 1) * c == c * ((k + c - 1) / c) + c;
    if d < m {
      MulMono(d + 1, m, c);
    }
  }

  /** What the run invariant says in numbers. */
  lemma ServedNumbers(s: State, a: Addr, k: nat, d: Limits, cur: Link)
    requires Packed(s, cur) && Served(s, a, k, d, cur) && s.maxStreams >= 1
    ensures var c, m := s.maxStreams, s.pool.cap.limit;
            |s.entries| == Min(m, CeilDiv(k, c)) && s.streamsActive == Min(k, m * c)
  {
    var c, m, n := s.maxStreams, s.pool.cap.limit, |s.entries|;
    if s.entries != map[] {
      assert n >= 1 by { assert cur in s.entries.Keys; }
      CeilOfRows(n, c, Counted(s, cur));
      assert (n - 1) * c + c == n * c;
    }
    MulMono(n, m, c);
    if k > s.streamsActive {
      assert s.streamsActive == m * c;
      CeilAtLeast(k, c, m);
    } else if s.entries == map[] {
      DivIs(c - 1, c, 0);
    }
  }

  lemma InitCoalesced(c: nat, m: nat, maxPending: nat, a: Addr)
    requires c >= 1
    ensures Coalesced(Init(c, B.AtMost(m), maxPending), a, 0, Limits(c, m, maxPending), 0)
  {
    hide Inv;
    ReachableInv(c, B.AtMost(m), maxPending, []);
  }

  /** From an empty pool with M permits used by no one else, K concurrent calls for one address, in
      any interleaving with the completion of their dials, open exactly min(M, ceil(K/C)) connections
      and admit min(K, M*C) streams; of the rest min(maxPending, rest) wait and the others overflow. */
  lemma CoalescingTheorem(c: nat, m: nat, maxPending: nat, a: Addr, es: seq<Event>)
    requires c >= 1 && Run(Init(c, B.AtMost(m), maxPending), es).Some?
    requires forall i :: 0 <= i < |es| ==> Demand(es[i], a)
    ensures var s, k := Run(Init(c, B.AtMost(m), maxPending), es).value, Arrived(es);
            && |s.entries| == Min(m, CeilDiv(k, c))
            && s.streamsActive == Min(k, m * c)
            && |At(s.h2Waiters, a)| == Min(maxPending, k - s.streamsActive)
            && s.pool.pendingOverflow == k - s.streamsActive - |At(s.h2Waiters, a)|
  {
    hide Inv, Lanes, Packed, Run, Demand;
    InitCoalesced(c, m, maxPending, a);
    var cur := RunCoalesces(Init(c, B.AtMost(m), maxPending), a, 0, Limits(c, m, maxPending), 0, es);
    ServedNumbers(Run(Init(c, B.AtMost(m), maxPending), es).value, a, Arrived(es), Limits(c, m, maxPending), cur);
  }
}
