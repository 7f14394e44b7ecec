/** The invariant of the upstream machine: the shape of its queues and objects, and the
    conservation of permits, stream slots and load-balancer picks. */
module H2Invariant {
  import opened Options
  import opened Seqs
  import opened H2Machine
  import opened H2Ledger
  import B = ConnBudget

  // ---------------------------------------------------------------------------
  // Shape
  // ---------------------------------------------------------------------------

  predicate OnEntry(es: map<Link, Entry>, a: Addr, l: Link) {
    l in es && es[l].addr == a
  }

  predicate OnReady(es: map<Link, Entry>, a: Addr, l: Link) {
    l in es && es[l].addr == a && es[l].status.Ready?
  }

  predicate OnConnecting(es: map<Link, Entry>, a: Addr, l: Link) {
    l in es && es[l].addr == a && es[l].status.Connecting?
  }

  /** The entry a call refers to, and r as the one call dialing it. */
  predicate LinkOk(es: map<Link, Entry>, r: ReqId, q: Req) {
    match q.phase
    case Hit(l) => OnReady(es, q.addr, l)
    case Riding(l) => OnReady(es, q.addr, l)
    case Releasing(l) => OnReady(es, q.addr, l)
    case Sent(g) => g.StreamGrant? ==> OnReady(es, q.addr, g.link)
    case Orphaned(l) => OnReady(es, q.addr, l)
    case Attaching(l) => OnEntry(es, q.addr, l)
    case Attached(l) => OnEntry(es, q.addr, l)
    case Dialing(l) => OnConnecting(es, q.addr, l) && es[l].initiator == r
    case DialRefused(l) => OnConnecting(es, q.addr, l) && es[l].initiator == r
    case Dialed(l) => OnConnecting(es, q.addr, l) && es[l].initiator == r
    case DialFailed(l) => OnConnecting(es, q.addr, l) && es[l].initiator == r
    case H1Hit(l) => l !in es
    case H1Holding(l) => l !in es
    case _ => true
  }

  /** The connection a call refers to. */
  predicate ConnOk(cs: map<Link, Conn>, q: Req) {
    match q.phase
    case Dialing(l) => l !in cs
    case DialRefused(l) => l !in cs
    case Dialed(l) => l in cs && !cs[l].released
    case H1Hit(l) => l in cs
    case H1Holding(l) => l in cs
    case _ => true
  }

  ghost predicate LinksOk(es: map<Link, Entry>, reqs: map<ReqId, Req>) {
    forall r :: r in reqs ==> LinkOk(es, r, reqs[r])
  }

  ghost predicate ConnRefsOk(cs: map<Link, Conn>, reqs: map<ReqId, Req>) {
    forall r :: r in reqs ==> ConnOk(cs, reqs[r])
  }

  ghost predicate OrphansOk(pool: map<Addr, seq<Link>>, reqs: map<ReqId, Req>) {
    forall r :: r in reqs && reqs[r].phase.Orphaned? ==> reqs[r].phase.link !in At(pool, reqs[r].addr)
  }

  ghost predicate PoolOk(es: map<Link, Entry>, pool: map<Addr, seq<Link>>) {
    && (forall a, l :: l in At(pool, a) ==> OnReady(es, a, l))
    && (forall a :: NoDup(At(pool, a)))
  }

  ghost predicate ConnectingOk(es: map<Link, Entry>, connecting: map<Addr, seq<Link>>) {
    && (forall a, l :: l in At(connecting, a) ==> OnConnecting(es, a, l))
    && (forall a :: NoDup(At(connecting, a)))
  }

  ghost predicate WaitersOk(reqs: map<ReqId, Req>, waiters: map<Addr, seq<ReqId>>) {
    && (forall a, w :: w in At(waiters, a) ==> w in reqs && reqs[w].phase.Queued? && reqs[w].addr == a)
    && (forall a :: NoDup(At(waiters, a)))
  }

  /** A waiting call is in its queue, so a grant can reach it. */
  ghost predicate QueuedOk(reqs: map<ReqId, Req>, waiters: map<Addr, seq<ReqId>>) {
    forall r :: r in reqs && reqs[r].phase.Queued? ==> r in At(waiters, reqs[r].addr)
  }

  ghost predicate H1QueuedOk(reqs: map<ReqId, Req>, waiters: seq<ReqId>) {
    forall r :: r in reqs && reqs[r].phase.H1Queued? ==> r in waiters
  }

  ghost predicate ConnsOk(es: map<Link, Entry>, cs: map<Link, Conn>) {
    && (forall l :: l in es && es[l].status.Ready? ==> l in cs)
    && (forall l :: l in cs && cs[l].released ==> cs[l].closed)
  }

  ghost predicate IdleOk(es: map<Link, Entry>, cs: map<Link, Conn>, idle: map<Addr, seq<Link>>) {
    forall a, l :: l in At(idle, a) ==> l in cs && l !in es
  }

  ghost predicate Shape(s: State) {
    && LinksOk(s.entries, s.reqs)
    && ConnRefsOk(s.conns, s.reqs)
    && OrphansOk(s.h2Pool, s.reqs)
    && PoolOk(s.entries, s.h2Pool)
    && ConnectingOk(s.entries, s.h2Connecting)
    && WaitersOk(s.reqs, s.h2Waiters)
    && QueuedOk(s.reqs, s.h2Waiters)
    && H1QueueOk(s.reqs, s.pool.waiters)
    && H1QueuedOk(s.reqs, s.pool.waiters)
    && ConnsOk(s.entries, s.conns)
    && IdleOk(s.entries, s.conns, s.h1Pool)
    && s.maxStreams >= 1
  }

  /** One call changes; what the others refer to is untouched. */
  lemma ReqRefs(s: State, r: ReqId, q: Req)
    requires LinksOk(s.entries, s.reqs) && ConnRefsOk(s.conns, s.reqs) && OrphansOk(s.h2Pool, s.reqs)
    requires LinkOk(s.entries, r, q) && ConnOk(s.conns, q)
    requires q.phase.Orphaned? ==> q.phase.link !in At(s.h2Pool, q.addr)
    ensures LinksOk(s.entries, s.reqs[r := q]) && ConnRefsOk(s.conns, s.reqs[r := q])
    ensures OrphansOk(s.h2Pool, s.reqs[r := q])
  {
  }

  /** A call that is in neither queue before and after the change. */
  lemma ReqQueues(s: State, r: ReqId, q: Req)
    requires WaitersOk(s.reqs, s.h2Waiters) && QueuedOk(s.reqs, s.h2Waiters)
    requires H1QueueOk(s.reqs, s.pool.waiters) && H1QueuedOk(s.reqs, s.pool.waiters)
    requires r in s.reqs ==> !s.reqs[r].phase.Queued? && !s.reqs[r].phase.H1Queued?
    requires !q.phase.Queued? && !q.phase.H1Queued?
    ensures WaitersOk(s.reqs[r := q], s.h2Waiters) && QueuedOk(s.reqs[r := q], s.h2Waiters)
    ensures H1QueueOk(s.reqs[r := q], s.pool.waiters) && H1QueuedOk(s.reqs[r := q], s.pool.waiters)
  {
  }

  lemma PhaseShape(s: State, r: ReqId, p: Phase)
    requires Shape(s) && r in s.reqs
    requires var p0 := s.reqs[r].phase; !p0.Queued? && !p0.H1Queued? && !p.Queued? && !p.H1Queued?
    requires var q := s.reqs[r].(phase := p);
             LinkOk(s.entries, r, q) && ConnOk(s.conns, q)
             && (p.Orphaned? ==> p.link !in At(s.h2Pool, q.addr))
    ensures Shape(SetPhase(s, r, p))
  {
    var q := s.reqs[r].(phase := p);
    ReqRefs(s, r, q);
    ReqQueues(s, r, q);
  }

  lemma H1HandOff(reqs: map<ReqId, Req>, waiters: seq<ReqId>, q: Req)
    requires H1QueueOk(reqs, waiters) && H1QueuedOk(reqs, waiters) && waiters != []
    requires !q.phase.H1Queued?
    ensures H1QueueOk(reqs[waiters[0] := q], waiters[1..]) && H1QueuedOk(reqs[waiters[0] := q], waiters[1..])
  {
  }

  lemma GivePermitShape(s: State)
    requires Shape(s)
    ensures Shape(GivePermit(s))
  {
    if s.pool.waiters != [] {
      var w := s.pool.waiters[0];
      var q := s.reqs[w].(phase := H1Sent);
      ReqRefs(s, w, q);
      H1HandOff(s.reqs, s.pool.waiters, q);
      assert WaitersOk(s.reqs[w := q], s.h2Waiters);
      assert QueuedOk(s.reqs[w := q], s.h2Waiters);
    }
  }

  // ---------------------------------------------------------------------------
  // Accounts
  // ---------------------------------------------------------------------------

  ghost predicate Balanced(s: State) {
    && PermitDebt(s) == 0
    && StreamDebt(s) == 0
    && CxDebt(s) == 0
    && PendDebt(s) == 0
    && (forall h :: PickDebt(s, h) == 0)
  }

  predicate Capped(p: B.Pool) {
    p.cap.AtMost? ==> p.active <= p.cap.limit
  }

  /** A connecting entry and a pooled connection count exactly their slot holders and never more
      than C; an evicted connection may count waiters that will find it gone, never fewer. */
  ghost predicate SlotOk(s: State, l: Link)
    requires l in s.entries
  {
    && (s.entries[l].status.Connecting? ==> SlotDebt(s, l) == 0 && s.entries[l].promised <= s.maxStreams)
    && (s.entries[l].status.Ready? ==>
          && SlotDebt(s, l) >= 0
          && (l in At(s.h2Pool, s.entries[l].addr) ==> SlotDebt(s, l) == 0 && Counted(s, l) <= s.maxStreams))
  }

  ghost predicate Slots(s: State) {
    forall l :: l in s.entries ==> SlotOk(s, l)
  }

  ghost predicate Accounts(s: State) {
    Balanced(s) && Capped(s.pool) && Slots(s)
  }

  ghost predicate Inv(s: State) {
    Shape(s) && Accounts(s)
  }

  /** Nothing that slots depend on changed, except that a connection may have left the pool. */
  lemma SlotsFrom(s: State, t: State)
    requires Slots(s) && t.entries == s.entries && t.maxStreams == s.maxStreams
    requires forall l :: SlotDebt(t, l) == SlotDebt(s, l)
    requires forall l :: Counted(t, l) == Counted(s, l)
    requires forall a, l :: l in At(t.h2Pool, a) ==> l in At(s.h2Pool, a)
    ensures Slots(t)
  {
    forall l | l in t.entries ensures SlotOk(t, l) {
      assert SlotOk(s, l);
    }
  }

  /** The accounts of s are off by exactly what the coming phase change of r settles. */
  ghost predicate Off(s: State, r: ReqId, p: Phase)
    requires r in s.reqs
  {
    var p0 := s.reqs[r].phase;
    && PermitDebt(s) == Ind(HoldsPermit(p)) - Ind(HoldsPermit(p0))
    && StreamDebt(s) == Ind(HoldsStream(s.entries, p)) - Ind(HoldsStream(s.entries, p0))
    && CxDebt(s) == 0
    && PendDebt(s) == Ind(p.Queued?) - Ind(p0.Queued?)
    && (forall h :: PickDebt(s, h) == if h == s.reqs[r].host then Ind(HoldsPick(p)) - Ind(HoldsPick(p0)) else 0)
  }

  ghost predicate SlotOff(s: State, l: Link, d: int)
    requires l in s.entries
  {
    && (s.entries[l].status.Connecting? ==> SlotDebt(s, l) == d && s.entries[l].promised <= s.maxStreams)
    && (s.entries[l].status.Ready? ==>
          && SlotDebt(s, l) >= d
          && (l in At(s.h2Pool, s.entries[l].addr) ==> SlotDebt(s, l) == d && Counted(s, l) <= s.maxStreams))
  }

  ghost predicate SlotsOff(s: State, r: ReqId, p: Phase)
    requires r in s.reqs
  {
    forall l :: l in s.entries ==>
      SlotOff(s, l, Ind(HoldsSlot(s.entries, p, l)) - Ind(HoldsSlot(s.entries, s.reqs[r].phase, l)))
  }

  lemma Rebalance(s: State, r: ReqId, p: Phase)
    requires r in s.reqs && Off(s, r, p) && Capped(s.pool) && SlotsOff(s, r, p)
    ensures Accounts(SetPhase(s, r, p))
  {
    PhaseDebts(s, r, p);
    PhasePickDebts(s, r, p);
    PhaseSlotDebts(s, r, p);
    var t := SetPhase(s, r, p);
    forall l | l in t.entries ensures SlotOk(t, l) {
      assert SlotOff(s, l, Ind(HoldsSlot(s.entries, p, l)) - Ind(HoldsSlot(s.entries, s.reqs[r].phase, l)));
      assert Counted(t, l) == Counted(s, l);
    }
  }

  /** A phase change that moves no permit, no pick and no slot. */
  predicate Quiet(es: map<Link, Entry>, p0: Phase, p: Phase) {
    && p0.Queued? == p.Queued?
    && HoldsPermit(p0) == HoldsPermit(p) && HoldsPick(p0) == HoldsPick(p)
    && (SlotLink(p0) == SlotLink(p) || (!HoldsStream(es, p0) && !HoldsStream(es, p)))
  }

  lemma QuietPhase(s: State, r: ReqId, p: Phase)
    requires Accounts(s) && r in s.reqs && Quiet(s.entries, s.reqs[r].phase, p)
    ensures Accounts(SetPhase(s, r, p))
  {
    forall l | l in s.entries
      ensures SlotOff(s, l, Ind(HoldsSlot(s.entries, p, l)) - Ind(HoldsSlot(s.entries, s.reqs[r].phase, l)))
    {
      assert SlotOk(s, l);
    }
    Rebalance(s, r, p);
  }
}
