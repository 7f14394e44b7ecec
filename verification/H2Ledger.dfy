/** Who holds what: the ledgers behind the three conservation laws, and how each elementary update
    moves them. */
module H2Ledger {
  import opened Options
  import opened Seqs
  import opened H2Machine
  import B = ConnBudget

  predicate HoldsPermit(p: Phase) {
    p.Dialing? || p == Sent(DialGrant) || p.H1Sent? || p.H1Dialing?
  }

  predicate HoldsPick(p: Phase) {
    p.Picked? || p.Hit? || p.Attaching? || p.Dialing? || p.DialRefused? || p.Queued? || p.Sent?
    || p.Orphaned? || p.Exiting? || p.H1Picked? || p.H1Hit? || p.H1Queued? || p.H1Sent? || p.H1Dialing?
  }

  /** The link a stream slot sits on. */
  function SlotLink(p: Phase): Option<Link> {
    match p
    case Hit(l) => Some(l)
    case Riding(l) => Some(l)
    case Attaching(l) => Some(l)
    case Attached(l) => Some(l)
    case Dialing(l) => Some(l)
    case DialRefused(l) => Some(l)
    case Dialed(l) => Some(l)
    case DialFailed(l) => Some(l)
    case Sent(StreamGrant(l)) => Some(l)
    case Orphaned(l) => Some(l)
    case _ => None
  }

  predicate Lost(entries: map<Link, Entry>, l: Link) {
    l in entries && entries[l].status.Failed?
  }

  /** A slot promised by a dial that failed was given back by the failing initiator. */
  predicate HoldsSlot(entries: map<Link, Entry>, p: Phase, l: Link) {
    SlotLink(p) == Some(l) && !Lost(entries, l)
  }

  predicate HoldsStream(entries: map<Link, Entry>, p: Phase) {
    SlotLink(p).Some? && !Lost(entries, SlotLink(p).value)
  }

  function PermitReqs(reqs: map<ReqId, Req>): set<ReqId> {
    set r | r in reqs && HoldsPermit(reqs[r].phase)
  }

  function PickReqs(reqs: map<ReqId, Req>, h: Host): set<ReqId> {
    set r | r in reqs && HoldsPick(reqs[r].phase) && reqs[r].host == h
  }

  function SlotReqs(reqs: map<ReqId, Req>, entries: map<Link, Entry>, l: Link): set<ReqId> {
    set r | r in reqs && HoldsSlot(entries, reqs[r].phase, l)
  }

  function StreamReqs(reqs: map<ReqId, Req>, entries: map<Link, Entry>): set<ReqId> {
    set r | r in reqs && HoldsStream(entries, reqs[r].phase)
  }

  function QueuedReqs(reqs: map<ReqId, Req>): set<ReqId> {
    set r | r in reqs && reqs[r].phase.Queued?
  }

  function OpenConns(conns: map<Link, Conn>): set<Link> {
    set l | l in conns && !conns[l].released
  }

  function OpenOn(conns: map<Link, Conn>, h: Host): set<Link> {
    set l | l in conns && !conns[l].released && conns[l].host == h
  }

  function Ind(b: bool): int { if b then 1 else 0 }

  // ---------------------------------------------------------------------------
  // Elementary updates
  // ---------------------------------------------------------------------------

  /** Two sets that differ at most in x. */
  lemma Moved<T>(before: set<T>, after: set<T>, x: T)
    requires forall y :: y != x ==> (y in after <==> y in before)
    ensures |after| == |before| - Ind(x in before) + Ind(x in after)
  {
    if x in after {
      assert after - {x} == before - {x};
    } else {
      assert after == before - {x};
    }
  }

  lemma Lessened<T>(before: set<T>, after: set<T>, gone: set<T>)
    requires gone <= before
    requires forall y :: y in after <==> y in before && y !in gone
    ensures |after| == |before| - |gone|
  {
    assert after == before - gone;
  }

  lemma PermitMove(reqs: map<ReqId, Req>, r: ReqId, q: Req)
    ensures |PermitReqs(reqs[r := q])|
            == |PermitReqs(reqs)| - Ind(r in PermitReqs(reqs)) + Ind(HoldsPermit(q.phase))
  {
    Moved(PermitReqs(reqs), PermitReqs(reqs[r := q]), r);
  }

  lemma PickMove(reqs: map<ReqId, Req>, r: ReqId, q: Req, h: Host)
    ensures |PickReqs(reqs[r := q], h)|
            == |PickReqs(reqs, h)| - Ind(r in PickReqs(reqs, h)) + Ind(HoldsPick(q.phase) && q.host == h)
  {
    Moved(PickReqs(reqs, h), PickReqs(reqs[r := q], h), r);
  }

  lemma SlotMove(reqs: map<ReqId, Req>, entries: map<Link, Entry>, r: ReqId, q: Req, l: Link)
    ensures |SlotReqs(reqs[r := q], entries, l)|
            == |SlotReqs(reqs, entries, l)| - Ind(r in SlotReqs(reqs, entries, l)) + Ind(HoldsSlot(entries, q.phase, l))
  {
    Moved(SlotReqs(reqs, entries, l), SlotReqs(reqs[r := q], entries, l), r);
  }

  lemma StreamMove(reqs: map<ReqId, Req>, entries: map<Link, Entry>, r: ReqId, q: Req)
    ensures |StreamReqs(reqs[r := q], entries)|
            == |StreamReqs(reqs, entries)| - Ind(r in StreamReqs(reqs, entries)) + Ind(HoldsStream(entries, q.phase))
  {
    Moved(StreamReqs(reqs, entries), StreamReqs(reqs[r := q], entries), r);
  }

  lemma QueuedMove(reqs: map<ReqId, Req>, r: ReqId, q: Req)
    ensures |QueuedReqs(reqs[r := q])|
            == |QueuedReqs(reqs)| - Ind(r in QueuedReqs(reqs)) + Ind(q.phase.Queued?)
  {
    Moved(QueuedReqs(reqs), QueuedReqs(reqs[r := q]), r);
  }

  lemma OpenMove(conns: map<Link, Conn>, l: Link, c: Conn)
    ensures |OpenConns(conns[l := c])|
            == |OpenConns(conns)| - Ind(l in OpenConns(conns)) + Ind(!c.released)
  {
    Moved(OpenConns(conns), OpenConns(conns[l := c]), l);
  }

  lemma OpenOnMove(conns: map<Link, Conn>, l: Link, c: Conn, h: Host)
    ensures |OpenOn(conns[l := c], h)|
            == |OpenOn(conns, h)| - Ind(l in OpenOn(conns, h)) + Ind(!c.released && c.host == h)
  {
    Moved(OpenOn(conns, h), OpenOn(conns[l := c], h), l);
  }

  /** Changing an entry without failing it moves no slot. */
  lemma EntryMove(reqs: map<ReqId, Req>, entries: map<Link, Entry>, l: Link, e: Entry)
    requires !Lost(entries, l) && !e.status.Failed?
    ensures StreamReqs(reqs, entries[l := e]) == StreamReqs(reqs, entries)
    ensures forall k :: SlotReqs(reqs, entries[l := e], k) == SlotReqs(reqs, entries, k)
  {
  }

  /** Failing an entry takes away exactly the slots it had promised. */
  lemma EntryFails(reqs: map<ReqId, Req>, entries: map<Link, Entry>, l: Link, e: Entry)
    requires !Lost(entries, l) && e.status.Failed?
    ensures |StreamReqs(reqs, entries[l := e])| == |StreamReqs(reqs, entries)| - |SlotReqs(reqs, entries, l)|
    ensures SlotReqs(reqs, entries[l := e], l) == {}
    ensures forall k :: k != l ==> SlotReqs(reqs, entries[l := e], k) == SlotReqs(reqs, entries, k)
  {
    Lessened(StreamReqs(reqs, entries), StreamReqs(reqs, entries[l := e]), SlotReqs(reqs, entries, l));
  }

  // ---------------------------------------------------------------------------
  // Debts: a counter minus the holders it stands for
  // ---------------------------------------------------------------------------

  function PermitDebt(s: State): int {
    s.pool.active - |PermitReqs(s.reqs)| - |OpenConns(s.conns)|
  }

  function StreamDebt(s: State): int {
    s.streamsActive - |StreamReqs(s.reqs, s.entries)|
  }

  function PickDebt(s: State, h: Host): int {
    Load(s.lbActive, h) - |PickReqs(s.reqs, h)| - |OpenOn(s.conns, h)|
  }

  function Counted(s: State, l: Link): int {
    if l in s.entries && s.entries[l].status.Connecting? then s.entries[l].promised
    else if l in s.conns then s.conns[l].inFlight
    else 0
  }

  function SlotDebt(s: State, l: Link): int {
    Counted(s, l) - |SlotReqs(s.reqs, s.entries, l)|
  }

  function CxDebt(s: State): int {
    s.cxActive - |OpenConns(s.conns)|
  }

  function PendDebt(s: State): int {
    s.pool.pendingActive - |s.pool.waiters| - |QueuedReqs(s.reqs)|
  }

  ghost predicate SameDebts(s: State, t: State) {
    && PermitDebt(t) == PermitDebt(s)
    && StreamDebt(t) == StreamDebt(s)
    && CxDebt(t) == CxDebt(s)
    && PendDebt(t) == PendDebt(s)
    && (forall h :: PickDebt(t, h) == PickDebt(s, h))
    && (forall l :: SlotDebt(t, l) == SlotDebt(s, l))
  }

  lemma PhaseDebts(s: State, r: ReqId, p: Phase)
    requires r in s.reqs
    ensures var t, p0 := SetPhase(s, r, p), s.reqs[r].phase;
            && PermitDebt(t) == PermitDebt(s) + Ind(HoldsPermit(p0)) - Ind(HoldsPermit(p))
            && StreamDebt(t) == StreamDebt(s) + Ind(HoldsStream(s.entries, p0)) - Ind(HoldsStream(s.entries, p))
            && CxDebt(t) == CxDebt(s)
            && PendDebt(t) == PendDebt(s) + Ind(p0.Queued?) - Ind(p.Queued?)
  {
    var q := s.reqs[r].(phase := p);
    PermitMove(s.reqs, r, q);
    StreamMove(s.reqs, s.entries, r, q);
    QueuedMove(s.reqs, r, q);
  }

  lemma PhasePickDebts(s: State, r: ReqId, p: Phase)
    requires r in s.reqs
    ensures var t, p0 := SetPhase(s, r, p), s.reqs[r].phase;
            forall h :: PickDebt(t, h)
              == PickDebt(s, h) + if h == s.reqs[r].host then Ind(HoldsPick(p0)) - Ind(HoldsPick(p)) else 0
  {
    var q := s.reqs[r].(phase := p);
    forall h ensures PickDebt(SetPhase(s, r, p), h)
              == PickDebt(s, h) + if h == s.reqs[r].host then Ind(HoldsPick(s.reqs[r].phase)) - Ind(HoldsPick(p)) else 0
    {
      PickMove(s.reqs, r, q, h);
    }
  }

  lemma PhaseSlotDebts(s: State, r: ReqId, p: Phase)
    requires r in s.reqs
    ensures var t, p0 := SetPhase(s, r, p), s.reqs[r].phase;
            forall l :: SlotDebt(t, l)
              == SlotDebt(s, l) + Ind(HoldsSlot(s.entries, p0, l)) - Ind(HoldsSlot(s.entries, p, l))
  {
    var q := s.reqs[r].(phase := p);
    forall l ensures SlotDebt(SetPhase(s, r, p), l)
              == SlotDebt(s, l) + Ind(HoldsSlot(s.entries, s.reqs[r].phase, l)) - Ind(HoldsSlot(s.entries, p, l))
    {
      SlotMove(s.reqs, s.entries, r, q, l);
    }
  }

  /** Every queued HTTP/1.1 waiter is a call that waits for a permit. */
  ghost predicate H1QueueOk(reqs: map<ReqId, Req>, waiters: seq<ReqId>) {
    && NoDup(waiters)
    && (forall w :: w in waiters ==> w in reqs && reqs[w].phase.H1Queued?)
  }

  /** releaseConn frees one permit: it leaves the budget or lands in a waiter's channel. */
  lemma GivePermitDebts(s: State)
    requires H1QueueOk(s.reqs, s.pool.waiters)
    ensures var t := GivePermit(s);
            && PermitDebt(t) == PermitDebt(s) - 1
            && StreamDebt(t) == StreamDebt(s)
            && CxDebt(t) == CxDebt(s)
            && PendDebt(t) == PendDebt(s)
            && (forall h :: PickDebt(t, h) == PickDebt(s, h))
            && (forall l :: SlotDebt(t, l) == SlotDebt(s, l))
  {
    var (p, next) := B.Release(s.pool);
    var u := s.(pool := p);
    assert forall l :: SlotDebt(u, l) == SlotDebt(s, l);
    if next.Some? {
      PhaseDebts(u, next.value, H1Sent);
      PhasePickDebts(u, next.value, H1Sent);
      PhaseSlotDebts(u, next.value, H1Sent);
    }
  }

  lemma GivePermitOthers(s: State, r: ReqId)
    requires H1QueueOk(s.reqs, s.pool.waiters) && r in s.reqs && !s.reqs[r].phase.H1Queued?
    ensures r in GivePermit(s).reqs && GivePermit(s).reqs[r] == s.reqs[r]
  {
    if s.pool.waiters != [] {
      assert s.pool.waiters[0] in s.pool.waiters;
    }
  }

  lemma CloseCounts(s: State, l: Link)
    ensures forall k :: Counted(CloseConn(s, l), k) == Counted(s, k)
  {
  }

  lemma LoadDebts(s: State, h: Host, d: int)
    ensures var t := AddLoad(s, h, d);
            && PermitDebt(t) == PermitDebt(s)
            && StreamDebt(t) == StreamDebt(s)
            && CxDebt(t) == CxDebt(s)
            && PendDebt(t) == PendDebt(s)
            && (forall k :: PickDebt(t, k) == PickDebt(s, k) + if k == h then d else 0)
            && (forall l :: SlotDebt(t, l) == SlotDebt(s, l))
  {
  }

  /** Replacing a connection that keeps its stream count. */
  lemma ConnDebts(s: State, l: Link, c: Conn)
    requires l in s.conns && c.inFlight == s.conns[l].inFlight && c.host == s.conns[l].host
    ensures var t := s.(conns := s.conns[l := c]);
            var d := Ind(!s.conns[l].released) - Ind(!c.released);
            && PermitDebt(t) == PermitDebt(s) + d
            && StreamDebt(t) == StreamDebt(s)
            && CxDebt(t) == CxDebt(s) + d
            && PendDebt(t) == PendDebt(s)
            && (forall h :: PickDebt(t, h) == PickDebt(s, h) + if h == c.host then d else 0)
            && (forall k :: SlotDebt(t, k) == SlotDebt(s, k))
  {
    var t := s.(conns := s.conns[l := c]);
    OpenMove(s.conns, l, c);
    forall h ensures PickDebt(t, h) == PickDebt(s, h)
                     + if h == c.host then Ind(!s.conns[l].released) - Ind(!c.released) else 0
    {
      OpenOnMove(s.conns, l, c, h);
    }
  }

  lemma SettleDebts(s: State, l: Link)
    requires l in s.conns && !s.conns[l].released
    ensures var t := Settle(s, l);
            && PermitDebt(t) == PermitDebt(s) + 1
            && StreamDebt(t) == StreamDebt(s)
            && CxDebt(t) == CxDebt(s)
            && PendDebt(t) == PendDebt(s)
            && (forall h :: PickDebt(t, h) == PickDebt(s, h))
            && (forall k :: SlotDebt(t, k) == SlotDebt(s, k))
  {
    var t := Settle(s, l);
    var c := s.conns[l].(closed := true, released := true);
    OpenMove(s.conns, l, c);
    forall h ensures PickDebt(t, h) == PickDebt(s, h) {
      OpenOnMove(s.conns, l, c, h);
    }
  }

  /** Closing a connection, for the first time or again, leaves every account square. */
  lemma CloseDebts(s: State, l: Link)
    requires H1QueueOk(s.reqs, s.pool.waiters)
    ensures SameDebts(s, CloseConn(s, l))
  {
    if l in s.conns {
      if s.conns[l].released {
        ConnDebts(s, l, s.conns[l].(closed := true));
      } else {
        SettleDebts(s, l);
        GivePermitDebts(Settle(s, l));
      }
    }
  }

  /** A stream counted on an established connection. */
  lemma StreamDebts(s: State, l: Link, d: int)
    requires l in s.conns && !(l in s.entries && s.entries[l].status.Connecting?)
    ensures var t := AddStream(s, l, d);
            && PermitDebt(t) == PermitDebt(s)
            && StreamDebt(t) == StreamDebt(s) + d
            && CxDebt(t) == CxDebt(s)
            && PendDebt(t) == PendDebt(s)
            && (forall h :: PickDebt(t, h) == PickDebt(s, h))
            && (forall k :: SlotDebt(t, k) == SlotDebt(s, k) + if k == l then d else 0)
  {
    var c := s.conns[l].(inFlight := s.conns[l].inFlight + d);
    var t := AddStream(s, l, d);
    OpenMove(s.conns, l, c);
    forall h ensures PickDebt(t, h) == PickDebt(s, h) {
      OpenOnMove(s.conns, l, c, h);
    }
  }

  /** A stream counted on a connecting entry. */
  lemma PromiseDebts(s: State, l: Link, d: int)
    requires l in s.entries && s.entries[l].status.Connecting?
    ensures var t := AddPromise(s, l, d);
            && PermitDebt(t) == PermitDebt(s)
            && StreamDebt(t) == StreamDebt(s) + d
            && CxDebt(t) == CxDebt(s)
            && PendDebt(t) == PendDebt(s)
            && (forall h :: PickDebt(t, h) == PickDebt(s, h))
            && (forall k :: SlotDebt(t, k) == SlotDebt(s, k) + if k == l then d else 0)
  {
    EntryMove(s.reqs, s.entries, l, s.entries[l].(promised := s.entries[l].promised + d));
  }
}
