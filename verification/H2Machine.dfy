/** The upstream side of a cluster as a machine of atomic steps: the multiplexed HTTP/2 pool
    (internal/cluster/h2pool.go), the dial paths (dial_h2.go, cluster.go) and the HTTP/1.1 pool,
    all drawing permits from one connection budget and picks from one load balancer.

    A step is one critical section, one channel operation or one counter update. Each call of
    h2PromoteLocked is a step of its own, recorded in `owed` by the step that makes it, because
    other goroutines may take or return permits between a release of a permit and the promotion
    that follows it. Counters are plain integers updated without guards, so that they would go
    negative or drift if the code released anything twice or not at all. */
module H2Machine {
  import opened Options
  import opened Seqs
  import B = ConnBudget

  type Addr = string
  type Host = nat      // index of the endpoint in the load balancer
  type ReqId = nat     // one Dial, AcquireH1 or AcquireH2Stream call
  type Link = nat      // a connecting entry and the connection it becomes share one name

  datatype Grant = StreamGrant(link: Link) | DialGrant

  /** Where a call stands. */
  datatype Phase =
    | Picked                 // endpoint picked, nothing else done
    | Hit(link: Link)        // stream slot reserved, own pick still to be released
    | Riding(link: Link)     // the caller holds the stream and its release closure
    | Attaching(link: Link)  // promised slot reserved, own pick still to be released
    | Attached(link: Link)   // waiting on the entry's ready channel
    | Dialing(link: Link)    // initiator: permit held, dialing outside the lock
    | DialRefused(link: Link)  // dialPicked failed and returned the permit, pick still held
    | Dialed(link: Link)     // the wrapped connection exists; TLS, ALPN and preface are ahead
    | DialFailed(link: Link) // the entry is still registered and has to be failed
    | Queued                 // in the stream-aware wait queue
    | Sent(grant: Grant)     // dequeued, the grant is on the waiter's channel
    | Orphaned(link: Link)   // the granted connection was evicted before use
    | Releasing(link: Link)  // slot given back, eviction check ahead
    | Exiting                // leaving with no stream, own pick still to be released
    | Done
    | H1Picked
    | H1Hit(link: Link)      // idle connection popped, own pick still to be released
    | H1Queued
    | H1Sent                 // a permit is on the waiter's channel
    | H1Dialing
    | H1Holding(link: Link)

  datatype Req = Req(host: Host, addr: Addr, phase: Phase)

  datatype Status = Connecting | Ready | Failed

  datatype Entry = Entry(addr: Addr, initiator: ReqId, promised: int, status: Status)

  /** closed is cc.Closed(), goneAway is cc.GoneAway(); released says that the once-guarded
      closure of the gauge wrapper has run. Only a Close sets released; the peer can set the rest. */
  datatype Conn = Conn(addr: Addr, host: Host, inFlight: int, closed: bool, goneAway: bool, released: bool)

  datatype State = State(
    maxStreams: nat,
    pool: B.Pool,
    reqs: map<ReqId, Req>,
    entries: map<Link, Entry>,
    conns: map<Link, Conn>,
    h2Pool: map<Addr, seq<Link>>,
    h2Connecting: map<Addr, seq<Link>>,
    h2Waiters: map<Addr, seq<ReqId>>,
    h1Pool: map<Addr, seq<Link>>,
    owed: multiset<Addr>,
    streamsActive: int,
    cxActive: int,
    lbActive: map<Host, int>)

  const H1_POOL_MAX_PER_ENDPOINT: nat := 1024

  function Init(maxStreams: nat, cap: B.Cap, maxPending: nat): State {
    State(maxStreams, B.Init(cap, maxPending), map[], map[], map[], map[], map[], map[], map[],
          multiset{}, 0, 0, map[])
  }

  function At<T>(m: map<Addr, seq<T>>, a: Addr): seq<T> {
    if a in m then m[a] else []
  }

  function Load(m: map<Host, int>, h: Host): int {
    if h in m then m[h] else 0
  }

  // ---------------------------------------------------------------------------
  // Building blocks
  // ---------------------------------------------------------------------------

  /** The settings of the cluster: C, the connection budget and the length of the queue. */
  predicate SameLimits(s: State, t: State) {
    t.maxStreams == s.maxStreams && t.pool.cap == s.pool.cap && t.pool.maxPending == s.pool.maxPending
  }

  function SetPhase(s: State, r: ReqId, p: Phase): (t: State)
    ensures SameLimits(s, t)
  {
    if r in s.reqs then s.(reqs := s.reqs[r := s.reqs[r].(phase := p)]) else s
  }

  function AddLoad(s: State, h: Host, d: int): (t: State)
    ensures SameLimits(s, t)
  {
    s.(lbActive := s.lbActive[h := Load(s.lbActive, h) + d])
  }

  function AddStream(s: State, l: Link, d: int): (t: State)
    ensures SameLimits(s, t)
  {
    var t := s.(streamsActive := s.streamsActive + d);
    if l in s.conns then t.(conns := s.conns[l := s.conns[l].(inFlight := s.conns[l].inFlight + d)]) else t
  }

  function AddPromise(s: State, l: Link, d: int): (t: State)
    ensures SameLimits(s, t)
  {
    var t := s.(streamsActive := s.streamsActive + d);
    if l in s.entries then
      t.(entries := s.entries[l := s.entries[l].(promised := s.entries[l].promised + d)])
    else t
  }

  function Owe(s: State, a: Addr): (t: State)
    ensures SameLimits(s, t)
  {
    s.(owed := s.owed + multiset{a})
  }

  /** pool.releaseConn: the permit goes to the head HTTP/1.1 waiter if there is one. */
  function GivePermit(s: State): (t: State)
    ensures SameLimits(s, t)
    ensures t.entries == s.entries && t.conns == s.conns && t.h2Pool == s.h2Pool && t.pool.active <= s.pool.active
  {
    var (p, next) := B.Release(s.pool);
    var t := s.(pool := p);
    match next
    case None => t
    case Some(w) => SetPhase(t, w, H1Sent)
  }

  /** The first half of connDec: the active gauge and the pick made when the connection was dialed. */
  function Settle(s: State, l: Link): (t: State)
    requires l in s.conns
    ensures SameLimits(s, t)
    ensures t.pool == s.pool && t.entries == s.entries && t.h2Pool == s.h2Pool
    ensures t.conns == s.conns[l := s.conns[l].(closed := true, released := true)]
  {
    var c := s.conns[l];
    AddLoad(s.(conns := s.conns[l := c.(closed := true, released := true)], cxActive := s.cxActive - 1),
            c.host, -1)
  }

  /** connWithGauge.Close: dec runs once, releasing the dial-time pick and the permit. */
  function CloseConn(s: State, l: Link): (t: State)
    ensures SameLimits(s, t)
    ensures t.entries == s.entries && t.h2Pool == s.h2Pool && t.pool.active <= s.pool.active
    ensures t.conns == if l in s.conns then s.conns[l := s.conns[l].(closed := true, released := true)] else s.conns
  {
    if l in s.conns && !s.conns[l].released then GivePermit(Settle(s, l))
    else if l in s.conns then s.(conns := s.conns[l := s.conns[l].(closed := true)])
    else s
  }

  function Evict(s: State, a: Addr, l: Link): (t: State)
    ensures SameLimits(s, t)
  {
    CloseConn(s.(h2Pool := s.h2Pool[a := Without(At(s.h2Pool, a), l)]), l)
  }

  predicate Live(s: State, l: Link) {
    l in s.conns && !s.conns[l].closed && !s.conns[l].goneAway && s.conns[l].inFlight < s.maxStreams
  }

  predicate Spare(s: State, l: Link) {
    l in s.entries && s.entries[l].promised < s.maxStreams
  }

  function FirstLive(s: State, q: seq<Link>): (r: Option<Link>)
    ensures r.Some? ==> r.value in q && Live(s, r.value)
    ensures r.None? ==> forall l :: l in q ==> !Live(s, l)
  {
    if q == [] then None else if Live(s, q[0]) then Some(q[0]) else FirstLive(s, q[1..])
  }

  function FirstSpare(s: State, q: seq<Link>): (r: Option<Link>)
    ensures r.Some? ==> r.value in q && Spare(s, r.value)
    ensures r.None? ==> forall l :: l in q ==> !Spare(s, l)
  {
    if q == [] then None else if Spare(s, q[0]) then Some(q[0]) else FirstSpare(s, q[1..])
  }

  function Dequeue(s: State, a: Addr): (t: State)
    requires At(s.h2Waiters, a) != []
    ensures SameLimits(s, t)
  {
    s.(h2Waiters := s.h2Waiters[a := At(s.h2Waiters, a)[1..]],
       pool := s.pool.(pendingActive := s.pool.pendingActive - 1))
  }

  /** h2PromoteLocked: wake at most one waiter of a, onto a live connection or with a permit. */
  function Promote(s: State, a: Addr): (t: State)
    ensures SameLimits(s, t)
  {
    var q := At(s.h2Waiters, a);
    if q == [] then s
    else
      match FirstLive(s, At(s.h2Pool, a))
      case Some(l) => SetPhase(AddStream(Dequeue(s, a), l, 1), q[0], Sent(StreamGrant(l)))
      case None =>
        var (p, ok) := B.TryAcquire(s.pool);
        var t := s.(pool := p);
        if ok then SetPhase(Dequeue(t, a), q[0], Sent(DialGrant)) else t
  }

  /** Register a connecting entry whose initiator is r, which already holds a permit. */
  function Register(s: State, r: ReqId, l: Link): (t: State)
    requires r in s.reqs
    ensures SameLimits(s, t)
  {
    var a := s.reqs[r].addr;
    SetPhase(s.(entries := s.entries[l := Entry(a, r, 1, Connecting)],
                h2Connecting := s.h2Connecting[a := At(s.h2Connecting, a) + [l]],
                streamsActive := s.streamsActive + 1), r, Dialing(l))
  }

  predicate Pooled(s: State, l: Link) {
    l in s.entries && l in At(s.h2Pool, s.entries[l].addr)
  }

  // ---------------------------------------------------------------------------
  // The steps
  // ---------------------------------------------------------------------------

  datatype Event =
    | Pick(r: ReqId, host: Host, addr: Addr, h2: bool)
    | Acquire(r: ReqId, newLink: Link)
    | FirePick(r: ReqId)
    | DialFails(r: ReqId)
    | DialConnects(r: ReqId)
    | FinalizeFails(r: ReqId)
    | FailEntry(r: ReqId)
    | PoolConn(r: ReqId)
    | AttachReady(r: ReqId)
    | AttachCancel(r: ReqId)
    | AcceptGrant(r: ReqId, newLink: Link)
    | UndoOrphan(r: ReqId)
    | CancelWait(r: ReqId)
    | Release(r: ReqId)
    | ReleaseCheck(r: ReqId)
    | DoPromote(addr: Addr)
    | EvictOnError(addr: Addr, link: Link)
    | DrainWatch(addr: Addr, link: Link)
    | PeerClose(link: Link)
    | PeerGoAway(link: Link)
    | H1PopIdle(r: ReqId)
    | H1Acquire(r: ReqId)
    | H1Accept(r: ReqId)
    | H1Cancel(r: ReqId)
    | H1DialFails(r: ReqId)
    | H1DialConnects(r: ReqId, newLink: Link)
    | H1Close(r: ReqId)
    | H1PutIdle(r: ReqId, sawWaiter: bool)


  predicate Unused(s: State, l: Link) {
    l !in s.entries && l !in s.conns
  }

  predicate Enabled(s: State, e: Event) {
    match e
    case Pick(r, _, _, _) => r !in s.reqs
    case Acquire(r, l) => r in s.reqs && s.reqs[r].phase.Picked? && Unused(s, l)
    case FirePick(r) => r in s.reqs &&
      var p := s.reqs[r].phase; p.Hit? || p.Attaching? || p.Exiting? || p.DialRefused? || p.H1Hit?
    case DialFails(r) => r in s.reqs && s.reqs[r].phase.Dialing?
    case DialConnects(r) => r in s.reqs && s.reqs[r].phase.Dialing?
    case FinalizeFails(r) => r in s.reqs && s.reqs[r].phase.Dialed?
    case FailEntry(r) => r in s.reqs && s.reqs[r].phase.DialFailed? && s.reqs[r].phase.link in s.entries
    case PoolConn(r) => r in s.reqs && s.reqs[r].phase.Dialed?
                        && s.reqs[r].phase.link in s.entries && s.reqs[r].phase.link in s.conns
    case AttachReady(r) => r in s.reqs && s.reqs[r].phase.Attached? && s.reqs[r].phase.link in s.entries
                           && !s.entries[s.reqs[r].phase.link].status.Connecting?
    case AttachCancel(r) => r in s.reqs && s.reqs[r].phase.Attached? && s.reqs[r].phase.link in s.entries
                            && s.entries[s.reqs[r].phase.link].status.Connecting?
    case AcceptGrant(r, l) => r in s.reqs && s.reqs[r].phase.Sent? && Unused(s, l)
    case UndoOrphan(r) => r in s.reqs && s.reqs[r].phase.Orphaned?
    case CancelWait(r) => r in s.reqs && (s.reqs[r].phase.Queued? || s.reqs[r].phase.Sent?)
    case Release(r) => r in s.reqs && s.reqs[r].phase.Riding?
    case ReleaseCheck(r) => r in s.reqs && s.reqs[r].phase.Releasing?
    case DoPromote(a) => a in s.owed
    case EvictOnError(_, _) => true
    case DrainWatch(_, l) => l in s.conns && s.conns[l].goneAway
    case PeerClose(l) => l in s.conns
    case PeerGoAway(l) => l in s.conns
    case H1PopIdle(r) => r in s.reqs && s.reqs[r].phase.H1Picked? && At(s.h1Pool, s.reqs[r].addr) != []
    case H1Acquire(r) => r in s.reqs && s.reqs[r].phase.H1Picked?
    case H1Accept(r) => r in s.reqs && s.reqs[r].phase.H1Sent?
    case H1Cancel(r) => r in s.reqs && (s.reqs[r].phase.H1Queued? || s.reqs[r].phase.H1Sent?)
    case H1DialFails(r) => r in s.reqs && s.reqs[r].phase.H1Dialing?
    case H1DialConnects(r, l) => r in s.reqs && s.reqs[r].phase.H1Dialing? && Unused(s, l)
    case H1Close(r) => r in s.reqs && s.reqs[r].phase.H1Holding?
    case H1PutIdle(r, _) => r in s.reqs && s.reqs[r].phase.H1Holding?
  }

  /** No permit: r waits for a in the stream-aware queue, or is turned away if that is full. */
  function Pended(s: State, r: ReqId, a: Addr): (t: State)
    ensures SameLimits(s, t)
  {
    if |At(s.h2Waiters, a)| >= s.pool.maxPending then
      SetPhase(s.(pool := s.pool.(pendingOverflow := s.pool.pendingOverflow + 1)), r, Exiting)
    else
      SetPhase(s.(h2Waiters := s.h2Waiters[a := At(s.h2Waiters, a) + [r]],
                  pool := s.pool.(pendingActive := s.pool.pendingActive + 1, pendingTotal := s.pool.pendingTotal + 1)),
               r, Queued)
  }

  /** AcquireH2Stream from its first lock to its unlock. */
  function AcquireStep(s: State, r: ReqId, newLink: Link): (t: State)
    requires r in s.reqs
    ensures SameLimits(s, t)
  {
    var a := s.reqs[r].addr;
    match FirstLive(s, At(s.h2Pool, a))
    case Some(l) => SetPhase(AddStream(s, l, 1), r, Hit(l))
    case None =>
      match FirstSpare(s, At(s.h2Connecting, a))
      case Some(l) => SetPhase(AddPromise(s, l, 1), r, Attaching(l))
      case None =>
        var (p, ok) := B.TryAcquire(s.pool);
        var t := s.(pool := p);
        if ok then Register(t, r, newLink) else Pended(t, r, a)
  }

  /** Where a call goes when it has released its own pick. */
  function AfterPick(p: Phase): Phase {
    match p
    case Hit(l) => Riding(l)
    case Attaching(l) => Attached(l)
    case DialRefused(l) => DialFailed(l)
    case H1Hit(l) => H1Holding(l)
    case _ => Done
  }

  function FirePickStep(s: State, r: ReqId): (t: State)
    requires r in s.reqs
    ensures SameLimits(s, t)
  {
    SetPhase(AddLoad(s, s.reqs[r].host, -1), r, AfterPick(s.reqs[r].phase))
  }

  /** dialPicked succeeded: permit and pick move into the wrapper's dec closure. */
  function Connected(s: State, r: ReqId, l: Link, p: Phase): (t: State)
    requires r in s.reqs
    ensures SameLimits(s, t)
  {
    var q := s.reqs[r];
    SetPhase(s.(conns := s.conns[l := Conn(q.addr, q.host, 0, false, false, false)],
                cxActive := s.cxActive + 1), r, p)
  }

  function FailEntryStep(s: State, r: ReqId): (t: State)
    requires r in s.reqs && s.reqs[r].phase.DialFailed? && s.reqs[r].phase.link in s.entries
    ensures SameLimits(s, t)
  {
    var a, l := s.reqs[r].addr, s.reqs[r].phase.link;
    var e := s.entries[l];
    Owe(SetPhase(s.(entries := s.entries[l := e.(status := Failed)],
                    h2Connecting := s.h2Connecting[a := Without(At(s.h2Connecting, a), l)],
                    streamsActive := s.streamsActive - e.promised), r, Done), a)
  }

  function PoolConnStep(s: State, r: ReqId): (t: State)
    requires r in s.reqs && s.reqs[r].phase.Dialed?
    requires s.reqs[r].phase.link in s.entries && s.reqs[r].phase.link in s.conns
    ensures SameLimits(s, t)
  {
    var a, l := s.reqs[r].addr, s.reqs[r].phase.link;
    var e := s.entries[l];
    Owe(SetPhase(s.(entries := s.entries[l := e.(status := Ready)],
                    conns := s.conns[l := s.conns[l].(inFlight := e.promised)],
                    h2Connecting := s.h2Connecting[a := Without(At(s.h2Connecting, a), l)],
                    h2Pool := s.h2Pool[a := At(s.h2Pool, a) + [l]]), r, Riding(l)), a)
  }

  function AttachReadyStep(s: State, r: ReqId): (t: State)
    requires r in s.reqs && s.reqs[r].phase.Attached? && s.reqs[r].phase.link in s.entries
    ensures SameLimits(s, t)
  {
    var l := s.reqs[r].phase.link;
    if s.entries[l].status.Failed? then SetPhase(s, r, Done)
    else if l in At(s.h2Pool, s.reqs[r].addr) then SetPhase(s, r, Riding(l))
    else SetPhase(s.(streamsActive := s.streamsActive - 1), r, Done)
  }

  function AcceptGrantStep(s: State, r: ReqId, newLink: Link): (t: State)
    requires r in s.reqs && s.reqs[r].phase.Sent?
    ensures SameLimits(s, t)
  {
    match s.reqs[r].phase.grant
    case StreamGrant(l) => SetPhase(s, r, if l in At(s.h2Pool, s.reqs[r].addr) then Hit(l) else Orphaned(l))
    case DialGrant => Register(s, r, newLink)
  }

  function CancelWaitStep(s: State, r: ReqId): (t: State)
    requires r in s.reqs
    ensures SameLimits(s, t)
  {
    var a := s.reqs[r].addr;
    if r in At(s.h2Waiters, a) then
      SetPhase(s.(h2Waiters := s.h2Waiters[a := Without(At(s.h2Waiters, a), r)],
                  pool := s.pool.(pendingActive := s.pool.pendingActive - 1)), r, Exiting)
    else
      match s.reqs[r].phase
      case Sent(StreamGrant(l)) =>
        var t := if l in At(s.h2Pool, a) then AddStream(s, l, -1) else s.(streamsActive := s.streamsActive - 1);
        Owe(SetPhase(t, r, Exiting), a)
      case Sent(DialGrant) => Owe(SetPhase(GivePermit(s), r, Exiting), a)
      case _ => s // no grant is coming: the receive would block for ever
  }

  /** The release closure up to its first promotion; ReleaseCheckStep is the rest. */
  function ReleaseStep(s: State, r: ReqId): (t: State)
    requires r in s.reqs && s.reqs[r].phase.Riding?
    ensures SameLimits(s, t)
  {
    var l := s.reqs[r].phase.link;
    Owe(SetPhase(AddStream(s, l, -1), r, Releasing(l)), s.reqs[r].addr)
  }

  function ReleaseCheckStep(s: State, r: ReqId): (t: State)
    requires r in s.reqs && s.reqs[r].phase.Releasing?
    ensures SameLimits(s, t)
  {
    var a, l := s.reqs[r].addr, s.reqs[r].phase.link;
    if l in s.conns && (s.conns[l].closed || s.conns[l].goneAway) && s.conns[l].inFlight == 0 then
      Owe(Evict(SetPhase(s, r, Done), a, l), a)
    else SetPhase(s, r, Done)
  }

  function H1AcquireStep(s: State, r: ReqId): (t: State)
    requires r in s.reqs
    ensures SameLimits(s, t)
  {
    var (p, out) := B.AcquireOrPend(s.pool, r);
    SetPhase(s.(pool := p), r,
             match out case Permit => H1Dialing case Pending => H1Queued case Overflow => Exiting)
  }

  function H1CancelStep(s: State, r: ReqId): (t: State)
    requires r in s.reqs
    ensures SameLimits(s, t)
  {
    if r in s.pool.waiters then SetPhase(s.(pool := B.Withdraw(s.pool, r)), r, Exiting)
    else if s.reqs[r].phase.H1Sent? then SetPhase(GivePermit(s), r, Exiting)
    else s // no permit is coming: the receive would block for ever
  }

  /** PutIdleH1; sawWaiter is the outcome of its racy peek at the wait queue. */
  function H1PutIdleStep(s: State, r: ReqId, sawWaiter: bool): (t: State)
    requires r in s.reqs && s.reqs[r].phase.H1Holding?
    ensures SameLimits(s, t)
  {
    var l := s.reqs[r].phase.link;
    var t := SetPhase(s, r, Done);
    if l !in s.conns then t
    else
      var a := s.conns[l].addr;
      if sawWaiter || |At(s.h1Pool, a)| >= H1_POOL_MAX_PER_ENDPOINT then CloseConn(t, l)
      else t.(h1Pool := s.h1Pool[a := At(s.h1Pool, a) + [l]])
  }

  predicate H1Event(e: Event) {
    e.H1PopIdle? || e.H1Acquire? || e.H1Accept? || e.H1Cancel? || e.H1DialFails? || e.H1DialConnects? || e.H1Close?
    || e.H1PutIdle?
  }

  /** The steps of Dial, AcquireH1 and PutIdleH1. */
  function H1Step(s: State, e: Event): (t: State)
    requires Enabled(s, e) && H1Event(e)
    ensures SameLimits(s, t)
  {
    match e
    case H1PopIdle(r) =>
      var a := s.reqs[r].addr;
      var q := At(s.h1Pool, a);
      SetPhase(s.(h1Pool := s.h1Pool[a := q[..|q| - 1]]), r, H1Hit(q[|q| - 1]))
    case H1Acquire(r) => H1AcquireStep(s, r)
    case H1Accept(r) => SetPhase(s, r, H1Dialing)
    case H1Cancel(r) => H1CancelStep(s, r)
    case H1DialFails(r) => SetPhase(GivePermit(s), r, Exiting)
    case H1DialConnects(r, l) => Connected(s, r, l, H1Holding(l))
    case H1Close(r) => CloseConn(s, s.reqs[r].phase.link)
    case H1PutIdle(r, w) => H1PutIdleStep(s, r, w)
  }

  function Step(s: State, e: Event): (t: State)
    requires Enabled(s, e)
    ensures SameLimits(s, t)
  {
    match e
    case Pick(r, h, a, h2) =>
      AddLoad(s, h, 1).(reqs := s.reqs[r := Req(h, a, if h2 then Picked else H1Picked)])
    case Acquire(r, l) => AcquireStep(s, r, l)
    case FirePick(r) => FirePickStep(s, r)
    case DialFails(r) => SetPhase(GivePermit(s), r, DialRefused(s.reqs[r].phase.link))
    case DialConnects(r) => Connected(s, r, s.reqs[r].phase.link, Dialed(s.reqs[r].phase.link))
    case FinalizeFails(r) =>
      CloseConn(SetPhase(s, r, DialFailed(s.reqs[r].phase.link)), s.reqs[r].phase.link)
    case FailEntry(r) => FailEntryStep(s, r)
    case PoolConn(r) => PoolConnStep(s, r)
    case AttachReady(r) => AttachReadyStep(s, r)
    case AttachCancel(r) => SetPhase(AddPromise(s, s.reqs[r].phase.link, -1), r, Done)
    case AcceptGrant(r, l) => AcceptGrantStep(s, r, l)
    case UndoOrphan(r) =>
      Owe(SetPhase(s.(streamsActive := s.streamsActive - 1), r, Exiting), s.reqs[r].addr)
    case CancelWait(r) => CancelWaitStep(s, r)
    case Release(r) => ReleaseStep(s, r)
    case ReleaseCheck(r) => ReleaseCheckStep(s, r)
    case DoPromote(a) => Promote(s.(owed := s.owed - multiset{a}), a)
    case EvictOnError(a, l) => if l in At(s.h2Pool, a) then Owe(Evict(s, a, l), a) else s
    case DrainWatch(a, l) =>
      if l in At(s.h2Pool, a) && s.conns[l].inFlight == 0 then Owe(Evict(s, a, l), a) else s
    case PeerClose(l) => s.(conns := s.conns[l := s.conns[l].(closed := true)])
    case PeerGoAway(l) => s.(conns := s.conns[l := s.conns[l].(goneAway := true)])
    case _ => H1Step(s, e)
  }

  function Run(s: State, es: seq<Event>): (r: Option<State>)
    decreases es
  {
    if es == [] then Some(s)
    else if !Enabled(s, es[0]) then None
    else Run(Step(s, es[0]), es[1..])
  }
}
