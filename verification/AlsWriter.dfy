/** The batching, reconnecting access-log writer (internal/accesslog/grpcsink.go). */
module AlsWriter {
  import opened Options

  /** What callers submit: an access-log record with its serialized size, or something else. */
  datatype Item = Rec(size: nat) | Other

  /** One stream.Send call. */
  datatype Attempt = Attempt(stream: nat, identifier: bool, entries: seq<nat>, ok: bool)

  /** How the peer answers during one flush, by attempt. */
  datatype Peer = Peer(opens: seq<bool>, sends: seq<bool>)

  /** The writer's end of the wire; a stream is named by the count of streams opened before it. */
  datatype Link = Link(stream: Option<nat>, streams: nat, sentIdentifier: bool, logsWritten: nat, wire: seq<Attempt>)

  /** Submissions are named by their position in `items`. over, lost, written and ignored are the
      fates of those no longer in the queue or the buffer. */
  datatype State = State(
    capacity: nat, limit: nat,
    items: seq<Item>,
    queue: seq<nat>, buf: seq<nat>, bufBytes: nat,
    link: Link, logsDropped: nat,
    over: seq<nat>, written: seq<nat>, lost: seq<nat>, ignored: seq<nat>,
    closed: bool, done: bool)

  function Init(capacity: nat, limit: nat): State {
    State(capacity, limit, [], [], [], 0, Link(None, 0, false, 0, []), 0, [], [], [], [], false, false)
  }

  /** Submit: a full channel drops the newest record. */
  function Submit(s: State, r: Item): State {
    var t := s.(items := s.items + [r]);
    if |s.queue| < s.capacity then t.(queue := s.queue + [|s.items|])
    else t.(over := s.over + [|s.items|], logsDropped := s.logsDropped + 1)
  }

  function Opened(l: Link): Link {
    l.(stream := Some(l.streams), streams := l.streams + 1, sentIdentifier := false)
  }

  /** stream.Send of the whole buffer. */
  function Sent(l: Link, buf: seq<nat>, ok: bool): Link
    requires l.stream.Some?
  {
    var t := l.(wire := l.wire + [Attempt(l.stream.value, !l.sentIdentifier, buf, ok)]);
    if ok then t.(sentIdentifier := true, logsWritten := l.logsWritten + |buf|)
    else t.(stream := None, sentIdentifier := false)
  }

  predicate Answers(p: Peer) { |p.opens| >= 2 && |p.sends| >= 2 }

  /** The attempt loop of flush from attempt i on; the flag says whether the batch was delivered. */
  function Try(l: Link, buf: seq<nat>, p: Peer, i: nat): (Link, bool)
    requires Answers(p)
    decreases 2 - i
  {
    if i >= 2 then (l, false)
    else if l.stream.None? && !p.opens[i] then (l, false)
    else
      var t := if l.stream.None? then Opened(l) else l;
      if p.sends[i] then (Sent(t, buf, true), true) else Try(Sent(t, buf, false), buf, p, i + 1)
  }

  /** flush: deliver or lose the buffer as a whole, and empty it either way. */
  function Flush(s: State, p: Peer): State
    requires Answers(p)
  {
    if s.buf == [] then s
    else
      var (l, delivered) := Try(s.link, s.buf, p, 0);
      s.(link := l, buf := [], bufBytes := 0,
         written := if delivered then s.written + s.buf else s.written,
         lost := if delivered then s.lost else s.lost + s.buf)
  }

  function SizeOf(items: seq<Item>, x: nat): nat {
    if x < |items| && items[x].Rec? then items[x].size else 0
  }

  /** One receive from the channel. */
  function Receive(s: State, p: Peer): State
    requires s.queue != [] && Answers(p)
  {
    var x := s.queue[0];
    var t := s.(queue := s.queue[1..]);
    if x < |s.items| && s.items[x].Other? then t.(ignored := s.ignored + [x])
    else
      var u := t.(buf := s.buf + [x], bufBytes := if s.limit > 0 then s.bufBytes + SizeOf(s.items, x) else s.bufBytes);
      if u.bufBytes >= u.limit then Flush(u, p) else u
  }

  datatype Event = DoSubmit(r: Item) | DoReceive(p: Peer) | DoTick(p: Peer) | DoClose | DoFinish(p: Peer)

  predicate Enabled(s: State, e: Event) {
    match e
    case DoSubmit(_) => !s.closed
    case DoReceive(p) => !s.done && s.queue != [] && Answers(p)
    case DoTick(p) => !s.done && Answers(p)
    case DoClose => true
    case DoFinish(p) => !s.done && s.closed && s.queue == [] && Answers(p)
  }

  function Step(s: State, e: Event): State
    requires Enabled(s, e)
  {
    match e
    case DoSubmit(r) => Submit(s, r)
    case DoReceive(p) => Receive(s, p)
    case DoTick(p) => Flush(s, p)
    case DoClose => s.(closed := true)
    case DoFinish(p) => Flush(s, p).(done := true)
  }

  function Run(s: State, es: seq<Event>): Option<State>
    decreases es
  {
    if es == [] then Some(s) else if !Enabled(s, es[0]) then None else Run(Step(s, es[0]), es[1..])
  }

  // ---------------------------------------------------------------------------
  // Invariants
  // ---------------------------------------------------------------------------

  predicate Rising(q: seq<nat>) {
    forall i, j :: 0 <= i < j < |q| ==> q[i] < q[j]
  }

  predicate Under(q: seq<nat>, n: nat) {
    forall i :: 0 <= i < |q| ==> q[i] < n
  }

  ghost predicate Ordered(s: State) {
    && Rising(s.written + s.buf + s.queue) && Rising(s.lost + s.buf + s.queue)
    && Rising(s.ignored + s.queue) && Rising(s.over)
  }

  function All(n: nat): multiset<nat> {
    if n == 0 then multiset{} else All(n - 1) + multiset{n - 1}
  }

  /** Every submission has exactly one place. */
  ghost predicate Fated(s: State) {
    Fates(s.over, s.queue, s.buf, s.written, s.lost, s.ignored) == All(|s.items|)
  }

  ghost function Fates(o: seq<nat>, q: seq<nat>, b: seq<nat>, w: seq<nat>, l: seq<nat>, i: seq<nat>): multiset<nat> {
    multiset(o) + multiset(q) + multiset(b) + multiset(w) + multiset(l) + multiset(i)
  }

  ghost predicate Within(s: State) {
    && Under(s.over, |s.items|) && Under(s.written + s.buf + s.queue, |s.items|)
    && Under(s.lost + s.buf + s.queue, |s.items|) && Under(s.ignored + s.queue, |s.items|)
  }

  ghost predicate Split(s: State) {
    Fated(s) && Within(s)
  }

  /** Only records are ever buffered, and only other things are ignored. */
  ghost predicate Kinds(s: State) {
    && AllRecords(s.items, s.buf) && AllRecords(s.items, s.written) && AllRecords(s.items, s.lost)
    && forall i :: 0 <= i < |s.ignored| ==> s.ignored[i] < |s.items| && s.items[s.ignored[i]].Other?
  }

  predicate AllRecords(items: seq<Item>, q: seq<nat>) {
    forall i :: 0 <= i < |q| ==> q[i] < |items| && items[q[i]].Rec?
  }

  lemma StepKinds(s: State, e: Event)
    requires Kinds(s) && Within(s) && Enabled(s, e)
    ensures Kinds(Step(s, e))
  {
    hide Try;
    match e
    case DoReceive(p) =>
      assert (s.ignored + s.queue)[|s.ignored|] == s.queue[0];
      ReceiveKinds(s, p);
    case _ =>
  }

  lemma ReceiveKinds(s: State, p: Peer)
    requires Kinds(s) && s.queue != [] && s.queue[0] < |s.items| && Answers(p)
    ensures Kinds(Receive(s, p))
  {
    hide Try;
    assert AllRecords(s.items, s.buf + [s.queue[0]]) || s.items[s.queue[0]].Other?;
  }

  /** The entries of the successful sends, in order. */
  function Delivered(wire: seq<Attempt>): seq<nat> {
    if wire == [] then []
    else
      var w := wire[|wire| - 1];
      Delivered(wire[..|wire| - 1]) + if w.ok then w.entries else []
  }

  ghost predicate Counted(s: State) {
    s.link.logsWritten == |s.written| && s.logsDropped == |s.over| && Delivered(s.link.wire) == s.written
  }

  predicate Used(wire: seq<Attempt>, stream: nat, n: nat) {
    exists j :: 0 <= j < n && j < |wire| && wire[j].stream == stream
  }

  ghost predicate Identified(l: Link) {
    && (forall i :: 0 <= i < |l.wire| ==> l.wire[i].stream < l.streams)
    && (forall i :: 0 <= i < |l.wire| ==> l.wire[i].identifier == !Used(l.wire, l.wire[i].stream, i))
    && (l.stream.Some? ==> l.stream.value < l.streams && (l.sentIdentifier <==> Used(l.wire, l.stream.value, |l.wire|)))
  }

  function Bytes(items: seq<Item>, q: seq<nat>): nat {
    if q == [] then 0 else Bytes(items, q[..|q| - 1]) + SizeOf(items, q[|q| - 1])
  }

  /** The buffer stays below the size that triggers a flush, so memory is bounded in an outage. */
  ghost predicate Bounded(s: State) {
    && |s.queue| <= s.capacity
    && (s.limit > 0 ==> s.bufBytes == Bytes(s.items, s.buf))
    && (s.limit == 0 ==> s.bufBytes == 0)
    && (s.buf != [] ==> s.bufBytes < s.limit)
  }

  predicate Finished(s: State) {
    s.done ==> s.closed && s.queue == [] && s.buf == []
  }

  ghost predicate Inv(s: State) {
    Ordered(s) && Split(s) && Counted(s) && Identified(s.link) && Bounded(s) && Kinds(s) && Finished(s)
  }

  lemma OpenedIdentifies(l: Link)
    requires Identified(l)
    ensures Identified(Opened(l))
  {
  }

  lemma SentIdentifies(l: Link, buf: seq<nat>, ok: bool)
    requires Identified(l) && l.stream.Some?
    ensures Identified(Sent(l, buf, ok))
  {
    var t := Sent(l, buf, ok);
    var n, x := |l.wire|, l.stream.value;
    forall i | 0 <= i < n + 1 ensures t.wire[i].identifier == !Used(t.wire, t.wire[i].stream, i) {
      UsedPrefix(l.wire, t.wire[n], t.wire[i].stream, i);
    }
    assert t.wire[n].stream == x;
    assert Used(t.wire, x, n + 1);
  }

  lemma UsedPrefix(wire: seq<Attempt>, a: Attempt, stream: nat, n: nat)
    requires n <= |wire|
    ensures Used(wire + [a], stream, n) == Used(wire, stream, n)
  {
    if Used(wire, stream, n) {
      var j :| 0 <= j < n && j < |wire| && wire[j].stream == stream;
      assert (wire + [a])[j].stream == stream;
    }
    if Used(wire + [a], stream, n) {
      var j :| 0 <= j < n && j < |wire + [a]| && (wire + [a])[j].stream == stream;
      assert wire[j].stream == stream;
    }
  }

  lemma DeliveredSent(l: Link, buf: seq<nat>, ok: bool)
    requires l.stream.Some?
    ensures Delivered(Sent(l, buf, ok).wire) == Delivered(l.wire) + if ok then buf else []
  {
    assert Sent(l, buf, ok).wire[..|l.wire|] == l.wire;
  }

  /** What the attempt loop has done to the link when it ends with or without delivery. */
  ghost predicate Progress(l: Link, buf: seq<nat>, t: Link, ok: bool) {
    && (Identified(l) ==> Identified(t))
    && Delivered(t.wire) == Delivered(l.wire) + (if ok then buf else [])
    && t.logsWritten == l.logsWritten + if ok then |buf| else 0
  }

  lemma SentProgress(l: Link, buf: seq<nat>, ok: bool)
    ensures var o := if l.stream.None? then Opened(l) else l; Progress(l, buf, Sent(o, buf, ok), ok)
  {
    hide Identified, Delivered;
    var o := if l.stream.None? then Opened(l) else l;
    if Identified(l) {
      OpenedIdentifies(l);
      SentIdentifies(o, buf, ok);
    }
    DeliveredSent(o, buf, ok);
  }

  lemma ProgressTrans(l: Link, buf: seq<nat>, t: Link, u: Link, ok: bool)
    requires Progress(l, buf, t, false) && Progress(t, buf, u, ok)
    ensures Progress(l, buf, u, ok)
  {
    hide Identified, Delivered;
    assert Delivered(l.wire) + [] == Delivered(l.wire);
  }

  lemma {:induction false} TryKeeps(l: Link, buf: seq<nat>, p: Peer, i: nat)
    requires Answers(p)
    ensures var (t, ok) := Try(l, buf, p, i); Progress(l, buf, t, ok)
    decreases 2 - i
  {
    if i < 2 && (l.stream.Some? || p.opens[i]) {
      hide Progress, Sent, Opened;
      SentProgress(l, buf, p.sends[i]);
      if !p.sends[i] {
        var o := if l.stream.None? then Opened(l) else l;
        TryKeeps(Sent(o, buf, false), buf, p, i + 1);
        var (u, ok) := Try(Sent(o, buf, false), buf, p, i + 1);
        ProgressTrans(l, buf, Sent(o, buf, false), u, ok);
      }
    }
  }

  /** a + b + c minus its first or second part. */
  lemma RisingParts(a: seq<nat>, b: seq<nat>, c: seq<nat>)
    requires Rising(a + b + c)
    ensures Rising(a + c) && Rising(b + c) && Rising(a + b)
  {
    var q := a + b + c;
    forall i, j | 0 <= i < j < |a + c| ensures (a + c)[i] < (a + c)[j] {
      var i', j' := if i < |a| then i else i + |b|, if j < |a| then j else j + |b|;
      assert q[i'] == (a + c)[i] && q[j'] == (a + c)[j];
    }
    forall i, j | 0 <= i < j < |b + c| ensures (b + c)[i] < (b + c)[j] {
      assert q[|a| + i] == (b + c)[i] && q[|a| + j] == (b + c)[j];
    }
    forall i, j | 0 <= i < j < |a + b| ensures (a + b)[i] < (a + b)[j] {
      assert q[i] == (a + b)[i] && q[j] == (a + b)[j];
    }
  }

  // Each step, part by part.

  lemma FlushCounts(s: State, p: Peer)
    requires Counted(s) && Identified(s.link) && Answers(p)
    ensures Counted(Flush(s, p)) && Identified(Flush(s, p).link)
  {
    hide Identified, Delivered;
    TryKeeps(s.link, s.buf, p, 0);
  }

  lemma FlushOrder(s: State, p: Peer)
    requires Ordered(s) && Answers(p)
    ensures Ordered(Flush(s, p))
  {
    hide Try;
    var t := Flush(s, p);
    RisingParts(s.written, s.buf, s.queue);
    RisingParts(s.lost, s.buf, s.queue);
    assert t.buf == [] && t.written + [] == t.written && t.lost + [] == t.lost;
  }

  lemma UnderParts(a: seq<nat>, b: seq<nat>, c: seq<nat>, n: nat)
    requires Under(a + b + c, n)
    ensures Under(a + c, n) && Under(b + c, n) && Under(a + b, n)
  {
    var q := a + b + c;
    assert forall i :: 0 <= i < |a| ==> q[i] == a[i];
    assert forall i :: 0 <= i < |b| ==> q[|a| + i] == b[i];
    assert forall i :: 0 <= i < |c| ==> q[|a| + |b| + i] == c[i];
  }

  lemma FlushSplits(s: State, p: Peer)
    requires Split(s) && Answers(p)
    ensures Split(Flush(s, p))
  {
    hide Try, Under, Fated;
    FlushFates(s, p);
    var t := Flush(s, p);
    UnderParts(s.written, s.buf, s.queue, |s.items|);
    UnderParts(s.lost, s.buf, s.queue, |s.items|);
    if s.buf != [] {
      assert t.written + [] == t.written && t.lost + [] == t.lost;
    }
  }

  lemma FlushFates(s: State, p: Peer)
    requires Fated(s) && Answers(p)
    ensures Fated(Flush(s, p))
  {
    hide Try, All;
  }

  lemma FlushKeeps(s: State, p: Peer)
    requires Ordered(s) && Split(s) && Counted(s) && Identified(s.link) && Answers(p)
    ensures var t := Flush(s, p); Ordered(t) && Split(t) && Counted(t) && Identified(t.link)
  {
    hide Ordered, Split, Counted, Identified, Flush;
    FlushCounts(s, p);
    FlushOrder(s, p);
    FlushSplits(s, p);
  }

  lemma RisingAppend(a: seq<nat>, x: nat)
    requires Rising(a) && Under(a, x)
    ensures Rising(a + [x])
  {
  }

  lemma SubmitOrders(s: State, r: Item)
    requires Ordered(s) && Split(s)
    ensures Ordered(Submit(s, r))
  {
    hide Rising, Under, All;
    var n := |s.items|;
    if |s.queue| < s.capacity {
      Appended(s.written + s.buf, s.queue, n);
      Appended(s.lost + s.buf, s.queue, n);
      Appended(s.ignored, s.queue, n);
    } else {
      RisingAppend(s.over, n);
    }
  }

  lemma SubmitSplits(s: State, r: Item)
    requires Ordered(s) && Split(s)
    ensures Split(Submit(s, r))
  {
    hide Rising, Under, Fated;
    SubmitFates(s, r);
    var n := |s.items|;
    UnderMore(s.over, n);
    if |s.queue| < s.capacity {
      Appended(s.written + s.buf, s.queue, n);
      Appended(s.lost + s.buf, s.queue, n);
      Appended(s.ignored, s.queue, n);
    } else {
      UnderMore(s.written + s.buf + s.queue, n);
      UnderMore(s.lost + s.buf + s.queue, n);
      UnderMore(s.ignored + s.queue, n);
    }
  }

  lemma SubmitFates(s: State, r: Item)
    requires Fated(s)
    ensures Fated(Submit(s, r))
  {
    hide Fates;
    var n := |s.items|;
    OneMoreFate(s.over, s.queue, s.buf, s.written, s.lost, s.ignored, n);
    assert All(n + 1) == All(n) + multiset{n};
  }

  lemma OneMoreFate(o: seq<nat>, q: seq<nat>, b: seq<nat>, w: seq<nat>, l: seq<nat>, i: seq<nat>, n: nat)
    ensures Fates(o + [n], q, b, w, l, i) == Fates(o, q, b, w, l, i) + multiset{n}
    ensures Fates(o, q + [n], b, w, l, i) == Fates(o, q, b, w, l, i) + multiset{n}
  {
  }

  lemma UnderMore(a: seq<nat>, n: nat)
    requires Under(a, n)
    ensures Under(a, n + 1) && Under(a + [n], n + 1)
  {
  }

  lemma Appended(a: seq<nat>, b: seq<nat>, n: nat)
    requires Rising(a + b) && Under(a + b, n)
    ensures Rising(a + (b + [n])) && Under(a + (b + [n]), n + 1)
  {
    RisingAppend(a + b, n);
    assert a + b + [n] == a + (b + [n]);
  }

  lemma {:induction false} BytesStay(items: seq<Item>, r: Item, q: seq<nat>)
    requires Under(q, |items|)
    ensures Bytes(items + [r], q) == Bytes(items, q)
  {
    if q == [] {
    } else {
      BytesStay(items, r, q[..|q| - 1]);
    }
  }

  /** The writer's state between taking x off the channel and the size test. */
  function Buffered(s: State): State
    requires s.queue != []
  {
    var x := s.queue[0];
    s.(queue := s.queue[1..], buf := s.buf + [x],
       bufBytes := if s.limit > 0 then s.bufBytes + SizeOf(s.items, x) else s.bufBytes)
  }

  lemma BufferedKeeps(s: State)
    requires s.queue != [] && Ordered(s) && Split(s) && Counted(s) && Identified(s.link)
    ensures var t := Buffered(s); Ordered(t) && Split(t) && Counted(t) && Identified(t.link)
  {
    hide Rising, Under, Identified, Delivered, Fated;
    ReceiveFates(s);
    var t, x := Buffered(s), s.queue[0];
    assert s.queue == [x] + t.queue;
    assert t.written + t.buf + t.queue == s.written + s.buf + s.queue;
    assert t.lost + t.buf + t.queue == s.lost + s.buf + s.queue;
    assert s.ignored + s.queue == s.ignored + [x] + t.queue;
    RisingParts(s.ignored, [x], t.queue);
    UnderParts(s.ignored, [x], t.queue, |s.items|);
  }

  function Ignored(s: State): State
    requires s.queue != []
  {
    s.(queue := s.queue[1..], ignored := s.ignored + [s.queue[0]])
  }

  lemma ReceiveFates(s: State)
    requires s.queue != [] && Fated(s)
    ensures Fated(Buffered(s)) && Fated(Ignored(s))
  {
    hide All;
    assert s.queue == [s.queue[0]] + s.queue[1..];
  }

  lemma IgnoredKeeps(s: State)
    requires s.queue != [] && Ordered(s) && Split(s) && Counted(s) && Identified(s.link)
    ensures var t := Ignored(s); Ordered(t) && Split(t) && Counted(t) && Identified(t.link)
  {
    hide Rising, Under, Identified, Delivered, Fated;
    ReceiveFates(s);
    var x, q := s.queue[0], s.queue[1..];
    assert s.queue == [x] + q;
    assert s.ignored + s.queue == s.ignored + [x] + q;
    var a, b := s.written + s.buf, s.lost + s.buf;
    assert s.written + s.buf + s.queue == a + [x] + q && s.lost + s.buf + s.queue == b + [x] + q;
    RisingParts(a, [x], q);
    RisingParts(b, [x], q);
    UnderParts(a, [x], q, |s.items|);
    UnderParts(b, [x], q, |s.items|);
  }

  lemma ReceiveKeeps(s: State, p: Peer)
    requires Ordered(s) && Split(s) && Counted(s) && Identified(s.link) && s.queue != [] && Answers(p)
    ensures var t := Receive(s, p); Ordered(t) && Split(t) && Counted(t) && Identified(t.link)
  {
    hide Ordered, Split, Counted, Identified, Flush;
    BufferedKeeps(s);
    IgnoredKeeps(s);
    FlushKeeps(Buffered(s), p);
  }

  lemma StepBounded(s: State, e: Event)
    requires Bounded(s) && Split(s) && Enabled(s, e)
    ensures Bounded(Step(s, e))
  {
    hide Try;
    match e
    case DoSubmit(r) => BoundedSubmit(s, r);
    case DoReceive(p) => BoundedReceive(s, p);
    case _ =>
  }

  lemma BoundedSubmit(s: State, r: Item)
    requires Bounded(s) && Split(s)
    ensures Bounded(Submit(s, r))
  {
    UnderParts(s.written, s.buf, s.queue, |s.items|);
    assert forall i :: 0 <= i < |s.buf| ==> (s.buf + s.queue)[i] == s.buf[i];
    BytesStay(s.items, r, s.buf);
  }

  lemma BoundedReceive(s: State, p: Peer)
    requires Bounded(s) && s.queue != [] && Answers(p)
    ensures Bounded(Receive(s, p))
  {
    hide Try;
    assert Buffered(s).buf[..|s.buf|] == s.buf;
  }

  lemma StepKeeps(s: State, e: Event)
    requires Inv(s) && Enabled(s, e)
    ensures Inv(Step(s, e))
  {
    hide Ordered, Fated, Within, Counted, Identified, Bounded, Kinds, Receive, Flush;
    StepBounded(s, e);
    StepKinds(s, e);
    match e
    case DoSubmit(r) => SubmitOrders(s, r); SubmitSplits(s, r); SubmitCounts(s, r);
    case DoReceive(p) => ReceiveKeeps(s, p); StillOpen(s, p);
    case DoTick(p) => FlushKeeps(s, p); FlushEmpties(s, p);
    case DoClose => CloseKeeps(s);
    case DoFinish(p) => FlushKeeps(s, p); FlushEmpties(s, p); DoneKeeps(Flush(s, p));
  }

  lemma StillOpen(s: State, p: Peer)
    requires s.queue != [] && Answers(p)
    ensures Receive(s, p).done == s.done
  {
    hide Try;
  }

  lemma SubmitCounts(s: State, r: Item)
    requires Counted(s)
    ensures Counted(Submit(s, r))
  {
  }

  lemma FlushEmpties(s: State, p: Peer)
    requires Answers(p)
    ensures var t := Flush(s, p); t.buf == [] && t.queue == s.queue && t.done == s.done && t.closed == s.closed
  {
    hide Try;
  }

  lemma CloseKeeps(s: State)
    requires Inv(s)
    ensures Inv(s.(closed := true))
  {
  }

  lemma DoneKeeps(s: State)
    requires Ordered(s) && Split(s) && Counted(s) && Identified(s.link)
    ensures var t := s.(done := true); Ordered(t) && Split(t) && Counted(t) && Identified(t.link)
  {
  }

  lemma {:induction false} RunKeeps(s: State, es: seq<Event>)
    requires Inv(s) && Run(s, es).Some?
    ensures Inv(Run(s, es).value)
    decreases es
  {
    hide Inv, Step, Enabled;
    if es == [] {
    } else {
      StepKeeps(s, es[0]);
      RunKeeps(Step(s, es[0]), es[1..]);
    }
  }

  /** Over every run with arbitrary stream-open and send failures, every submission has exactly one
      fate, entries go out in submission order, the counters count exactly those entries, and each
      stream carries the identifier on its first message only. */
  lemma WriterSafety(capacity: nat, limit: nat, es: seq<Event>)
    requires Run(Init(capacity, limit), es).Some?
    ensures var s := Run(Init(capacity, limit), es).value;
            && multiset(s.over) + multiset(s.queue) + multiset(s.buf) + multiset(s.written) + multiset(s.lost)
               + multiset(s.ignored) == All(|s.items|)
            && Rising(Delivered(s.link.wire)) && Delivered(s.link.wire) == s.written
            && s.link.logsWritten == |Delivered(s.link.wire)| && s.logsDropped == |s.over|
            && Kinds(s)
            && (forall i :: 0 <= i < |s.link.wire| ==>
                  s.link.wire[i].identifier == !Used(s.link.wire, s.link.wire[i].stream, i))
  {
    hide Run, Rising, Delivered, Used, Kinds;
    assert Inv(Init(capacity, limit)) by { InitInv(capacity, limit); }
    RunKeeps(Init(capacity, limit), es);
    var s := Run(Init(capacity, limit), es).value;
    RisingParts(s.written, s.buf, s.queue);
    WrittenRises(s.written, s.buf);
  }

  lemma WrittenRises(a: seq<nat>, b: seq<nat>)
    requires Rising(a + b)
    ensures Rising(a)
  {
    assert forall i :: 0 <= i < |a| ==> (a + b)[i] == a[i];
  }

  lemma InitInv(capacity: nat, limit: nat)
    ensures Inv(Init(capacity, limit))
  {
  }

  /** After Close has drained the writer nothing is in flight: what was submitted has been written,
      dropped at the full channel, lost with a failed batch, or was no record. */
  lemma NothingLeftAfterClose(capacity: nat, limit: nat, es: seq<Event>)
    requires Run(Init(capacity, limit), es).Some?
    ensures var s := Run(Init(capacity, limit), es).value;
            s.done ==> multiset(s.over) + multiset(s.written) + multiset(s.lost) + multiset(s.ignored) == All(|s.items|)
  {
    hide Run;
    InitInv(capacity, limit);
    RunKeeps(Init(capacity, limit), es);
  }

  lemma {:induction false} RunSettings(s: State, es: seq<Event>)
    requires Run(s, es).Some?
    ensures var t := Run(s, es).value; t.capacity == s.capacity && t.limit == s.limit
    decreases es
  {
    if es == [] {
    } else {
      StepSettings(s, es[0]);
      hide Step, Enabled;
      RunSettings(Step(s, es[0]), es[1..]);
    }
  }

  lemma StepSettings(s: State, e: Event)
    requires Enabled(s, e)
    ensures var t := Step(s, e); t.capacity == s.capacity && t.limit == s.limit
  {
    hide Try;
  }

  /** Memory stays bounded in an outage: between steps the buffer holds less than the configured
      number of bytes and the queue at most its capacity. */
  lemma MemoryBounded(capacity: nat, limit: nat, es: seq<Event>)
    requires Run(Init(capacity, limit), es).Some?
    ensures var s := Run(Init(capacity, limit), es).value;
            |s.queue| <= capacity && (s.buf != [] ==> Bytes(s.items, s.buf) < limit)
  {
    hide Run;
    InitInv(capacity, limit);
    RunKeeps(Init(capacity, limit), es);
    RunSettings(Init(capacity, limit), es);
  }

  // ---------------------------------------------------------------------------
  // What the operations come to
  // ---------------------------------------------------------------------------

  /** Submit drops exactly when the channel is full, and only then counts a drop. */
  lemma SubmitMeans(s: State, r: Item)
    ensures var t, x := Submit(s, r), |s.items|;
            && (|s.queue| < s.capacity ==> t.queue == s.queue + [x] && t.over == s.over && t.logsDropped == s.logsDropped)
            && (|s.queue| >= s.capacity ==> t.queue == s.queue && t.over == s.over + [x] && t.logsDropped == s.logsDropped + 1)
  {
  }

  /** Under this behaviour of the peer a batch gets through: the first send works, or the one on a
      reopened stream does. */
  predicate GetsThrough(l: Link, p: Peer)
    requires Answers(p)
  {
    (l.stream.Some? || p.opens[0]) && (p.sends[0] || (p.opens[1] && p.sends[1]))
  }

  /** flush delivers exactly in that case. */
  lemma DeliveredIff(l: Link, buf: seq<nat>, p: Peer)
    requires Answers(p)
    ensures Try(l, buf, p, 0).1 <==> GetsThrough(l, p)
  {
    var t := if l.stream.None? then Opened(l) else l;
    assert Try(Sent(t, buf, false), buf, p, 2) == (Sent(t, buf, false), false);
    TrySecond(Sent(t, buf, false), buf, p);
  }

  lemma TrySecond(l: Link, buf: seq<nat>, p: Peer)
    requires Answers(p) && l.stream.None?
    ensures var (t, ok) := Try(l, buf, p, 1);
            && (ok <==> p.opens[1] && p.sends[1])
            && t.wire == l.wire + (if p.opens[1] then [Attempt(l.streams, true, buf, p.sends[1])] else [])
  {
    if p.opens[1] && !p.sends[1] {
      assert Try(Sent(Opened(l), buf, false), buf, p, 2) == (Sent(Opened(l), buf, false), false);
    }
  }

  /** The sends of one flush: each carries the whole batch; the first goes out on the open stream, or on
      a new one with the identifier; after a failed send the second goes out on a fresh stream, again
      with the identifier; there is no third. */
  function Sends(l: Link, buf: seq<nat>, p: Peer): seq<Attempt>
    requires Answers(p)
  {
    if l.stream.None? && !p.opens[0] then []
    else
      var first := if l.stream.Some? then Attempt(l.stream.value, !l.sentIdentifier, buf, p.sends[0])
                   else Attempt(l.streams, true, buf, p.sends[0]);
      var unused := if l.stream.Some? then l.streams else l.streams + 1;
      if p.sends[0] || !p.opens[1] then [first] else [first, Attempt(unused, true, buf, p.sends[1])]
  }

  lemma SendsMade(l: Link, buf: seq<nat>, p: Peer)
    requires Answers(p)
    ensures Try(l, buf, p, 0).0.wire == l.wire + Sends(l, buf, p)
  {
    if l.stream.None? && !p.opens[0] {
    } else {
      var t := if l.stream.None? then Opened(l) else l;
      if p.sends[0] {
      } else {
        TrySecond(Sent(t, buf, false), buf, p);
        var u := Sent(t, buf, false);
        assert u.wire == l.wire + [Attempt(t.stream.value, !t.sentIdentifier, buf, false)];
      }
    }
  }

  /** The peer of a flushing event, if the event flushes. */
  predicate FlushPeer(e: Event, p: Peer) {
    (e.DoReceive? && e.p == p) || (e.DoTick? && e.p == p) || (e.DoFinish? && e.p == p)
  }

  /** A flush writes or loses the whole buffer, by what the peer did. */
  lemma FlushMeans(s: State, p: Peer)
    requires Answers(p)
    ensures var t := Flush(s, p);
            && t.buf == [] && t.queue == s.queue
            && t.written == s.written + (if GetsThrough(s.link, p) then s.buf else [])
            && t.lost == s.lost + (if GetsThrough(s.link, p) then [] else s.buf)
            && t.link.wire == s.link.wire + (if s.buf == [] then [] else Sends(s.link, s.buf, p))
  {
    hide Try;
    DeliveredIff(s.link, s.buf, p);
    SendsMade(s.link, s.buf, p);
  }

  /** A received record joins the buffer; the buffer is flushed exactly when its bytes reach the limit,
      which with limit 0 is always. Anything else is ignored. */
  lemma ReceiveMeans(s: State, p: Peer)
    requires s.queue != [] && s.queue[0] < |s.items| && Answers(p)
    ensures var t, x := Receive(s, p), s.queue[0];
            && t.queue == s.queue[1..]
            && (s.items[x].Other? ==> t.ignored == s.ignored + [x] && t.buf == s.buf && t.link == s.link)
            && (s.items[x].Rec? && s.bufBytes + s.items[x].size < s.limit ==> t.buf == s.buf + [x] && t.link == s.link)
            && (s.items[x].Rec? && (s.limit == 0 || s.bufBytes + s.items[x].size >= s.limit) ==>
                  && t.buf == [] && t.written == s.written + (if GetsThrough(s.link, p) then s.buf + [x] else [])
                  && t.lost == s.lost + (if GetsThrough(s.link, p) then [] else s.buf + [x]))
  {
    hide Flush;
    FlushMeans(Buffered(s), p);
  }

  /** The outage that loses a batch: no stream can be opened, or the send fails twice, or fails once and
      the stream cannot be reopened. Without one nothing is lost. */
  lemma LostOnlyInOutage(s: State, e: Event)
    requires Inv(s) && Enabled(s, e) && Step(s, e).lost != s.lost
    ensures exists p :: FlushPeer(e, p) && Answers(p) && !GetsThrough(s.link, p)
  {
    hide Inv, Flush;
    match e
    case DoReceive(p) =>
      HeadKnown(s);
      ReceiveMeans(s, p);
      assert FlushPeer(e, p);
    case DoTick(p) => FlushMeans(s, p); assert FlushPeer(e, p);
    case DoFinish(p) => FlushMeans(s, p); assert FlushPeer(e, p);
    case _ =>
  }

  lemma HeadKnown(s: State)
    requires Inv(s) && s.queue != []
    ensures s.queue[0] < |s.items|
  {
    assert (s.ignored + s.queue)[|s.ignored|] == s.queue[0];
  }

  /** Every peer of the run lets a batch through within the two attempts. */
  ghost predicate NoOutage(es: seq<Event>) {
    forall i, p :: 0 <= i < |es| && FlushPeer(es[i], p) && Answers(p) ==> p.opens[0] && (p.sends[0] || (p.opens[1] && p.sends[1]))
  }

  lemma {:induction false} RunLosesNothing(s: State, es: seq<Event>)
    requires Inv(s) && Run(s, es).Some? && NoOutage(es)
    ensures Run(s, es).value.lost == s.lost
    decreases es
  {
    hide Inv, Step, Enabled, FlushPeer;
    if es == [] {
    } else {
      if Step(s, es[0]).lost != s.lost {
        LostOnlyInOutage(s, es[0]);
        assert false;
      }
      StepKeeps(s, es[0]);
      assert NoOutage(es[1..]) by {
        forall i, p | 0 <= i < |es[1..]| && FlushPeer(es[1..][i], p) && Answers(p) ensures p.opens[0] && (p.sends[0] || (p.opens[1] && p.sends[1])) {
          assert es[1..][i] == es[i + 1];
        }
      }
      RunLosesNothing(Step(s, es[0]), es[1..]);
    }
  }

  /** Reconnecting once is enough: if in every flush a stream opens and one of the two sends works, then
      after Close every record that fitted into the channel has been written. */
  lemma EverythingWritten(capacity: nat, limit: nat, es: seq<Event>)
    requires Run(Init(capacity, limit), es).Some? && NoOutage(es)
    ensures var s := Run(Init(capacity, limit), es).value;
            && s.lost == []
            && (s.done ==> multiset(s.over) + multiset(s.written) + multiset(s.ignored) == All(|s.items|))
  {
    hide Run, NoOutage;
    InitInv(capacity, limit);
    RunLosesNothing(Init(capacity, limit), es);
    NothingLeftAfterClose(capacity, limit, es);
  }
}

/** The sink as an object whose methods take the steps above. */
module AlsSink {
  import opened Options
  import opened AlsWriter

  /** The sink with its writer's locals. The ghost fields name the submissions and their fates. */
  class GrpcSink {
    const capacity: nat
    const limit: nat
    var queue: seq<nat>
    var items: seq<Item>
    var stream: Option<nat>
    var streams: nat
    var sentIdentifier: bool
    var wire: seq<Attempt>
    var buf: seq<nat>
    var bufBytes: nat
    var logsWritten: nat
    var logsDropped: nat
    var closed: bool
    var done: bool
    ghost var over: seq<nat>
    ghost var written: seq<nat>
    ghost var lost: seq<nat>
    ghost var ignored: seq<nat>

    ghost function LinkView(): Link
      reads this
    {
      Link(stream, streams, sentIdentifier, logsWritten, wire)
    }

    ghost function View(): State
      reads this
    {
      State(capacity, limit, items, queue, buf, bufBytes, LinkView(), logsDropped, over, written, lost, ignored, closed, done)
    }

    constructor (capacity: nat, limit: nat)
      ensures View() == Init(capacity, limit)
    {
      this.capacity, this.limit := capacity, limit;
      queue, items, buf, wire, bufBytes := [], [], [], [], 0;
      stream, streams, sentIdentifier := None, 0, false;
      logsWritten, logsDropped, closed, done := 0, 0, false, false;
      over, written, lost, ignored := [], [], [], [];
    }

    method Submit(r: Item)
      modifies this
      ensures View() == AlsWriter.Submit(old(View()), r)
    {
      if |queue| < capacity {
        queue := queue + [|items|];
      } else {
        logsDropped := logsDropped + 1;
        over := over + [|items|];
      }
      items := items + [r];
    }

    /** stream.Send of the buffer on the open stream. */
    method SendOnce(ok: bool)
      requires stream.Some?
      modifies this`stream, this`sentIdentifier, this`logsWritten, this`wire
      ensures LinkView() == Sent(old(LinkView()), buf, ok)
    {
      wire := wire + [Attempt(stream.value, !sentIdentifier, buf, ok)];
      if ok {
        sentIdentifier := true;
        logsWritten := logsWritten + |buf|;
      } else {
        stream := None;
        sentIdentifier := false;
      }
    }

    /** The two-attempt loop of flush; delivered is the outcome that only the log lines show. */
    method SendBatch(p: Peer) returns (ghost delivered: bool)
      requires Answers(p)
      modifies this`stream, this`streams, this`sentIdentifier, this`logsWritten, this`wire
      ensures (LinkView(), delivered) == Try(old(LinkView()), buf, p, 0)
    {
      hide Sent;
      var attempt := 0;
      delivered := false;
      while attempt < 2
        invariant 0 <= attempt <= 2 && !delivered
        invariant Try(old(LinkView()), buf, p, 0) == Try(LinkView(), buf, p, attempt)
      {
        if stream.None? {
          if !p.opens[attempt] {
            return;
          }
          stream, streams := Some(streams), streams + 1;
          sentIdentifier := false;
        }
        SendOnce(p.sends[attempt]);
        if p.sends[attempt] {
          delivered := true;
          return;
        }
        attempt := attempt + 1;
      }
    }

    method Flush(p: Peer)
      requires Answers(p)
      modifies this`stream, this`streams, this`sentIdentifier, this`logsWritten, this`wire,
               this`buf, this`bufBytes, this`written, this`lost
      ensures View() == AlsWriter.Flush(old(View()), p)
    {
      hide Try;
      if |buf| == 0 {
        return;
      }
      ghost var delivered := SendBatch(p);
      Dispose(delivered);
    }

    /** Whether the batch was sent or dropped, the buffer is emptied. */
    method Dispose(ghost delivered: bool)
      modifies this`buf, this`bufBytes, this`written, this`lost
      ensures buf == [] && bufBytes == 0
      ensures written == old(written) + (if delivered then old(buf) else [])
      ensures lost == old(lost) + (if delivered then [] else old(buf))
    {
      if delivered {
        written := written + buf;
      } else {
        lost := lost + buf;
      }
      buf := [];
      bufBytes := 0;
    }

    /** The channel arm of the select loop. */
    method OnReceive(p: Peer)
      requires queue != [] && Answers(p)
      modifies this`queue, this`ignored, this`stream, this`streams, this`sentIdentifier, this`logsWritten, this`wire,
               this`buf, this`bufBytes, this`written, this`lost
      ensures View() == Receive(old(View()), p)
    {
      hide AlsWriter.Flush;
      var x := queue[0];
      queue := queue[1..];
      if x < |items| && items[x].Other? {
        ignored := ignored + [x];
        return;
      }
      Append(x);
      if bufBytes >= limit {
        Flush(p);
      }
    }

    /** The serialized size is only computed when a size threshold will consult it. */
    method Append(x: nat)
      modifies this`buf, this`bufBytes
      ensures buf == old(buf) + [x]
      ensures bufBytes == if limit > 0 then old(bufBytes) + SizeOf(items, x) else old(bufBytes)
    {
      buf := buf + [x];
      if limit > 0 {
        bufBytes := bufBytes + SizeOf(items, x);
      }
    }

    /** The writer's last act once the channel is closed and empty. */
    method Finish(p: Peer)
      requires closed && queue == [] && !done && Answers(p)
      modifies this
      ensures View() == Step(old(View()), DoFinish(p))
    {
      hide AlsWriter.Flush;
      Flush(p);
      done := true;
    }
  }
}
