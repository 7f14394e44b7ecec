/** The drain rendezvous (internal/drain/manager.go) as a machine of single atomic operations, with
    any number of threads inside Drain and Dec at once. */
module Drain {
  import opened Options

  type Tid = nat

  /** The next atomic operation of a thread that is inside a call. */
  datatype Pc =
    | DrainEnter     // at once.Do
    | DrainStore     // first caller, about to store Draining
    | DrainLoad      // about to load inflight
    | DrainClose     // at closeOnce.Do
    | DrainClosing   // inside closeOnce, about to close the channel
    | DrainExit      // about to complete once
    | DecLoad        // the decrement reached zero, about to load the state
    | DecClose       // at closeOnce.Do
    | DecClosing     // inside closeOnce, about to close the channel

  /** sync.Once: later callers block while it runs. */
  datatype Once = Idle | Running(owner: Tid) | Finished

  /** closes counts executions of close(done); held counts Inc calls whose Dec has not begun.
      emptySeen and pendingAtDrain are ledgers: whether inflight was 0 at some moment of draining,
      and whether a Dec that had reached zero was still undecided when Draining was stored. */
  datatype State = State(
    draining: bool, inflight: int, held: nat, closes: nat,
    once: Once, closeOnce: Once, pcs: map<Tid, Pc>,
    emptySeen: bool, pendingAtDrain: bool)

  function Init(): State {
    State(false, 0, 0, 0, Idle, Idle, map[], false, false)
  }

  datatype Event = CallInc | CallDec(t: Tid) | CallDrain(t: Tid) | Go(t: Tid)

  predicate Closed(s: State) { s.closes > 0 }

  predicate Enabled(s: State, e: Event) {
    match e
    case CallInc => true
    case CallDec(t) => t !in s.pcs && s.held > 0
    case CallDrain(t) => t !in s.pcs
    case Go(t) => t in s.pcs && !Blocked(s, s.pcs[t])
  }

  predicate Blocked(s: State, p: Pc) {
    match p
    case DrainEnter => s.once.Running?
    case DrainClose => s.closeOnce.Running?
    case DecClose => s.closeOnce.Running?
    case _ => false
  }

  /** Record the ledger of draining moments after a step. */
  function Noted(s: State): State {
    s.(emptySeen := s.emptySeen || (s.draining && s.inflight == 0))
  }

  function Leave(s: State, t: Tid): State { s.(pcs := s.pcs - {t}) }
  function At(s: State, t: Tid, p: Pc): State { s.(pcs := s.pcs[t := p]) }

  function GoStep(s: State, t: Tid): State
    requires Enabled(s, Go(t))
  {
    match s.pcs[t]
    case DrainEnter => if s.once.Idle? then At(s.(once := Running(t)), t, DrainStore) else Leave(s, t)
    case DrainStore =>
      At(s.(draining := true, pendingAtDrain := exists u :: u in s.pcs && s.pcs[u] == DecLoad), t, DrainLoad)
    case DrainLoad => At(s, t, if s.inflight == 0 then DrainClose else DrainExit)
    case DrainClose => if s.closeOnce.Idle? then At(s.(closeOnce := Running(t)), t, DrainClosing) else At(s, t, DrainExit)
    case DrainClosing => At(s.(closeOnce := Finished, closes := s.closes + 1), t, DrainExit)
    case DrainExit => Leave(s.(once := Finished), t)
    case DecLoad => if s.draining then At(s, t, DecClose) else Leave(s, t)
    case DecClose => if s.closeOnce.Idle? then At(s.(closeOnce := Running(t)), t, DecClosing) else Leave(s, t)
    case DecClosing => Leave(s.(closeOnce := Finished, closes := s.closes + 1), t)
  }

  function Step(s: State, e: Event): State
    requires Enabled(s, e)
  {
    Noted(
      match e
      case CallInc => s.(inflight := s.inflight + 1, held := s.held + 1)
      case CallDec(t) =>
        var n := s.inflight - 1;
        var u := s.(inflight := n, held := s.held - 1);
        if n == 0 then At(u, t, DecLoad) else u
      case CallDrain(t) => At(s, t, DrainEnter)
      case Go(t) => GoStep(s, t))
  }

  function Run(s: State, es: seq<Event>): Option<State>
    decreases es
  {
    if es == [] then Some(s) else if !Enabled(s, es[0]) then None else Run(Step(s, es[0]), es[1..])
  }

  // ---------------------------------------------------------------------------
  // The invariant
  // ---------------------------------------------------------------------------

  /** The threads that will still decide about the rendezvous. */
  predicate Obliged(p: Pc) {
    p.DrainLoad? || p.DrainClose? || p.DrainClosing? || p.DecLoad? || p.DecClose? || p.DecClosing?
  }

  predicate Closing(p: Pc) { p.DrainClosing? || p.DecClosing? }
  predicate InOnce(p: Pc) { p.DrainStore? || p.DrainLoad? || p.DrainClose? || p.DrainClosing? || p.DrainExit? }
  predicate PastStore(p: Pc) { InOnce(p) && !p.DrainStore? }
  predicate Decided(p: Pc) { p.DecClose? || Closing(p) || p.DrainClose? }

  ghost predicate SomeoneObliged(s: State) {
    exists t :: t in s.pcs && Obliged(s.pcs[t])
  }

  ghost predicate ThreadOk(s: State, t: Tid)
    requires t in s.pcs
  {
    var p := s.pcs[t];
    && (InOnce(p) ==> s.once == Running(t))
    && (Closing(p) ==> s.closeOnce == Running(t))
    && (PastStore(p) || Decided(p) ==> s.draining)
    && (p.DrainStore? ==> !s.draining)
    && (Decided(p) || (p.DecLoad? && s.draining) ==> s.emptySeen || s.pendingAtDrain)
  }

  ghost predicate Threads(s: State) {
    forall t :: t in s.pcs ==> ThreadOk(s, t)
  }

  ghost predicate Onces(s: State) {
    && (s.closeOnce.Running? ==> s.closeOnce.owner in s.pcs && Closing(s.pcs[s.closeOnce.owner]))
    && (s.once.Running? ==> s.once.owner in s.pcs && InOnce(s.pcs[s.once.owner]))
    && (s.once.Idle? ==> !s.draining)
    && (s.once.Finished? ==> s.draining)
    && (s.once.Running? ==> s.draining == PastStore(s.pcs[s.once.owner]))
  }

  ghost predicate Counts(s: State) {
    && s.inflight == s.held
    && s.closes == (if s.closeOnce.Finished? then 1 else 0)
    && (Closed(s) ==> s.draining && (s.emptySeen || s.pendingAtDrain))
    && (s.draining && s.inflight == 0 ==> s.emptySeen)
    && (s.emptySeen ==> s.draining)
  }

  /** A rendezvous that is due has somebody on the way to it. */
  ghost predicate Due(s: State) {
    s.draining && s.inflight == 0 && !Closed(s) ==> SomeoneObliged(s)
  }

  ghost predicate Inv(s: State) {
    Threads(s) && Onces(s) && Counts(s) && Due(s)
  }

  lemma GoThreads(s: State, t: Tid)
    requires Threads(s) && Onces(s) && Enabled(s, Go(t))
    ensures Threads(Step(s, Go(t)))
  {
    var u := Step(s, Go(t));
    assert ThreadOk(s, t);
    forall x | x in u.pcs ensures ThreadOk(u, x) {
      if x != t {
        OtherThread(s, t, x);
      }
    }
  }

  lemma OtherThread(s: State, t: Tid, x: Tid)
    requires Threads(s) && Onces(s) && Enabled(s, Go(t)) && x != t && x in s.pcs
    ensures ThreadOk(Step(s, Go(t)), x)
  {
    assert ThreadOk(s, t) && ThreadOk(s, x);
  }

  lemma GoOnces(s: State, t: Tid)
    requires Threads(s) && Onces(s) && Enabled(s, Go(t))
    ensures Onces(Step(s, Go(t)))
  {
    assert ThreadOk(s, t);
    if s.once.Running? {
      assert ThreadOk(s, s.once.owner);
    }
    if s.closeOnce.Running? {
      assert ThreadOk(s, s.closeOnce.owner);
    }
  }

  lemma GoCounts(s: State, t: Tid)
    requires Threads(s) && Onces(s) && Counts(s) && Enabled(s, Go(t))
    ensures Counts(Step(s, Go(t)))
  {
    assert ThreadOk(s, t);
  }

  lemma GoDue(s: State, t: Tid)
    requires Threads(s) && Onces(s) && Counts(s) && Due(s) && Enabled(s, Go(t))
    ensures Due(Step(s, Go(t)))
  {
    var u := Step(s, Go(t));
    assert ThreadOk(s, t);
    if u.draining && u.inflight == 0 && !Closed(u) {
      if Obliged(s.pcs[t]) || s.pcs[t].DrainStore? {
        assert t in u.pcs && Obliged(u.pcs[t]);
      } else {
        var x :| x in s.pcs && Obliged(s.pcs[x]);
        assert x in u.pcs && u.pcs[x] == s.pcs[x];
      }
    }
  }

  lemma GoKeeps(s: State, t: Tid)
    requires Inv(s) && Enabled(s, Go(t))
    ensures Inv(Step(s, Go(t)))
  {
    hide Threads, Onces, Counts, Due, Step, Enabled;
    GoThreads(s, t);
    GoOnces(s, t);
    GoCounts(s, t);
    GoDue(s, t);
  }

  lemma CallKeeps(s: State, e: Event)
    requires Inv(s) && Enabled(s, e) && !e.Go?
    ensures Inv(Step(s, e))
  {
    var u := Step(s, e);
    hide GoStep;
    assert Threads(u) by {
      forall x | x in u.pcs ensures ThreadOk(u, x) {
        assert x in s.pcs ==> ThreadOk(s, x);
      }
    }
    assert Due(u) by {
      if u.draining && u.inflight == 0 && !Closed(u) {
        if e.CallDec? {
          assert e.t in u.pcs && Obliged(u.pcs[e.t]);
        } else {
          var x :| x in s.pcs && Obliged(s.pcs[x]);
          assert x in u.pcs && u.pcs[x] == s.pcs[x];
        }
      }
    }
  }

  lemma InitInv()
    ensures Inv(Init())
  {
  }

  lemma StepKeeps(s: State, e: Event)
    requires Inv(s) && Enabled(s, e)
    ensures Inv(Step(s, e))
  {
    hide Inv, Step, Enabled;
    if e.Go? {
      GoKeeps(s, e.t);
    } else {
      CallKeeps(s, e);
    }
  }

  lemma {:induction false} RunKeeps(s: State, es: seq<Event>)
    requires Inv(s) && Run(s, es).Some?
    ensures Inv(Run(s, es).value)
    decreases es
  {
    hide Inv, Step, Enabled;
    if es == [] {
    } else {
      StepKeeps(s, es[0]);
      RunKeeps(Step(s, es[0]), es[1..]);
    }
  }

  /** No thread is inside Drain or Dec. */
  predicate Quiet(s: State) { s.pcs == map[] }

  /** The rendezvous is never lost: over every interleaving, once no Drain or Dec is mid-call,
      draining with nothing in flight means done is closed. It closes at most once and only after
      the state became Draining, and inflight counts exactly the unmatched Inc calls. */
  lemma RendezvousTheorem(es: seq<Event>)
    requires Run(Init(), es).Some?
    ensures var s := Run(Init(), es).value;
            && (Quiet(s) && s.draining && s.inflight == 0 ==> Closed(s))
            && s.closes <= 1
            && (Closed(s) ==> s.draining)
            && s.inflight == s.held
  {
    hide Run;
    RunKeeps(Init(), es);
  }

  /** Somebody can always move: a thread that waits on a Once waits for a thread that does not. */
  lemma NoDeadlock(es: seq<Event>)
    requires Run(Init(), es).Some? && !Quiet(Run(Init(), es).value)
    ensures var s := Run(Init(), es).value; exists t :: t in s.pcs && !Blocked(s, s.pcs[t])
  {
    hide Run;
    RunKeeps(Init(), es);
    var s := Run(Init(), es).value;
    var t :| t in s.pcs;
    if s.closeOnce.Running? {
      assert !Blocked(s, s.pcs[s.closeOnce.owner]);
    } else if s.once.Running? {
      assert !Blocked(s, s.pcs[s.once.owner]);
    } else {
      assert !Blocked(s, s.pcs[t]);
    }
  }

  // ---------------------------------------------------------------------------
  // When done can close early
  // ---------------------------------------------------------------------------

  /** Once draining, the state stays Draining, an empty moment stays seen, and the undecided Dec calls
      of the moment of Drain stay what they were. */
  ghost predicate Onward(s: State, t: State) {
    s.draining ==> t.draining && t.pendingAtDrain == s.pendingAtDrain && (s.emptySeen ==> t.emptySeen)
  }

  lemma StepOnward(s: State, e: Event)
    requires Inv(s) && Enabled(s, e)
    ensures Onward(s, Step(s, e))
  {
    if e.Go? {
      assert ThreadOk(s, e.t);
    }
  }

  lemma {:induction false} RunOnward(s: State, es: seq<Event>)
    requires Inv(s) && Run(s, es).Some?
    ensures Onward(s, Run(s, es).value) && Inv(Run(s, es).value)
    decreases es
  {
    hide Inv, Step, Enabled;
    if es == [] {
    } else {
      StepOnward(s, es[0]);
      StepKeeps(s, es[0]);
      RunOnward(Step(s, es[0]), es[1..]);
    }
  }

  /** A run that ends with done closed although inflight was never zero while draining. */
  predicate ClosedEarly(r: Option<State>) {
    r.Some? && Closed(r.value) && !r.value.emptySeen
  }

  /** From s some run gets there. */
  ghost predicate MayCloseEarly(s: State) {
    exists fs :: ClosedEarly(Run(s, fs))
  }

  /** A Dec has brought inflight to zero and has not yet looked at the state. */
  ghost predicate DecUndecided(s: State) {
    exists u :: u in s.pcs && s.pcs[u] == DecLoad
  }

  /** One way: with something in flight, an undecided Dec may look late and close. */
  lemma UndecidedMayClose(s: State, t: Tid, u: Tid)
    requires Inv(s) && t in s.pcs && s.pcs[t] == DrainStore && u in s.pcs && s.pcs[u] == DecLoad && s.inflight > 0
    ensures MayCloseEarly(Step(s, Go(t)))
  {
    assert ThreadOk(s, t);
    NobodyCloses(s);
    LateLook(Step(s, Go(t)), u);
  }

  /** Before Draining is stored nobody has started to close. */
  lemma NobodyCloses(s: State)
    requires Inv(s) && !s.draining
    ensures s.closeOnce.Idle? && !s.emptySeen
  {
  }

  lemma LateLook(s: State, u: Tid)
    requires s.draining && !s.emptySeen && s.inflight > 0 && s.closeOnce.Idle? && u in s.pcs && s.pcs[u] == DecLoad
    ensures MayCloseEarly(s)
  {
    RunTwo(s, Go(u), Go(u), [Go(u)]);
    var v := Step(Step(s, Go(u)), Go(u));
    assert Run(v, [Go(u)]) == Run(Step(v, Go(u)), []);
    assert ClosedEarly(Run(s, [Go(u), Go(u)] + [Go(u)]));
  }

  /** The other way: without one, or with nothing in flight, done waits for an empty moment. */
  lemma DecidedWaits(s: State, t: Tid, fs: seq<Event>)
    requires Inv(s) && t in s.pcs && s.pcs[t] == DrainStore && (!DecUndecided(s) || s.inflight <= 0)
    ensures !ClosedEarly(Run(Step(s, Go(t)), fs))
  {
    var s1 := Step(s, Go(t));
    assert s1.draining && (s1.emptySeen || !s1.pendingAtDrain);
    GoKeeps(s, t);
    hide Inv, Step, Enabled, Run;
    if ClosedEarly(Run(s1, fs)) {
      RunOnward(s1, fs);
      ClosedSaw(Run(s1, fs).value);
      assert false;
    }
  }

  lemma ClosedSaw(s: State)
    requires Inv(s) && Closed(s)
    ensures s.emptySeen || s.pendingAtDrain
  {
  }

  /** The exact condition, on the real state at the moment Drain is about to store Draining: done can
      close before inflight has been zero while draining if and only if something is in flight and
      some Dec stands between its zero and its look at the state. */
  lemma EarlyCloseIff(es: seq<Event>, t: Tid)
    requires Run(Init(), es).Some?
    requires var s := Run(Init(), es).value; t in s.pcs && s.pcs[t] == DrainStore
    ensures var s := Run(Init(), es).value;
            MayCloseEarly(Step(s, Go(t))) <==> DecUndecided(s) && s.inflight > 0
  {
    hide Inv, Run, Step, ClosedEarly;
    InitInv();
    RunKeeps(Init(), es);
    var s := Run(Init(), es).value;
    if DecUndecided(s) && s.inflight > 0 {
      var u :| u in s.pcs && s.pcs[u] == DecLoad;
      UndecidedMayClose(s, t, u);
    } else {
      forall fs ensures !ClosedEarly(Run(Step(s, Go(t)), fs)) {
        DecidedWaits(s, t, fs);
      }
    }
  }

  /** The same for whole runs: if no Dec was undecided when Draining was stored, done closes only after
      inflight has been zero while draining. */
  lemma ClosedMeansEmptied(es: seq<Event>)
    requires Run(Init(), es).Some? && !Run(Init(), es).value.pendingAtDrain
    ensures var s := Run(Init(), es).value; Closed(s) ==> s.emptySeen
  {
    hide Run;
    InitInv();
    RunKeeps(Init(), es);
  }

  /** Such a moment is reachable: a Dec reaches zero, a new Inc arrives, and Drain starts before the
      Dec has looked at the state. */
  lemma Crossing()
    ensures var r := Run(Init(), [CallInc, CallDec(0), CallInc, CallDrain(1)] + [Go(1)]);
            r.Some? && 1 in r.value.pcs && r.value.pcs[1] == DrainStore && DecUndecided(r.value) && r.value.inflight == 1
  {
    CrossingCalls();
    RunOn(Init(), [CallInc, CallDec(0), CallInc, CallDrain(1)], [Go(1)]);
    var s4 := State(false, 1, 1, 0, Idle, Idle, map[0 := DecLoad, 1 := DrainEnter], false, false);
    var s5 := Step(s4, Go(1));
    assert Run(s4, [Go(1)]) == Run(s5, []);
    assert 0 in s5.pcs && s5.pcs[0] == DecLoad;
  }

  lemma CrossingCalls()
    ensures Run(Init(), [CallInc, CallDec(0), CallInc, CallDrain(1)])
         == Some(State(false, 1, 1, 0, Idle, Idle, map[0 := DecLoad, 1 := DrainEnter], false, false))
  {
    var s2 := State(false, 0, 0, 0, Idle, Idle, map[0 := DecLoad], false, false);
    assert Step(Step(Init(), CallInc), CallDec(0)) == s2;
    RunTwo(Init(), CallInc, CallDec(0), [CallInc, CallDrain(1)]);
    assert [CallInc, CallDec(0)] + [CallInc, CallDrain(1)] == [CallInc, CallDec(0), CallInc, CallDrain(1)];
    RunTwo(s2, CallInc, CallDrain(1), []);
    assert [CallInc, CallDrain(1)] + [] == [CallInc, CallDrain(1)];
  }

  /** So done does close early in some run: Drain sees the new request, and only then does the Dec look
      at the state and close. */
  lemma EarlyCloseExample()
    ensures MayCloseEarly(Init())
  {
    hide Run, ClosedEarly, Step;
    var es := [CallInc, CallDec(0), CallInc, CallDrain(1)] + [Go(1)];
    Crossing();
    EarlyCloseIff(es, 1);
    var s := Run(Init(), es).value;
    var fs :| ClosedEarly(Run(Step(s, Go(1)), fs));
    GoAfter(Init(), es, 1, fs);
  }

  lemma GoAfter(s: State, es: seq<Event>, t: Tid, fs: seq<Event>)
    requires Run(s, es).Some? && Enabled(Run(s, es).value, Go(t))
    ensures Run(s, es + ([Go(t)] + fs)) == Run(Step(Run(s, es).value, Go(t)), fs)
  {
    hide Step, Enabled;
    RunOn(s, es, [Go(t)] + fs);
    assert ([Go(t)] + fs)[1..] == fs;
  }

  lemma {:induction false} RunOn(s: State, es: seq<Event>, fs: seq<Event>)
    requires Run(s, es).Some?
    ensures Run(s, es + fs) == Run(Run(s, es).value, fs)
    decreases es
  {
    hide Step, Enabled;
    if es == [] {
      assert es + fs == fs;
    } else {
      assert (es + fs)[1..] == es[1..] + fs;
      RunOn(Step(s, es[0]), es[1..], fs);
    }
  }

  lemma RunTwo(s: State, e: Event, f: Event, es: seq<Event>)
    requires Enabled(s, e) && Enabled(Step(s, e), f)
    ensures Run(s, [e, f] + es) == Run(Step(Step(s, e), f), es)
  {
    hide Step, Enabled;
    assert ([e, f] + es)[1..] == [f] + es && ([f] + es)[1..] == es;
  }

  // ---------------------------------------------------------------------------
  // The object
  // ---------------------------------------------------------------------------

  /** The manager when its calls do not overlap: each method is one uninterrupted call. m is the state
      of the machine above after the calls made so far, and trace the atomic operations they took. */
  class Manager {
    var draining: bool
    var inflight: int
    var done: bool
    ghost var m: State
    ghost var trace: seq<Event>

    ghost predicate Traced()
      reads this
    {
      Run(Init(), trace) == Some(m)
    }

    ghost predicate Agrees()
      reads this
    {
      m.draining == draining && m.inflight == inflight && Closed(m) == done
    }

    /** The object is the machine between two calls. */
    ghost predicate Valid()
      reads this
    {
      Traced() && Quiet(m) && Agrees()
    }

    constructor ()
      ensures Valid() && !draining && inflight == 0 && !done
    {
      draining, inflight, done := false, 0, false;
      m, trace := Init(), [];
    }

    /** One atomic operation. */
    ghost method Take(e: Event)
      requires Traced() && Enabled(m, e)
      modifies this`m, this`trace
      ensures Traced() && m == Step(old(m), e) && trace == old(trace) + [e]
      ensures Inv(m)
    {
      hide Inv, Step, Enabled;
      TakeOne(trace, e);
      m, trace := Step(m, e), trace + [e];
      InitInv();
      RunKeeps(Init(), trace);
    }

    /** The promise of the machine, read off the object: nothing in flight while draining means done. */
    lemma Rendezvous()
      requires Valid()
      ensures inflight >= 0
      ensures draining && inflight == 0 ==> done
      ensures done ==> draining
    {
      hide Run;
      RendezvousTheorem(trace);
    }

    /** The body that the first caller runs inside once, up to its last atomic operation. */
    method DrainOnce()
      requires Traced() && Agrees() && !draining && m.pcs == map[0 := DrainStore] && m.closeOnce.Idle?
      modifies this
      ensures Traced() && Agrees() && draining && inflight == old(inflight) && m.pcs == map[0 := DrainExit]
      ensures done == (old(done) || inflight == 0)
    {
      hide Inv, Run;
      draining := true;
      Take(Go(0));
      Take(Go(0));
      if inflight == 0 {
        Take(Go(0));
        done := true;
        Take(Go(0));
      }
    }

    method Drain()
      requires Valid()
      modifies this
      ensures Valid() && draining && inflight == old(inflight)
      ensures done == (old(done) || (!old(draining) && inflight == 0))
    {
      hide Inv, Run;
      Matched();
      Take(CallDrain(0));
      Take(Go(0));
      if !draining {
        DrainOnce();
        Take(Go(0));
      }
    }

    method Inc()
      requires Valid()
      modifies this
      ensures Valid() && inflight == old(inflight) + 1 && draining == old(draining) && done == old(done)
    {
      inflight := inflight + 1;
      Take(CallInc);
    }

    /** The matching end of an Inc. */
    method Dec()
      requires Valid() && inflight > 0
      modifies this
      ensures Valid() && inflight == old(inflight) - 1 && draining == old(draining)
      ensures done == (old(done) || (draining && inflight == 0))
    {
      hide Inv, Run;
      Matched();
      inflight := inflight - 1;
      Take(CallDec(0));
      if inflight == 0 {
        Take(Go(0));
        if draining {
          Take(Go(0));
          if !done {
            Take(Go(0));
            done := true;
          }
        }
      }
    }

    /** Something in flight is an Inc still to be matched. */
    lemma Matched()
      requires Valid()
      ensures inflight == m.held && !m.once.Running? && (draining <==> m.once.Finished?)
      ensures !m.closeOnce.Running? && (done <==> m.closeOnce.Finished?) && (done ==> draining)
    {
      hide Run;
      InitInv();
      RunKeeps(Init(), trace);
    }
  }

  lemma TakeOne(es: seq<Event>, e: Event)
    requires Run(Init(), es).Some? && Enabled(Run(Init(), es).value, e)
    ensures Run(Init(), es + [e]) == Some(Step(Run(Init(), es).value, e))
  {
    hide Step, Enabled;
    RunOn(Init(), es, [e]);
    assert [e][1..] == [];
  }
}
