/** Outlier ejection (internal/cluster/outlier.go, health.go): streak and sweep detectors feed one
    capped ejection, and every availability scan lazily readmits hosts whose time is up. */
module Ejection {
  import SR = SuccessRate
  import opened Arith
  import opened Primes

  datatype Kind = FiveXX | Gateway | LocalOrigin | SuccessRate | FailurePct

  datatype Host = Host(
    healthy: bool, ejected: bool, unejectAt: int,
    consec5xx: nat, consecGw: nat, consecLO: nat,
    window: SR.Window)

  /** One detector's settings; threshold is a streak length or a percentage. */
  datatype Rule = Rule(enabled: bool, threshold: nat, enforcing: nat, minHosts: nat, volume: nat)

  datatype Config = Config(
    maxEjectionPct: nat,
    baseEjectionTime: int,
    splitLocalOrigin: bool,
    five: Rule, gateway: Rule, local: Rule, successRate: Rule, failurePct: Rule)

  function RuleOf(c: Config, k: Kind): Rule {
    match k
    case FiveXX => c.five
    case Gateway => c.gateway
    case LocalOrigin => c.local
    case SuccessRate => c.successRate
    case FailurePct => c.failurePct
  }

  /** unejected counts the readmissions that lowered the gauge, silent those made through a tier's
      or locality's view of the registry, which carries no gauge. Both are ledgers only. */
  datatype State = State(
    hosts: seq<Host>, now: int,
    active: int, enforcedTotal: nat, overflow: nat,
    detected: map<Kind, nat>, enforced: map<Kind, nat>,
    unejected: nat, silent: nat)

  function Get(m: map<Kind, nat>, k: Kind): nat {
    if k in m then m[k] else 0
  }

  function Bump(m: map<Kind, nat>, k: Kind): map<Kind, nat> {
    m[k := Get(m, k) + 1]
  }

  function EnforcedSum(m: map<Kind, nat>): nat {
    Get(m, FiveXX) + Get(m, Gateway) + Get(m, LocalOrigin) + Get(m, SuccessRate) + Get(m, FailurePct)
  }

  function EjectedIn(hosts: seq<Host>): (n: nat)
    ensures n <= |hosts|
  {
    if hosts == [] then 0 else EjectedIn(hosts[..|hosts| - 1]) + One(hosts[|hosts| - 1].ejected)
  }

  function One(b: bool): nat { if b then 1 else 0 }

  function Fresh(): Host {
    Host(true, false, 0, 0, 0, 0, SR.Window(0, 0))
  }

  function Init(n: nat, now: int): State {
    State(seq(n, _ => Fresh()), now, 0, 0, 0, map[], map[], 0, 0)
  }

  // ---------------------------------------------------------------------------
  // Steps
  // ---------------------------------------------------------------------------

  function Put(s: State, i: nat, h: Host): State
    requires i < |s.hosts|
  {
    s.(hosts := s.hosts[i := h])
  }

  predicate Expired(s: State, i: nat)
    requires i < |s.hosts|
  {
    s.hosts[i].ejected && s.now >= s.hosts[i].unejectAt
  }

  /** isEjectedState: readmit host i if its deadline has passed. */
  function Refresh(s: State, i: nat): State
    requires i < |s.hosts|
  {
    if Expired(s, i)
    then Put(s, i, s.hosts[i].(ejected := false)).(active := s.active - 1, unejected := s.unejected + 1)
    else s
  }

  /** The same scan through a tier's or locality's view, which holds no gauge to lower. */
  function TierRefresh(s: State, i: nat): State
    requires i < |s.hosts|
  {
    if Expired(s, i)
    then Put(s, i, s.hosts[i].(ejected := false)).(silent := s.silent + 1)
    else s
  }

  /** What available() answers: healthy and not ejected at this instant. */
  predicate Available(s: State, i: nat)
    requires i < |s.hosts|
  {
    s.hosts[i].healthy && !(s.hosts[i].ejected && s.now < s.hosts[i].unejectAt)
  }

  function RefreshFirst(s: State, k: nat): (t: State)
    requires k <= |s.hosts|
    ensures |t.hosts| == |s.hosts| && t.silent == s.silent && t.now == s.now
  {
    if k == 0 then s else Refresh(RefreshFirst(s, k - 1), k - 1)
  }

  predicate Enforces(enforcing: nat, roll: nat) {
    enforcing >= 100 || (enforcing != 0 && roll < enforcing)
  }

  /** tryEject; the flag says whether this call ejected the host. */
  function TryEject(c: Config, s: State, i: nat, k: Kind, roll: nat): (r: (State, bool))
    requires i < |s.hosts|
    ensures |r.0.hosts| == |s.hosts| && r.0.silent == s.silent
  {
    if s.hosts[i].ejected || !Enforces(RuleOf(c, k).enforcing, roll) then (s, false)
    else
      var t := RefreshFirst(s, |s.hosts|);
      if (EjectedIn(t.hosts) + 1) * 100 > c.maxEjectionPct * |s.hosts| then (t.(overflow := t.overflow + 1), false)
      else
        (Put(t, i, t.hosts[i].(ejected := true, unejectAt := s.now + c.baseEjectionTime)).(
           active := t.active + 1, enforcedTotal := t.enforcedTotal + 1, enforced := Bump(t.enforced, k)),
         true)
  }

  const STREAK_WORD: nat := 0x1_0000_0000

  function Streak(h: Host, k: Kind): nat {
    if k == Gateway then h.consecGw else if k == LocalOrigin then h.consecLO else h.consec5xx
  }

  function SetStreak(h: Host, k: Kind, n: nat): (r: Host)
    ensures r.ejected == h.ejected && r.unejectAt == h.unejectAt
  {
    if k == Gateway then h.(consecGw := n) else if k == LocalOrigin then h.(consecLO := n) else h.(consec5xx := n)
  }

  function BumpStreak(c: Config, s: State, i: nat, k: Kind, roll: nat): (r: (State, bool))
    requires i < |s.hosts|
    ensures |r.0.hosts| == |s.hosts| && r.0.silent == s.silent
  {
    if !RuleOf(c, k).enabled then (s, false)
    else
      var n := (Streak(s.hosts[i], k) + 1) % STREAK_WORD;
      var t := Put(s, i, SetStreak(s.hosts[i], k, n));
      if n < RuleOf(c, k).threshold then (t, false)
      else TryEject(c, t.(detected := Bump(t.detected, k)), i, k, roll)
  }

  predicate GatewayClass(code: int) {
    code == 502 || code == 503 || code == 504
  }

  function RecordExternal5xx(c: Config, s: State, i: nat, code: int, roll: Kind -> nat): (t: State)
    requires i < |s.hosts|
    ensures t.silent == s.silent
  {
    if GatewayClass(code) then
      var (t, done) := BumpStreak(c, s, i, Gateway, roll(Gateway));
      if done then t else BumpStreak(c, t, i, FiveXX, roll(FiveXX)).0
    else
      BumpStreak(c, Put(s, i, SetStreak(s.hosts[i], Gateway, 0)), i, FiveXX, roll(FiveXX)).0
  }

  predicate ServerError(code: int) {
    500 <= code < 600
  }

  function CountWindow(h: Host, ok: bool): (r: Host)
    ensures r.ejected == h.ejected && r.unejectAt == h.unejectAt
  {
    h.(window := SR.Window(h.window.total + 1, h.window.success + One(ok)))
  }

  /** The two bookkeeping writes at the head of record. */
  function Counted(s: State, i: nat, ok: bool): (t: State)
    requires i < |s.hosts|
    ensures |t.hosts| == |s.hosts| && t.silent == s.silent
  {
    var r := Refresh(s, i);
    Put(r, i, CountWindow(r.hosts[i], ok))
  }

  /** The external half of record. */
  function External(c: Config, t: State, i: nat, code: int, roll: Kind -> nat): (r: State)
    requires i < |t.hosts|
    ensures r.silent == t.silent
  {
    var u := if c.splitLocalOrigin then Put(t, i, SetStreak(t.hosts[i], LocalOrigin, 0)) else t;
    if !ServerError(code) then Put(u, i, SetStreak(SetStreak(u.hosts[i], FiveXX, 0), Gateway, 0))
    else RecordExternal5xx(c, u, i, code, roll)
  }

  /** record: one upstream result for endpoint i; an unknown endpoint is ignored. */
  function Record(c: Config, s: State, i: nat, code: int, localOrigin: bool, roll: Kind -> nat): State {
    if i >= |s.hosts| then s
    else
      var t := Counted(s, i, !localOrigin && !ServerError(code));
      if !localOrigin then External(c, t, i, code, roll)
      else if !c.splitLocalOrigin then RecordExternal5xx(c, t, i, code, roll)
      else BumpStreak(c, t, i, LocalOrigin, roll(LocalOrigin)).0
  }

  // The sweep

  function SnapOf(s: State): (snap: seq<SR.Window>)
    ensures |snap| == |s.hosts|
  {
    seq(|s.hosts|, i requires 0 <= i < |s.hosts| => s.hosts[i].window)
  }

  /** Refresh each of the first k hosts and swap its window to zero. */
  function ResetFirst(s: State, k: nat): (t: State)
    requires k <= |s.hosts|
    ensures |t.hosts| == |s.hosts| && t.silent == s.silent
  {
    if k == 0 then s
    else
      var t := Refresh(ResetFirst(s, k - 1), k - 1);
      Put(t, k - 1, t.hosts[k - 1].(window := SR.Window(0, 0)))
  }

  /** The integer test of the failure-percentage detector, in 64-bit words. */
  predicate FailsTooOften(w: SR.Window, threshold: nat) {
    Wrap((w.total - w.success) % WORD * 100) >= Wrap(threshold * w.total)
  }

  /** Below 2^64 / 100 requests in a window the test is exact: failures are at least the threshold
      percentage of the total. */
  lemma FailureTestExact(w: SR.Window, threshold: nat)
    requires w.success <= w.total && w.total * 100 < WORD && threshold <= 100
    ensures FailsTooOften(w, threshold) <==> (w.total - w.success) * 100 >= threshold * w.total
  {
    ProductFits(threshold, w.total);
    var f, p := (w.total - w.success) * 100, threshold * w.total;
    Small(w.total - w.success);
    Small(f);
    Small(p);
  }

  lemma Small(x: nat)
    requires x < WORD
    ensures x % WORD == x && Wrap(x) == x
  {
  }

  lemma ProductFits(threshold: nat, total: nat)
    requires threshold <= 100 && total * 100 < WORD
    ensures threshold * total < WORD
  {
    MulMono(threshold, 100, total);
  }

  function FailureOutliers(snap: seq<SR.Window>, es: seq<nat>, threshold: nat): (fs: seq<nat>)
    requires forall i :: 0 <= i < |es| ==> es[i] < |snap|
    ensures forall j :: 0 <= j < |fs| ==> fs[j] < |snap|
  {
    if es == [] then []
    else
      var n := |es| - 1;
      var front := FailureOutliers(snap, es[..n], threshold);
      if FailsTooOften(snap[es[n]], threshold) then front + [es[n]] else front
  }

  function FailureFlags(c: Config, snap: seq<SR.Window>): (fs: seq<nat>)
    ensures forall j :: 0 <= j < |fs| ==> fs[j] < |snap|
  {
    var es := SR.EligibleIn(snap, c.failurePct.volume);
    if |es| < c.failurePct.minHosts then [] else FailureOutliers(snap, es, c.failurePct.threshold)
  }

  /** Count each flagged host as detected and try to eject it, in order. */
  function EjectAll(c: Config, s: State, flagged: seq<nat>, k: Kind, roll: nat -> nat): (t: State)
    requires forall j :: 0 <= j < |flagged| ==> flagged[j] < |s.hosts|
    ensures |t.hosts| == |s.hosts| && t.silent == s.silent
  {
    if flagged == [] then s
    else
      var n := |flagged| - 1;
      var t := EjectAll(c, s, flagged[..n], k, roll);
      TryEject(c, t.(detected := Bump(t.detected, k)), flagged[n], k, roll(flagged[n])).0
  }

  function Sweep(c: Config, s: State, sqrt: real -> real, srRoll: nat -> nat, fpRoll: nat -> nat): State {
    var snap := SnapOf(s);
    var t := ResetFirst(s, |s.hosts|);
    var u := EjectAll(c, t, SR.Outliers(snap, c.successRate.volume, c.successRate.minHosts, c.successRate.threshold, sqrt),
                      SuccessRate, srRoll);
    EjectAll(c, u, FailureFlags(c, snap), FailurePct, fpRoll)
  }

  datatype Event =
    | Tick(elapsed: nat)
    | Result(ep: nat, code: int, localOrigin: bool, roll: Kind -> nat)
    | Sweeping(sqrt: real -> real, srRoll: nat -> nat, fpRoll: nat -> nat)
    | Scan(ep: nat)
    | TierScan(ep: nat)
    | Probe(ep: nat, healthy: bool)

  /** A scan stops at an unhealthy host before it looks at the ejection. */
  function Step(c: Config, s: State, e: Event): State {
    match e
    case Tick(d) => s.(now := s.now + d)
    case Result(i, code, local, roll) => Record(c, s, i, code, local, roll)
    case Sweeping(sqrt, sr, fp) => Sweep(c, s, sqrt, sr, fp)
    case Scan(i) => if i < |s.hosts| && s.hosts[i].healthy then Refresh(s, i) else s
    case TierScan(i) => if i < |s.hosts| && s.hosts[i].healthy then TierRefresh(s, i) else s
    case Probe(i, b) => if i < |s.hosts| then Put(s, i, s.hosts[i].(healthy := b)) else s
  }

  function Run(c: Config, s: State, es: seq<Event>): State
    decreases es
  {
    if es == [] then s else Run(c, Step(c, s, es[0]), es[1..])
  }

  // ---------------------------------------------------------------------------
  // What every step keeps
  // ---------------------------------------------------------------------------

  ghost predicate Inv(c: Config, s: State) {
    && EjectedIn(s.hosts) * 100 <= c.maxEjectionPct * |s.hosts|
    && s.active == EjectedIn(s.hosts) + s.silent
    && s.enforcedTotal == EnforcedSum(s.enforced)
    && s.enforcedTotal == s.active + s.unejected
  }

  /** t follows s: time has not gone back, and a host whose deadline is still ahead is still out. */
  ghost predicate Follows(s: State, t: State) {
    && |t.hosts| == |s.hosts| && s.now <= t.now
    && forall i :: 0 <= i < |s.hosts| && s.hosts[i].ejected && t.now < s.hosts[i].unejectAt ==>
         t.hosts[i].ejected && t.hosts[i].unejectAt == s.hosts[i].unejectAt
  }

  ghost predicate Keeps(c: Config, s: State, t: State) {
    (Inv(c, s) ==> Inv(c, t)) && Follows(s, t)
  }

  lemma KeepsTrans(c: Config, s: State, t: State, u: State)
    requires Keeps(c, s, t) && Keeps(c, t, u)
    ensures Keeps(c, s, u)
  {
  }

  lemma {:induction false} EjectedAfter(hosts: seq<Host>, i: nat, h: Host)
    requires i < |hosts|
    ensures EjectedIn(hosts[i := h]) + One(hosts[i].ejected) == EjectedIn(hosts) + One(h.ejected)
  {
    var n := |hosts| - 1;
    if i < n {
      EjectedAfter(hosts[..n], i, h);
      assert hosts[i := h][..n] == hosts[..n][i := h];
    } else {
      assert hosts[i := h][..n] == hosts[..n];
    }
  }

  lemma PutKeeps(c: Config, s: State, i: nat, h: Host)
    requires i < |s.hosts| && h.ejected == s.hosts[i].ejected && h.unejectAt == s.hosts[i].unejectAt
    ensures Keeps(c, s, Put(s, i, h))
  {
    EjectedAfter(s.hosts, i, h);
  }

  lemma RefreshKeeps(c: Config, s: State, i: nat)
    requires i < |s.hosts|
    ensures Keeps(c, s, Refresh(s, i))
  {
    EjectedAfter(s.hosts, i, s.hosts[i].(ejected := false));
  }

  lemma TierRefreshKeeps(c: Config, s: State, i: nat)
    requires i < |s.hosts|
    ensures Keeps(c, s, TierRefresh(s, i))
  {
    EjectedAfter(s.hosts, i, s.hosts[i].(ejected := false));
  }

  /** A step that only moves the detected or overflow counters. */
  lemma CounterKeeps(c: Config, s: State, detected: map<Kind, nat>, overflow: nat)
    ensures Keeps(c, s, s.(detected := detected, overflow := overflow))
  {
  }

  ghost predicate LeavesIn(s: State, t: State) {
    t.now == s.now && |t.hosts| == |s.hosts|
    && forall i :: 0 <= i < |s.hosts| && !s.hosts[i].ejected ==> t.hosts[i] == s.hosts[i]
  }

  lemma RefreshLeavesIn(s: State, t: State, i: nat)
    requires LeavesIn(s, t) && i < |t.hosts|
    ensures LeavesIn(s, Refresh(t, i))
  {
  }

  lemma {:induction false} RefreshFirstKeeps(c: Config, s: State, k: nat)
    requires k <= |s.hosts|
    ensures Keeps(c, s, RefreshFirst(s, k)) && LeavesIn(s, RefreshFirst(s, k))
  {
    if k > 0 {
      hide Keeps, LeavesIn, Refresh;
      RefreshFirstKeeps(c, s, k - 1);
      RefreshLeavesIn(s, RefreshFirst(s, k - 1), k - 1);
      RefreshKeeps(c, RefreshFirst(s, k - 1), k - 1);
      KeepsTrans(c, s, RefreshFirst(s, k - 1), RefreshFirst(s, k));
    } else {
      CounterKeeps(c, s, s.detected, s.overflow);
    }
  }

  lemma EjectKeeps(c: Config, t: State, i: nat, k: Kind, deadline: int)
    requires i < |t.hosts| && !t.hosts[i].ejected
    requires (EjectedIn(t.hosts) + 1) * 100 <= c.maxEjectionPct * |t.hosts|
    ensures Keeps(c, t, Put(t, i, t.hosts[i].(ejected := true, unejectAt := deadline)).(
              active := t.active + 1, enforcedTotal := t.enforcedTotal + 1, enforced := Bump(t.enforced, k)))
  {
    EjectedAfter(t.hosts, i, t.hosts[i].(ejected := true, unejectAt := deadline));
  }

  lemma TryEjectKeeps(c: Config, s: State, i: nat, k: Kind, roll: nat)
    requires i < |s.hosts|
    ensures Keeps(c, s, TryEject(c, s, i, k, roll).0)
  {
    hide Keeps, EjectedIn;
    CounterKeeps(c, s, s.detected, s.overflow);
    RefreshFirstKeeps(c, s, |s.hosts|);
    var t := RefreshFirst(s, |s.hosts|);
    if !s.hosts[i].ejected && Enforces(RuleOf(c, k).enforcing, roll) {
      if (EjectedIn(t.hosts) + 1) * 100 <= c.maxEjectionPct * |s.hosts| {
        EjectKeeps(c, t, i, k, s.now + c.baseEjectionTime);
      } else {
        CounterKeeps(c, t, t.detected, t.overflow + 1);
      }
      KeepsTrans(c, s, t, TryEject(c, s, i, k, roll).0);
    }
  }

  lemma DetectKeeps(c: Config, s: State, i: nat, k: Kind, roll: nat)
    requires i < |s.hosts|
    ensures Keeps(c, s, TryEject(c, s.(detected := Bump(s.detected, k)), i, k, roll).0)
  {
    hide Keeps, TryEject;
    var t := s.(detected := Bump(s.detected, k));
    CounterKeeps(c, s, t.detected, s.overflow);
    TryEjectKeeps(c, t, i, k, roll);
    KeepsTrans(c, s, t, TryEject(c, t, i, k, roll).0);
  }

  lemma BumpStreakKeeps(c: Config, s: State, i: nat, k: Kind, roll: nat)
    requires i < |s.hosts|
    ensures Keeps(c, s, BumpStreak(c, s, i, k, roll).0)
  {
    hide Keeps, TryEject, SetStreak;
    CounterKeeps(c, s, s.detected, s.overflow);
    var n := (Streak(s.hosts[i], k) + 1) % STREAK_WORD;
    var h := SetStreak(s.hosts[i], k, n);
    PutKeeps(c, s, i, h);
    var t := Put(s, i, h);
    DetectKeeps(c, t, i, k, roll);
    KeepsTrans(c, s, t, TryEject(c, t.(detected := Bump(t.detected, k)), i, k, roll).0);
  }

  lemma Record5xxKeeps(c: Config, s: State, i: nat, code: int, roll: Kind -> nat)
    requires i < |s.hosts|
    ensures Keeps(c, s, RecordExternal5xx(c, s, i, code, roll))
  {
    hide BumpStreak, Keeps, SetStreak;
    if GatewayClass(code) {
      BumpStreakKeeps(c, s, i, Gateway, roll(Gateway));
      var t := BumpStreak(c, s, i, Gateway, roll(Gateway)).0;
      BumpStreakKeeps(c, t, i, FiveXX, roll(FiveXX));
      KeepsTrans(c, s, t, BumpStreak(c, t, i, FiveXX, roll(FiveXX)).0);
    } else {
      var h := SetStreak(s.hosts[i], Gateway, 0);
      PutKeeps(c, s, i, h);
      BumpStreakKeeps(c, Put(s, i, h), i, FiveXX, roll(FiveXX));
      KeepsTrans(c, s, Put(s, i, h), BumpStreak(c, Put(s, i, h), i, FiveXX, roll(FiveXX)).0);
    }
  }

  lemma CountedKeeps(c: Config, s: State, i: nat, ok: bool)
    requires i < |s.hosts|
    ensures Keeps(c, s, Counted(s, i, ok))
  {
    hide Keeps;
    RefreshKeeps(c, s, i);
    var r := Refresh(s, i);
    PutKeeps(c, r, i, CountWindow(r.hosts[i], ok));
    KeepsTrans(c, s, r, Counted(s, i, ok));
  }

  lemma RecordKeeps(c: Config, s: State, i: nat, code: int, localOrigin: bool, roll: Kind -> nat)
    ensures Keeps(c, s, Record(c, s, i, code, localOrigin, roll))
  {
    hide Keeps, BumpStreak, RecordExternal5xx, Counted, External;
    if i >= |s.hosts| {
      CounterKeeps(c, s, s.detected, s.overflow);
    } else {
      var t := Counted(s, i, !localOrigin && !ServerError(code));
      CountedKeeps(c, s, i, !localOrigin && !ServerError(code));
      if localOrigin {
        Record5xxKeeps(c, t, i, code, roll);
        BumpStreakKeeps(c, t, i, LocalOrigin, roll(LocalOrigin));
      } else {
        ExternalKeeps(c, t, i, code, roll);
      }
      KeepsTrans(c, s, t, Record(c, s, i, code, localOrigin, roll));
    }
  }

  lemma ExternalKeeps(c: Config, t: State, i: nat, code: int, roll: Kind -> nat)
    requires i < |t.hosts|
    ensures Keeps(c, t, External(c, t, i, code, roll))
  {
    hide Keeps, RecordExternal5xx, SetStreak;
    var h := if c.splitLocalOrigin then SetStreak(t.hosts[i], LocalOrigin, 0) else t.hosts[i];
    PutKeeps(c, t, i, h);
    CounterKeeps(c, t, t.detected, t.overflow);
    var u := if c.splitLocalOrigin then Put(t, i, h) else t;
    PutKeeps(c, u, i, SetStreak(SetStreak(u.hosts[i], FiveXX, 0), Gateway, 0));
    Record5xxKeeps(c, u, i, code, roll);
    KeepsTrans(c, t, u, External(c, t, i, code, roll));
  }

  lemma {:induction false} EjectAllKeeps(c: Config, s: State, flagged: seq<nat>, k: Kind, roll: nat -> nat)
    requires forall j :: 0 <= j < |flagged| ==> flagged[j] < |s.hosts|
    ensures Keeps(c, s, EjectAll(c, s, flagged, k, roll))
  {
    hide Keeps, TryEject;
    if flagged == [] {
      CounterKeeps(c, s, s.detected, s.overflow);
    } else {
      var n := |flagged| - 1;
      EjectAllKeeps(c, s, flagged[..n], k, roll);
      var t := EjectAll(c, s, flagged[..n], k, roll);
      DetectKeeps(c, t, flagged[n], k, roll(flagged[n]));
      KeepsTrans(c, s, t, EjectAll(c, s, flagged, k, roll));
    }
  }

  lemma {:induction false} ResetKeeps(c: Config, s: State, k: nat)
    requires k <= |s.hosts|
    ensures Keeps(c, s, ResetFirst(s, k))
  {
    hide Keeps, Refresh;
    if k == 0 {
      CounterKeeps(c, s, s.detected, s.overflow);
    } else {
      ResetKeeps(c, s, k - 1);
      var t := ResetFirst(s, k - 1);
      ZeroKeeps(c, t, k - 1);
      KeepsTrans(c, s, t, ResetFirst(s, k));
    }
  }

  lemma ZeroKeeps(c: Config, s: State, i: nat)
    requires i < |s.hosts|
    ensures var t := Refresh(s, i);
            |t.hosts| == |s.hosts| && Keeps(c, s, Put(t, i, t.hosts[i].(window := SR.Window(0, 0))))
  {
    hide Keeps;
    RefreshKeeps(c, s, i);
    var t := Refresh(s, i);
    PutKeeps(c, t, i, t.hosts[i].(window := SR.Window(0, 0)));
    KeepsTrans(c, s, t, Put(t, i, t.hosts[i].(window := SR.Window(0, 0))));
  }

  lemma SweepKeeps(c: Config, s: State, sqrt: real -> real, srRoll: nat -> nat, fpRoll: nat -> nat)
    ensures Keeps(c, s, Sweep(c, s, sqrt, srRoll, fpRoll))
  {
    hide Keeps, SR.Outliers, FailureFlags, EjectAll, ResetFirst;
    var snap, t := SnapOf(s), ResetFirst(s, |s.hosts|);
    var slow := SR.Outliers(snap, c.successRate.volume, c.successRate.minHosts, c.successRate.threshold, sqrt);
    var u := EjectAll(c, t, slow, SuccessRate, srRoll);
    ResetKeeps(c, s, |s.hosts|);
    EjectAllKeeps(c, t, slow, SuccessRate, srRoll);
    EjectAllKeeps(c, u, FailureFlags(c, snap), FailurePct, fpRoll);
    KeepsTrans(c, s, t, u);
    KeepsTrans(c, s, u, Sweep(c, s, sqrt, srRoll, fpRoll));
  }

  lemma StepKeeps(c: Config, s: State, e: Event)
    ensures Keeps(c, s, Step(c, s, e))
  {
    hide Keeps, Record, Sweep, Refresh, TierRefresh;
    CounterKeeps(c, s, s.detected, s.overflow);
    match e
    case Tick(d) => TickKeeps(c, s, d);
    case Result(i, code, local, roll) => RecordKeeps(c, s, i, code, local, roll);
    case Sweeping(sqrt, sr, fp) => SweepKeeps(c, s, sqrt, sr, fp);
    case Scan(i) => if i < |s.hosts| { RefreshKeeps(c, s, i); }
    case TierScan(i) => if i < |s.hosts| { TierRefreshKeeps(c, s, i); }
    case Probe(i, b) => if i < |s.hosts| { PutKeeps(c, s, i, s.hosts[i].(healthy := b)); }
  }

  lemma TickKeeps(c: Config, s: State, d: nat)
    ensures Keeps(c, s, s.(now := s.now + d))
  {
  }

  lemma {:induction false} RunKeeps(c: Config, s: State, es: seq<Event>)
    ensures Keeps(c, s, Run(c, s, es))
    decreases es
  {
    hide Keeps, Step;
    if es == [] {
      CounterKeeps(c, s, s.detected, s.overflow);
    } else {
      StepKeeps(c, s, es[0]);
      RunKeeps(c, Step(c, s, es[0]), es[1..]);
      KeepsTrans(c, s, Step(c, s, es[0]), Run(c, s, es));
    }
  }

  lemma {:induction false} InitEjected(n: nat)
    ensures EjectedIn(seq(n, _ => Fresh())) == 0
  {
    if n == 0 {
    } else {
      InitEjected(n - 1);
      assert seq(n, _ => Fresh())[..n - 1] == seq(n - 1, _ => Fresh());
    }
  }

  /** Over every run of results, sweeps, scans, probes and clock ticks: the ejected hosts never
      exceed the configured share, and the counters add up. */
  lemma EjectionSafety(c: Config, n: nat, now: int, es: seq<Event>)
    ensures var s := Run(c, Init(n, now), es);
            && EjectedIn(s.hosts) * 100 <= c.maxEjectionPct * n
            && s.active == EjectedIn(s.hosts) + s.silent
            && s.enforcedTotal == EnforcedSum(s.enforced) == s.active + s.unejected
  {
    hide Run, EjectedIn;
    InitEjected(n);
    RunKeeps(c, Init(n, now), es);
  }

  /** An ejected host stays ejected and unavailable until its deadline, whatever happens in between. */
  lemma OutUntilDeadline(c: Config, s: State, es: seq<Event>, i: nat)
    requires i < |s.hosts| && s.hosts[i].ejected
    ensures var t := Run(c, s, es);
            && i < |t.hosts|
            && (t.now < s.hosts[i].unejectAt ==> t.hosts[i].ejected && !Available(t, i))
  {
    hide Run, Inv;
    RunKeeps(c, s, es);
  }

  // ---------------------------------------------------------------------------
  // The gauge
  // ---------------------------------------------------------------------------

  /** The event readmits a host through a view, which has no gauge to lower. */
  predicate Slips(s: State, e: Event) {
    e.TierScan? && e.ep < |s.hosts| && s.hosts[e.ep].healthy && Expired(s, e.ep)
  }

  /** How often that happens in a run. */
  function Slipped(c: Config, s: State, es: seq<Event>): (n: nat)
    decreases es
  {
    if es == [] then 0 else One(Slips(s, es[0])) + Slipped(c, Step(c, s, es[0]), es[1..])
  }

  lemma StepSlips(c: Config, s: State, e: Event)
    ensures Step(c, s, e).silent == s.silent + One(Slips(s, e))
  {
    hide TryEject, BumpStreak, RecordExternal5xx, EjectAll, ResetFirst;
  }

  lemma {:induction false} RunSlips(c: Config, s: State, es: seq<Event>)
    ensures Run(c, s, es).silent == s.silent + Slipped(c, s, es)
    decreases es
  {
    hide Step, Slips;
    if es == [] {
    } else {
      StepSlips(c, s, es[0]);
      RunSlips(c, Step(c, s, es[0]), es[1..]);
    }
  }

  /** No event of the run slips. */
  ghost predicate NeverSlips(c: Config, s: State, es: seq<Event>) {
    forall j :: 0 <= j < |es| ==> !Slips(Run(c, s, es[..j]), es[j])
  }

  lemma NeverSlipsTail(c: Config, s: State, es: seq<Event>)
    requires es != []
    ensures NeverSlips(c, s, es) <==> !Slips(s, es[0]) && NeverSlips(c, Step(c, s, es[0]), es[1..])
  {
    hide Step, Slips;
    var tail, t := es[1..], Step(c, s, es[0]);
    assert Run(c, s, es[..0]) == s;
    forall j | 0 <= j < |tail| ensures tail[j] == es[j + 1] && Run(c, t, tail[..j]) == Run(c, s, es[..j + 1]) {
      assert es[..j + 1][1..] == tail[..j];
    }
    if NeverSlips(c, t, tail) && !Slips(s, es[0]) {
      forall j | 0 <= j < |es| ensures !Slips(Run(c, s, es[..j]), es[j]) {
        if j > 0 {
          assert es[j] == tail[j - 1];
        }
      }
    }
  }

  lemma {:induction false} SlippedNone(c: Config, s: State, es: seq<Event>)
    ensures Slipped(c, s, es) == 0 <==> NeverSlips(c, s, es)
    decreases es
  {
    hide Step, Slips, NeverSlips;
    if es == [] {
      assert NeverSlips(c, s, []) by { NoEventNoSlip(c, s); }
    } else {
      NeverSlipsTail(c, s, es);
      SlippedNone(c, Step(c, s, es[0]), es[1..]);
    }
  }

  lemma NoEventNoSlip(c: Config, s: State)
    ensures NeverSlips(c, s, [])
  {
  }

  /** The gauge over a whole run: it exceeds the ejected hosts by exactly the slips, so it is the
      number of ejected hosts if and only if no scan through a view met a healthy host whose
      deadline had passed. */
  lemma GaugeExact(c: Config, n: nat, now: int, es: seq<Event>)
    ensures var s := Run(c, Init(n, now), es);
            && s.active == EjectedIn(s.hosts) + Slipped(c, Init(n, now), es)
            && (s.active == EjectedIn(s.hosts) <==> NeverSlips(c, Init(n, now), es))
  {
    hide Run, EjectedIn, NeverSlips, Slipped;
    EjectionSafety(c, n, now, es);
    RunSlips(c, Init(n, now), es);
    SlippedNone(c, Init(n, now), es);
  }

  // One pick of a wrapper balancer: it counts the available hosts of every group through the shared
  // registry, and the child it then chooses scans its own hosts through the view.

  function SharedScan(n: nat): (es: seq<Event>) {
    seq(n, i requires 0 <= i < n => Scan(i))
  }

  function ViewScan(q: seq<nat>): (es: seq<Event>) {
    seq(|q|, j requires 0 <= j < |q| => TierScan(q[j]))
  }

  /** The events of one pick: between is what other goroutines and the clock do in its middle, q the
      hosts the child scans. */
  function PickEvents(n: nat, between: seq<Event>, q: seq<nat>): (es: seq<Event>) {
    SharedScan(n) + between + ViewScan(q)
  }

  lemma {:induction false} RunOn(c: Config, s: State, es: seq<Event>, fs: seq<Event>)
    ensures Run(c, s, es + fs) == Run(c, Run(c, s, es), fs)
    decreases es
  {
    hide Step;
    if es == [] {
      assert es + fs == fs;
    } else {
      assert (es + fs)[1..] == es[1..] + fs;
      RunOn(c, Step(c, s, es[0]), es[1..], fs);
    }
  }

  lemma RunOne(c: Config, s: State, e: Event)
    ensures Run(c, s, [e]) == Step(c, s, e)
  {
    hide Step;
    assert [e][1..] == [];
  }

  /** No host among the first k is healthy and expired. */
  ghost predicate Cleared(s: State, k: nat) {
    k <= |s.hosts| && forall i :: 0 <= i < k ==> !(s.hosts[i].healthy && Expired(s, i))
  }

  /** The shared scan leaves no healthy expired host behind. */
  lemma {:induction false} SharedScanClears(c: Config, s: State, k: nat)
    requires k <= |s.hosts|
    ensures var t := Run(c, s, SharedScan(k));
            Cleared(t, k) && |t.hosts| == |s.hosts| && t.now == s.now && t.silent == s.silent
  {
    if k == 0 {
      assert SharedScan(0) == [];
    } else {
      SharedScanClears(c, s, k - 1);
      assert SharedScan(k) == SharedScan(k - 1) + [Scan(k - 1)];
      RunOn(c, s, SharedScan(k - 1), [Scan(k - 1)]);
      RunOne(c, Run(c, s, SharedScan(k - 1)), Scan(k - 1));
      ScanClears(c, Run(c, s, SharedScan(k - 1)), k - 1);
    }
  }

  lemma ScanClears(c: Config, s: State, i: nat)
    requires i < |s.hosts| && Cleared(s, i)
    ensures var t := Step(c, s, Scan(i));
            Cleared(t, i + 1) && |t.hosts| == |s.hosts| && t.now == s.now && t.silent == s.silent
  {
  }

  /** With nobody to readmit, the shared scan changes nothing. */
  lemma {:induction false} SharedScanIdle(c: Config, s: State, k: nat)
    requires k <= |s.hosts| && Cleared(s, |s.hosts|)
    ensures Run(c, s, SharedScan(k)) == s
  {
    if k == 0 {
      assert SharedScan(0) == [];
    } else {
      SharedScanIdle(c, s, k - 1);
      assert SharedScan(k) == SharedScan(k - 1) + [Scan(k - 1)];
      RunOn(c, s, SharedScan(k - 1), [Scan(k - 1)]);
      RunOne(c, s, Scan(k - 1));
    }
  }

  /** A view scan of some host in q slips. */
  ghost predicate WillSlip(s: State, q: seq<nat>) {
    exists j :: 0 <= j < |q| && q[j] < |s.hosts| && s.hosts[q[j]].healthy && Expired(s, q[j])
  }

  lemma {:induction false} ViewScanSlips(c: Config, s: State, q: seq<nat>)
    ensures Run(c, s, ViewScan(q)).silent != s.silent <==> WillSlip(s, q)
    decreases q
  {
    var es := ViewScan(q);
    if q == [] {
      assert es == [];
    } else {
      assert es[1..] == ViewScan(q[1..]);
      StepSlips(c, s, es[0]);
      RunSlips(c, Step(c, s, es[0]), es[1..]);
      if !Slips(s, es[0]) {
        assert Step(c, s, es[0]) == s;
        ViewScanSlips(c, s, q[1..]);
        WillSlipTail(s, q);
      }
    }
  }

  lemma WillSlipTail(s: State, q: seq<nat>)
    requires q != [] && !(q[0] < |s.hosts| && s.hosts[q[0]].healthy && Expired(s, q[0]))
    ensures WillSlip(s, q) <==> WillSlip(s, q[1..])
  {
    if WillSlip(s, q) {
      var j :| 0 <= j < |q| && q[j] < |s.hosts| && s.hosts[q[j]].healthy && Expired(s, q[j]);
      assert q[1..][j - 1] == q[j];
    }
    if WillSlip(s, q[1..]) {
      var j :| 0 <= j < |q| - 1 && q[1..][j] < |s.hosts| && s.hosts[q[1..][j]].healthy && Expired(s, q[1..][j]);
      assert q[j + 1] == q[1..][j];
    }
  }

  lemma PickRuns(c: Config, s: State, between: seq<Event>, q: seq<nat>)
    ensures var s1 := Run(c, s, SharedScan(|s.hosts|));
            Run(c, s, PickEvents(|s.hosts|, between, q)) == Run(c, Run(c, s1, between), ViewScan(q))
  {
    hide Run;
    RunOn(c, s, SharedScan(|s.hosts|), between);
    RunOn(c, s, SharedScan(|s.hosts|) + between, ViewScan(q));
  }

  /** Whatever other goroutines do between its two scans, a pick moves the gauge away from the ejected
      hosts exactly if its child scans a host that is by then healthy, still ejected and past its
      deadline. */
  lemma PickDriftsIff(c: Config, s: State, between: seq<Event>, q: seq<nat>)
    ensures var s2 := Run(c, Run(c, s, SharedScan(|s.hosts|)), between);
            Run(c, s, PickEvents(|s.hosts|, between, q)).silent != s2.silent <==> WillSlip(s2, q)
  {
    hide Run, WillSlip;
    PickRuns(c, s, between, q);
    ViewScanSlips(c, Run(c, Run(c, s, SharedScan(|s.hosts|)), between), q);
  }

  /** Only the clock and the health prober move. */
  ghost predicate Passive(es: seq<Event>) {
    forall j :: 0 <= j < |es| ==> es[j].Tick? || es[j].Probe?
  }

  /** Ejections, deadlines and ledgers are as before, and time has not gone back. */
  ghost predicate SameEjections(s: State, t: State) {
    && |t.hosts| == |s.hosts| && s.now <= t.now && t.silent == s.silent
    && forall i :: 0 <= i < |s.hosts| ==> t.hosts[i].ejected == s.hosts[i].ejected && t.hosts[i].unejectAt == s.hosts[i].unejectAt
  }

  lemma {:induction false} PassiveKeepsEjections(c: Config, s: State, es: seq<Event>)
    requires Passive(es)
    ensures SameEjections(s, Run(c, s, es))
    decreases es
  {
    if es == [] {
    } else {
      assert es[0].Tick? || es[0].Probe?;
      assert forall j :: 0 <= j < |es[1..]| ==> es[1..][j] == es[j + 1];
      PassiveKeepsEjections(c, Step(c, s, es[0]), es[1..]);
    }
  }

  /** Between the shared scan, in s1, and the child's, in s2, host i slipped through: still ejected,
      healthy now, and either its deadline passed in between or its health came back. */
  ghost predicate SlippedThrough(s1: State, s2: State, i: nat) {
    && i < |s1.hosts| && i < |s2.hosts| && s1.hosts[i].ejected && s2.hosts[i].healthy && s1.hosts[i].unejectAt <= s2.now
    && (s1.now < s1.hosts[i].unejectAt || !s1.hosts[i].healthy)
  }

  /** While only the clock and the prober move between the two scans, the gauge drifts exactly if the
      child scans an ejected host whose deadline passed, or which became healthy, after the shared scan. */
  lemma PassivePickDriftsIff(c: Config, s: State, between: seq<Event>, q: seq<nat>)
    requires Passive(between)
    ensures var s1 := Run(c, s, SharedScan(|s.hosts|));
            var s2 := Run(c, s1, between);
            Run(c, s, PickEvents(|s.hosts|, between, q)).silent != s.silent
            <==> exists j :: 0 <= j < |q| && SlippedThrough(s1, s2, q[j])
  {
    hide Run;
    var s1 := Run(c, s, SharedScan(|s.hosts|));
    var s2 := Run(c, s1, between);
    SharedScanClears(c, s, |s.hosts|);
    PassiveKeepsEjections(c, s1, between);
    PickDriftsIff(c, s, between, q);
    forall i: nat ensures SlippedThrough(s1, s2, i) <==> i < |s2.hosts| && s2.hosts[i].healthy && Expired(s2, i) {
    }
  }

  // The same with the clock and the prober moving anywhere, also inside the two scans.

  /** The event looks at host i. */
  predicate Looks(e: Event, i: nat) {
    (e.Scan? || e.TierScan?) && e.ep == i
  }

  /** Scans, ticks and probes only, and no host is scanned through the view before the pick has looked
      at it through the registry. */
  ghost predicate PickRun(es: seq<Event>) {
    && (forall j :: 0 <= j < |es| ==> es[j].Tick? || es[j].Probe? || es[j].Scan? || es[j].TierScan?)
    && (forall j :: 0 <= j < |es| && es[j].TierScan? ==> exists k :: 0 <= k < j && es[k] == Scan(es[j].ep))
  }

  /** Nobody looks at host i strictly between positions k and j. */
  ghost predicate Unseen(es: seq<Event>, k: int, j: int, i: nat)
    requires 0 <= k <= j <= |es|
  {
    forall x :: k < x < j ==> !Looks(es[x], i)
  }

  lemma RunPrefix(c: Config, s: State, es: seq<Event>, j: nat)
    requires j < |es|
    ensures Run(c, s, es[..j + 1]) == Step(c, Run(c, s, es[..j]), es[j])
  {
    hide Step;
    assert es[..j + 1] == es[..j] + [es[j]];
    RunOn(c, s, es[..j], [es[j]]);
    RunOne(c, Run(c, s, es[..j]), es[j]);
  }

  /** Host i as t left it in s: same ejection and deadline, later or equal time. */
  ghost predicate SameHost(s: State, t: State, i: nat) {
    && i < |s.hosts| == |t.hosts| && s.now <= t.now
    && t.hosts[i].ejected == s.hosts[i].ejected && t.hosts[i].unejectAt == s.hosts[i].unejectAt
  }

  lemma BystanderKeeps(c: Config, s: State, e: Event, i: nat)
    requires i < |s.hosts| && !Looks(e, i) && (e.Tick? || e.Probe? || e.Scan? || e.TierScan?)
    ensures SameHost(s, Step(c, s, e), i)
  {
  }

  lemma {:induction false} UnseenKeeps(c: Config, s: State, es: seq<Event>, k: nat, j: nat, i: nat)
    requires PickRun(es) && k < j <= |es| && Unseen(es, k, j, i) && i < |Run(c, s, es[..k + 1]).hosts|
    ensures SameHost(Run(c, s, es[..k + 1]), Run(c, s, es[..j]), i)
    decreases j
  {
    if j == k + 1 {
    } else {
      hide Step, Run;
      UnseenKeeps(c, s, es, k, j - 1, i);
      RunPrefix(c, s, es, j - 1);
      BystanderKeeps(c, Run(c, s, es[..j - 1]), es[j - 1], i);
    }
  }

  /** After a look at it, a host is not healthy and expired. */
  lemma LookClears(c: Config, s: State, e: Event, i: nat)
    requires i < |s.hosts| && Looks(e, i)
    ensures var t := Step(c, s, e); |t.hosts| == |s.hosts| && !(t.hosts[i].healthy && Expired(t, i))
  {
  }

  /** Position k is the pick's last look at host i before its view scan at j. */
  ghost predicate LastLook(es: seq<Event>, k: int, j: int, i: nat) {
    0 <= k < j < |es| && Looks(es[k], i) && es[j] == TierScan(i) && Unseen(es, k, j, i)
  }

  lemma LookThenSlip(c: Config, s: State, es: seq<Event>, k: nat, j: nat, i: nat)
    requires PickRun(es) && LastLook(es, k, j, i) && i < |s.hosts|
    ensures Slips(Run(c, s, es[..j]), es[j]) <==> SlippedThrough(Run(c, s, es[..k + 1]), Run(c, s, es[..j]), i)
  {
    hide Run, Step;
    RunPrefix(c, s, es, k);
    RunHosts(c, s, es[..k]);
    LookClears(c, Run(c, s, es[..k]), es[k], i);
    UnseenKeeps(c, s, es, k, j, i);
  }

  lemma RunHosts(c: Config, s: State, es: seq<Event>)
    ensures |Run(c, s, es).hosts| == |s.hosts|
  {
    hide Run, Inv;
    RunKeeps(c, s, es);
  }

  lemma {:induction false} FindLook(es: seq<Event>, k: nat, j: nat, i: nat) returns (l: nat)
    requires k < j < |es| && Looks(es[k], i) && es[j] == TierScan(i)
    ensures LastLook(es, l, j, i)
    decreases j - k
  {
    if x :| k < x < j && Looks(es[x], i) {
      l := FindLook(es, x, j, i);
    } else {
      l := k;
    }
  }

  /** With the clock and the prober moving at any point of a pick, the gauge drifts if and only if some
      host was still ejected at the pick's last look before a view scan of it, and in between its
      deadline passed or its health came back. */
  lemma InterleavedPickDriftsIff(c: Config, s: State, es: seq<Event>)
    requires PickRun(es)
    ensures Run(c, s, es).silent != s.silent <==>
              exists k, j, i: nat :: LastLook(es, k, j, i) && SlippedThrough(Run(c, s, es[..k + 1]), Run(c, s, es[..j]), i)
  {
    hide Run, SlippedThrough, Unseen;
    RunSlips(c, s, es);
    SlippedNone(c, s, es);
    if !NeverSlips(c, s, es) {
      var j :| 0 <= j < |es| && Slips(Run(c, s, es[..j]), es[j]);
      var k := SlipLook(c, s, es, j);
      LookThenSlip(c, s, es, k, j, es[j].ep);
    }
    if k, j, i: nat :| LastLook(es, k, j, i) && SlippedThrough(Run(c, s, es[..k + 1]), Run(c, s, es[..j]), i) {
      LookSlips(c, s, es, k, j, i);
    }
  }

  lemma SlipLook(c: Config, s: State, es: seq<Event>, j: nat) returns (k: nat)
    requires PickRun(es) && j < |es| && Slips(Run(c, s, es[..j]), es[j])
    ensures LastLook(es, k, j, es[j].ep) && es[j].ep < |s.hosts|
  {
    hide Run;
    RunHosts(c, s, es[..j]);
    var first :| 0 <= first < j && es[first] == Scan(es[j].ep);
    k := FindLook(es, first, j, es[j].ep);
  }

  lemma LookSlips(c: Config, s: State, es: seq<Event>, k: nat, j: nat, i: nat)
    requires PickRun(es) && LastLook(es, k, j, i) && SlippedThrough(Run(c, s, es[..k + 1]), Run(c, s, es[..j]), i)
    ensures !NeverSlips(c, s, es)
  {
    hide Run, Slips;
    RunHosts(c, s, es[..j]);
    LookThenSlip(c, s, es, k, j, i);
  }

  /** A pick during which nothing else happens never drifts. */
  lemma PickAtOneInstant(c: Config, s: State, q: seq<nat>)
    ensures Run(c, s, PickEvents(|s.hosts|, [], q)).silent == s.silent
  {
    hide Run, SlippedThrough;
    PassivePickDriftsIff(c, s, [], q);
    var s1 := Run(c, s, SharedScan(|s.hosts|));
    assert Run(c, s1, []) == s1 by { RunNothing(c, s1); }
    forall i: nat ensures !SlippedThrough(s1, s1, i) {
      NotThroughItself(s1, i, c, s);
    }
  }

  lemma RunNothing(c: Config, s: State)
    ensures Run(c, s, []) == s
  {
  }

  lemma NotThroughItself(s1: State, i: nat, c: Config, s: State)
    requires s1 == Run(c, s, SharedScan(|s.hosts|))
    ensures !SlippedThrough(s1, s1, i)
  {
    hide Run;
    SharedScanClears(c, s, |s.hosts|);
  }

  // ---------------------------------------------------------------------------
  // A first ejection
  // ---------------------------------------------------------------------------

  ghost predicate NoneOut(hosts: seq<Host>) {
    forall i :: 0 <= i < |hosts| ==> !hosts[i].ejected
  }

  lemma {:induction false} NoneEjected(hosts: seq<Host>)
    requires NoneOut(hosts)
    ensures EjectedIn(hosts) == 0
  {
    if hosts == [] {
    } else {
      NoneEjected(hosts[..|hosts| - 1]);
    }
  }

  lemma {:induction false} RefreshNone(s: State, k: nat)
    requires NoneOut(s.hosts) && k <= |s.hosts|
    ensures RefreshFirst(s, k) == s
  {
    if k == 0 {
    } else {
      RefreshNone(s, k - 1);
    }
  }

  /** Settings under which one 5xx ejects at once, for one unit of time. */
  predicate Hasty(c: Config) {
    c.five == Rule(true, 1, 100, 0, 0) && c.maxEjectionPct == 100 && c.baseEjectionTime == 1
  }

  /** Every host is in and healthy, and nothing has drifted. */
  ghost predicate AllIn(s: State, n: nat) {
    && |s.hosts| == n && s.now == 0 && s.silent == 0
    && forall i :: 0 <= i < n ==> s.hosts[i].healthy && !s.hosts[i].ejected
  }

  /** Host 0 alone is out, until time 1. */
  ghost predicate FirstOut(s: State, n: nat) {
    && |s.hosts| == n >= 1 && s.now == 0 && s.silent == 0
    && s.hosts[0].ejected && s.hosts[0].healthy && s.hosts[0].unejectAt == 1
    && forall i :: 1 <= i < n ==> s.hosts[i].healthy && !s.hosts[i].ejected
  }

  lemma EjectsFirst(c: Config, s: State, n: nat, roll: nat)
    requires Hasty(c) && n >= 1 && AllIn(s, n)
    ensures FirstOut(TryEject(c, s, 0, FiveXX, roll).0, n)
  {
    NoneEjected(s.hosts);
    RefreshNone(s, n);
  }

  lemma BumpEjectsFirst(c: Config, s: State, n: nat, roll: nat)
    requires Hasty(c) && n >= 1 && AllIn(s, n) && s.hosts[0].consec5xx == 0
    ensures FirstOut(BumpStreak(c, s, 0, FiveXX, roll).0, n)
  {
    hide TryEject;
    var t := Put(s, 0, SetStreak(s.hosts[0], FiveXX, 1));
    EjectsFirst(c, t.(detected := Bump(t.detected, FiveXX)), n, roll);
  }

  /** The first 5xx of host 0 ejects it; the others stay in. */
  lemma FirstEjection(c: Config, n: nat, roll: Kind -> nat)
    requires Hasty(c) && n >= 1
    ensures FirstOut(Step(c, Init(n, 0), Result(0, 500, false, roll)), n)
  {
    hide BumpStreak, FirstOut;
    var t := Counted(Init(n, 0), 0, false);
    var u := if c.splitLocalOrigin then Put(t, 0, SetStreak(t.hosts[0], LocalOrigin, 0)) else t;
    BumpEjectsFirst(c, Put(u, 0, SetStreak(u.hosts[0], Gateway, 0)), n, roll(FiveXX));
  }
}
