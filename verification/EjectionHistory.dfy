/** Outlier detection on the history of results: what a streak counts, when a result ejects, and whom a
    sweep ejects. */
module EjectionHistory {
  import opened Arith
  import opened Ejection
  import SR = SuccessRate

  // ---------------------------------------------------------------------------
  // Ejection leaves the streaks and windows alone
  // ---------------------------------------------------------------------------

  ghost predicate SameCounts(h: Host, g: Host) {
    g.consec5xx == h.consec5xx && g.consecGw == h.consecGw && g.consecLO == h.consecLO && g.window == h.window
    && g.healthy == h.healthy
  }

  ghost predicate AllSameCounts(s: State, t: State) {
    |t.hosts| == |s.hosts| && t.now == s.now && forall i :: 0 <= i < |s.hosts| ==> SameCounts(s.hosts[i], t.hosts[i])
  }

  lemma {:induction false} RefreshFirstCounts(s: State, k: nat)
    requires k <= |s.hosts|
    ensures AllSameCounts(s, RefreshFirst(s, k))
  {
    if k == 0 {
    } else {
      RefreshFirstCounts(s, k - 1);
    }
  }

  lemma TryEjectCounts(c: Config, s: State, i: nat, k: Kind, roll: nat)
    requires i < |s.hosts|
    ensures AllSameCounts(s, TryEject(c, s, i, k, roll).0)
  {
    RefreshFirstCounts(s, |s.hosts|);
  }

  // ---------------------------------------------------------------------------
  // Streaks
  // ---------------------------------------------------------------------------

  /** What host i's results add up to: the lengths of its three streaks, and the requests and successes
      since the last sweep. */
  datatype Tally = Tally(five: nat, gateway: nat, local: nat, total: nat, success: nat)

  predicate Is5xx(code: int) { 500 <= code <= 599 }

  /** The result counts as an external 5xx: it is one, or it is a local failure that is not split off. */
  predicate CountsAs5xx(c: Config, e: Event)
    requires e.Result?
  {
    if e.localOrigin then !c.splitLocalOrigin else Is5xx(e.code)
  }

  /** The step ejected on the gateway rule, so that the 5xx rule was not consulted. */
  ghost predicate GatewayEjected(c: Config, s: State, e: Event) {
    Get(Step(c, s, e).enforced, Gateway) > Get(s.enforced, Gateway)
  }

  /** The tally of host i after event e in state s. */
  ghost function After(c: Config, s: State, e: Event, i: nat, t: Tally): Tally {
    if e.Sweeping? then t.(total := 0, success := 0)
    else if !e.Result? || e.ep != i then t
    else
      var bad, gw := CountsAs5xx(c, e), e.code in {502, 503, 504};
      Tally(
        if !e.localOrigin && !bad then 0
        else if bad && c.five.enabled && !(gw && GatewayEjected(c, s, e)) then t.five + 1 else t.five,
        if (!e.localOrigin && !bad) || (bad && !gw) then 0
        else if bad && gw && c.gateway.enabled then t.gateway + 1 else t.gateway,
        if !e.localOrigin && c.splitLocalOrigin then 0
        else if e.localOrigin && c.splitLocalOrigin && c.local.enabled then t.local + 1 else t.local,
        t.total + 1,
        t.success + if !e.localOrigin && !Is5xx(e.code) then 1 else 0)
  }

  ghost function History(c: Config, s: State, es: seq<Event>, i: nat): Tally {
    if es == [] then Tally(0, 0, 0, 0, 0)
    else
      var front := es[..|es| - 1];
      After(c, Run(c, s, front), es[|es| - 1], i, History(c, s, front, i))
  }

  /** Host h carries the tally t, its streaks in 32 bits. */
  ghost predicate Carries(h: Host, t: Tally) {
    && h.consec5xx == t.five % 0x1_0000_0000 && h.consecGw == t.gateway % 0x1_0000_0000
    && h.consecLO == t.local % 0x1_0000_0000
    && h.window == SR.Window(t.total, t.success)
  }

  lemma BumpMod(x: nat)
    ensures (x % 0x1_0000_0000 + 1) % 0x1_0000_0000 == (x + 1) % 0x1_0000_0000
  {
  }

  /** Bumping streak k of host i changes nothing else that a tally records. */
  lemma BumpCounts(c: Config, s: State, i: nat, k: Kind, roll: nat)
    requires i < |s.hosts| && (k.FiveXX? || k.Gateway? || k.LocalOrigin?)
    ensures var t, h := BumpStreak(c, s, i, k, roll).0, s.hosts[i];
            var n := if RuleOf(c, k).enabled then (Streak(h, k) + 1) % STREAK_WORD else Streak(h, k);
            && |t.hosts| == |s.hosts| && t.now == s.now && SameCounts(SetStreak(h, k, n), t.hosts[i])
            && forall j :: 0 <= j < |s.hosts| && j != i ==> SameCounts(s.hosts[j], t.hosts[j])
  {
    hide TryEject;
    var n := (Streak(s.hosts[i], k) + 1) % STREAK_WORD;
    var t := Put(s, i, SetStreak(s.hosts[i], k, n));
    TryEjectCounts(c, t.(detected := Bump(t.detected, k)), i, k, roll);
  }

  lemma {:induction false} RefreshEnforced(s: State, k: nat)
    requires k <= |s.hosts|
    ensures RefreshFirst(s, k).enforced == s.enforced && RefreshFirst(s, k).detected == s.detected
  {
    if k == 0 {
    } else {
      RefreshEnforced(s, k - 1);
    }
  }

  lemma TryEjectEnforced(c: Config, s: State, i: nat, k: Kind, roll: nat)
    requires i < |s.hosts|
    ensures var (t, done) := TryEject(c, s, i, k, roll);
            t.enforced == (if done then Bump(s.enforced, k) else s.enforced) && t.detected == s.detected
  {
    RefreshEnforced(s, |s.hosts|);
  }

  lemma BumpEnforced(c: Config, s: State, i: nat, k: Kind, roll: nat)
    requires i < |s.hosts|
    ensures var (t, done) := BumpStreak(c, s, i, k, roll); t.enforced == if done then Bump(s.enforced, k) else s.enforced
  {
    hide TryEject;
    var n := (Streak(s.hosts[i], k) + 1) % STREAK_WORD;
    var t := Put(s, i, SetStreak(s.hosts[i], k, n));
    TryEjectEnforced(c, t.(detected := Bump(t.detected, k)), i, k, roll);
  }

  function Raised(enabled: bool, n: nat): nat { if enabled then (n + 1) % STREAK_WORD else n }

  /** The streaks of a host after a result that counts as 5xx. */
  function Struck(c: Config, h: Host, code: int, gwDone: bool): Host {
    if GatewayClass(code)
    then h.(consecGw := Raised(c.gateway.enabled, h.consecGw),
            consec5xx := if gwDone then h.consec5xx else Raised(c.five.enabled, h.consec5xx))
    else h.(consecGw := 0, consec5xx := Raised(c.five.enabled, h.consec5xx))
  }

  /** Host i of t is like h in all that a tally records, and the other hosts of s are untouched. */
  ghost predicate OnlyHost(s: State, t: State, i: nat, h: Host) {
    && i < |s.hosts| == |t.hosts| && t.now == s.now && SameCounts(h, t.hosts[i])
    && forall j :: 0 <= j < |s.hosts| && j != i ==> SameCounts(s.hosts[j], t.hosts[j])
  }

  lemma StruckCounts(c: Config, s: State, i: nat, code: int, roll: Kind -> nat)
    requires i < |s.hosts|
    ensures var t := RecordExternal5xx(c, s, i, code, roll);
            exists gwDone :: && OnlyHost(s, t, i, Struck(c, s.hosts[i], code, gwDone)) && (gwDone ==> GatewayClass(code))
                             && (gwDone <==> Get(t.enforced, Gateway) > Get(s.enforced, Gateway))
  {
    hide BumpStreak;
    var t := RecordExternal5xx(c, s, i, code, roll);
    if GatewayClass(code) {
      BumpCounts(c, s, i, Gateway, roll(Gateway));
      BumpEnforced(c, s, i, Gateway, roll(Gateway));
      var (u, done) := BumpStreak(c, s, i, Gateway, roll(Gateway));
      BumpCounts(c, u, i, FiveXX, roll(FiveXX));
      BumpEnforced(c, u, i, FiveXX, roll(FiveXX));
      assert OnlyHost(s, t, i, Struck(c, s.hosts[i], code, done));
    } else {
      var u := Put(s, i, SetStreak(s.hosts[i], Gateway, 0));
      BumpCounts(c, u, i, FiveXX, roll(FiveXX));
      BumpEnforced(c, u, i, FiveXX, roll(FiveXX));
      assert OnlyHost(s, t, i, Struck(c, s.hosts[i], code, false));
    }
  }

  /** The host after one result, by what kind of result it was. */
  function Marked(c: Config, h: Host, code: int, local: bool, gwDone: bool): Host {
    var g := CountWindow(h, !local && !ServerError(code));
    if local && c.splitLocalOrigin then g.(consecLO := Raised(c.local.enabled, g.consecLO))
    else
      var f := if !local && c.splitLocalOrigin then g.(consecLO := 0) else g;
      if !local && !ServerError(code) then f.(consec5xx := 0, consecGw := 0) else Struck(c, f, code, gwDone)
  }

  lemma CountedHost(s: State, i: nat, ok: bool)
    requires i < |s.hosts|
    ensures var t := Counted(s, i, ok); OnlyHost(s, t, i, CountWindow(s.hosts[i], ok)) && t.enforced == s.enforced
  {
  }

  lemma RecordCounts(c: Config, s: State, i: nat, code: int, local: bool, roll: Kind -> nat)
    requires i < |s.hosts|
    ensures var t := Record(c, s, i, code, local, roll);
            exists gwDone :: && OnlyHost(s, t, i, Marked(c, s.hosts[i], code, local, gwDone)) && (gwDone ==> GatewayClass(code))
                             && (gwDone <==> Get(t.enforced, Gateway) > Get(s.enforced, Gateway))
  {
    hide BumpStreak, RecordExternal5xx, Counted;
    var ok := !local && !ServerError(code);
    var t := Counted(s, i, ok);
    CountedHost(s, i, ok);
    if local && c.splitLocalOrigin {
      BumpCounts(c, t, i, LocalOrigin, roll(LocalOrigin));
      BumpEnforced(c, t, i, LocalOrigin, roll(LocalOrigin));
      assert OnlyHost(s, Record(c, s, i, code, local, roll), i, Marked(c, s.hosts[i], code, local, false));
    } else if ok {
      assert OnlyHost(s, Record(c, s, i, code, local, roll), i, Marked(c, s.hosts[i], code, local, false));
    } else {
      var u := if !local && c.splitLocalOrigin then Put(t, i, SetStreak(t.hosts[i], LocalOrigin, 0)) else t;
      StruckCounts(c, u, i, code, roll);
      var r := RecordExternal5xx(c, u, i, code, roll);
      var gwDone :| OnlyHost(u, r, i, Struck(c, u.hosts[i], code, gwDone)) && (gwDone ==> GatewayClass(code))
        && (gwDone <==> Get(r.enforced, Gateway) > Get(u.enforced, Gateway));
      assert OnlyHost(s, Record(c, s, i, code, local, roll), i, Marked(c, s.hosts[i], code, local, gwDone));
    }
  }

  /** One result moves the host and its tally alike. */
  lemma MarkCarries(c: Config, s: State, e: Event, i: nat, h: Host, t: Tally, gwDone: bool)
    requires e.Result? && e.ep == i && Carries(h, t) && (gwDone ==> GatewayClass(e.code))
    requires gwDone <==> GatewayEjected(c, s, e)
    ensures Carries(Marked(c, h, e.code, e.localOrigin, gwDone), After(c, s, e, i, t))
  {
    hide GatewayEjected;
    BumpMod(t.five);
    BumpMod(t.gateway);
    BumpMod(t.local);
  }

  lemma {:induction false} EjectAllCounts(c: Config, s: State, flagged: seq<nat>, k: Kind, roll: nat -> nat)
    requires forall j :: 0 <= j < |flagged| ==> flagged[j] < |s.hosts|
    ensures AllSameCounts(s, EjectAll(c, s, flagged, k, roll))
  {
    hide TryEject;
    if flagged == [] {
    } else {
      var n := |flagged| - 1;
      EjectAllCounts(c, s, flagged[..n], k, roll);
      var t := EjectAll(c, s, flagged[..n], k, roll);
      TryEjectCounts(c, t.(detected := Bump(t.detected, k)), flagged[n], k, roll(flagged[n]));
    }
  }

  /** The first k windows are zero, and otherwise all counts are as before. */
  ghost predicate WindowsReset(s: State, t: State, k: nat) {
    |t.hosts| == |s.hosts| && t.now == s.now && k <= |s.hosts| &&
    forall i :: 0 <= i < |s.hosts| ==>
      SameCounts(if i < k then s.hosts[i].(window := SR.Window(0, 0)) else s.hosts[i], t.hosts[i])
  }

  lemma {:induction false} ResetCounts(s: State, k: nat)
    requires k <= |s.hosts|
    ensures WindowsReset(s, ResetFirst(s, k), k)
  {
    if k == 0 {
    } else {
      ResetCounts(s, k - 1);
    }
  }

  lemma SweepCounts(c: Config, s: State, sqrt: real -> real, srRoll: nat -> nat, fpRoll: nat -> nat)
    ensures WindowsReset(s, Sweep(c, s, sqrt, srRoll, fpRoll), |s.hosts|)
  {
    hide SR.Outliers, FailureFlags, EjectAll, ResetFirst;
    var snap, t := SnapOf(s), ResetFirst(s, |s.hosts|);
    var slow := SR.Outliers(snap, c.successRate.volume, c.successRate.minHosts, c.successRate.threshold, sqrt);
    ResetCounts(s, |s.hosts|);
    EjectAllCounts(c, t, slow, SuccessRate, srRoll);
    EjectAllCounts(c, EjectAll(c, t, slow, SuccessRate, srRoll), FailureFlags(c, snap), FailurePct, fpRoll);
  }

  lemma StepCarries(c: Config, s: State, e: Event, i: nat, t: Tally)
    requires i < |s.hosts| && Carries(s.hosts[i], t)
    ensures var u := Step(c, s, e); |u.hosts| == |s.hosts| && Carries(u.hosts[i], After(c, s, e, i, t))
  {
    hide Record, Sweep, Marked;
    match e
    case Result(j, code, local, roll) =>
      if j >= |s.hosts| {
        UnknownIgnored(c, s, e);
      } else {
        RecordCounts(c, s, j, code, local, roll);
        var gwDone :| OnlyHost(s, Record(c, s, j, code, local, roll), j, Marked(c, s.hosts[j], code, local, gwDone))
          && (gwDone ==> GatewayClass(code))
          && (gwDone <==> Get(Record(c, s, j, code, local, roll).enforced, Gateway) > Get(s.enforced, Gateway));
        if j == i {
          MarkCarries(c, s, e, i, s.hosts[i], t, gwDone);
        }
      }
    case Sweeping(sqrt, sr, fp) => SweepCounts(c, s, sqrt, sr, fp);
    case _ =>
  }

  lemma UnknownIgnored(c: Config, s: State, e: Event)
    requires e.Result? && e.ep >= |s.hosts|
    ensures Step(c, s, e) == s
  {
  }

  lemma {:induction false} RunCarries(c: Config, s: State, es: seq<Event>, i: nat)
    requires i < |s.hosts| && Carries(s.hosts[i], Tally(0, 0, 0, 0, 0))
    ensures var u := Run(c, s, es); |u.hosts| == |s.hosts| && Carries(u.hosts[i], History(c, s, es, i))
  {
    hide Step, After, Carries;
    if es == [] {
    } else {
      var front, e := es[..|es| - 1], es[|es| - 1];
      RunCarries(c, s, front, i);
      assert es == front + [e];
      RunOn(c, s, front, [e]);
      RunOne(c, Run(c, s, front), e);
      StepCarries(c, Run(c, s, front), e, i, History(c, s, front, i));
    }
  }

  /** Over every run a host's counters are its history: the 5xx streak is the number of its results
      counted as 5xx since its last external success, the gateway streak likewise since its last other
      result, the local-origin streak since its last external one, each in 32 bits; and the window holds
      its results and successes since the last sweep. */
  lemma StreaksAreHistory(c: Config, n: nat, now: int, es: seq<Event>, i: nat)
    requires i < n
    ensures var s := Run(c, Init(n, now), es); |s.hosts| == n && Carries(s.hosts[i], History(c, Init(n, now), es, i))
  {
    hide Run, History;
    RunCarries(c, Init(n, now), es, i);
  }

  // ---------------------------------------------------------------------------
  // When a result ejects
  // ---------------------------------------------------------------------------

  predicate Out(h: Host, now: int) { h.ejected && now < h.unejectAt }

  ghost function OutNow(s: State): set<nat> {
    set i | 0 <= i < |s.hosts| && Out(s.hosts[i], s.now)
  }

  ghost function EjectedSet(hosts: seq<Host>): set<nat> {
    set i | 0 <= i < |hosts| && hosts[i].ejected
  }

  lemma {:induction false} EjectedIsCount(hosts: seq<Host>)
    ensures EjectedIn(hosts) == |EjectedSet(hosts)|
  {
    if hosts == [] {
    } else {
      var n := |hosts| - 1;
      EjectedIsCount(hosts[..n]);
      assert EjectedSet(hosts) == EjectedSet(hosts[..n]) + if hosts[n].ejected then {n} else {};
    }
  }

  /** One more host may be ejected without the share of hosts that are out passing the cap. */
  ghost predicate Room(c: Config, s: State) {
    (|OutNow(s)| + 1) * 100 <= c.maxEjectionPct * |s.hosts|
  }

  /** t is s with some of its expired hosts readmitted. */
  ghost predicate SameOut(s: State, t: State) {
    && |t.hosts| == |s.hosts| && t.now == s.now
    && forall j :: 0 <= j < |s.hosts| ==>
         && t.hosts[j].unejectAt == s.hosts[j].unejectAt
         && (Out(s.hosts[j], s.now) ==> t.hosts[j].ejected) && (t.hosts[j].ejected ==> s.hosts[j].ejected)
  }

  lemma SameOutRoom(c: Config, s: State, t: State)
    requires SameOut(s, t)
    ensures Room(c, t) <==> Room(c, s)
  {
    assert OutNow(t) == OutNow(s);
  }

  lemma {:induction false} RefreshedHosts(s: State, k: nat)
    requires k <= |s.hosts|
    ensures var t := RefreshFirst(s, k);
            && SameOut(s, t)
            && forall i :: 0 <= i < |s.hosts| ==>
                 t.hosts[i] == if i < k && Expired(s, i) then s.hosts[i].(ejected := false) else s.hosts[i]
  {
    if k == 0 {
    } else {
      RefreshedHosts(s, k - 1);
    }
  }

  lemma RefreshedRoom(c: Config, s: State)
    ensures var t := RefreshFirst(s, |s.hosts|);
            (EjectedIn(t.hosts) + 1) * 100 <= c.maxEjectionPct * |s.hosts| <==> Room(c, s)
  {
    var t := RefreshFirst(s, |s.hosts|);
    RefreshedHosts(s, |s.hosts|);
    EjectedIsCount(t.hosts);
    assert EjectedSet(t.hosts) == OutNow(s);
  }

  /** t has exactly host i more out than s, until the deadline. */
  ghost predicate NewlyOut(c: Config, s: State, t: State, i: nat) {
    && i < |s.hosts| == |t.hosts| && t.now == s.now
    && t.hosts[i].ejected && t.hosts[i].unejectAt == s.now + c.baseEjectionTime
    && forall j :: 0 <= j < |s.hosts| && j != i ==>
         && t.hosts[j].unejectAt == s.hosts[j].unejectAt
         && (Out(s.hosts[j], s.now) ==> t.hosts[j].ejected) && (t.hosts[j].ejected ==> s.hosts[j].ejected)
  }

  /** tryEject ejects exactly a host that is in, when the roll enforces and the cap has room. */
  lemma TryEjectMeans(c: Config, s: State, i: nat, k: Kind, roll: nat)
    requires i < |s.hosts|
    ensures var (t, done) := TryEject(c, s, i, k, roll);
            var wanted := !s.hosts[i].ejected && Enforces(RuleOf(c, k).enforcing, roll);
            && (done <==> wanted && Room(c, s))
            && (if done then NewlyOut(c, s, t, i) else SameOut(s, t))
            && t.overflow == s.overflow + One(wanted && !Room(c, s))
  {
    hide Room, EjectedIn;
    RefreshedRoom(c, s);
    RefreshedHosts(s, |s.hosts|);
    RefreshOverflow(s, |s.hosts|);
  }

  lemma {:induction false} RefreshOverflow(s: State, k: nat)
    requires k <= |s.hosts|
    ensures RefreshFirst(s, k).overflow == s.overflow
  {
    if k == 0 {
    } else {
      RefreshOverflow(s, k - 1);
    }
  }

  /** One more result of kind k would complete a streak of n, and the roll enforces. */
  predicate Fires(c: Config, k: Kind, n: nat, roll: nat) {
    var r := RuleOf(c, k);
    r.enabled && (n + 1) % 0x1_0000_0000 >= r.threshold && Enforces(r.enforcing, roll)
  }

  lemma BumpMeans(c: Config, s: State, i: nat, k: Kind, roll: nat)
    requires i < |s.hosts|
    ensures var (t, done) := BumpStreak(c, s, i, k, roll);
            && (done <==> !s.hosts[i].ejected && Fires(c, k, Streak(s.hosts[i], k), roll) && Room(c, s))
            && (if done then NewlyOut(c, s, t, i) else SameOut(s, t))
  {
    hide TryEject, Room;
    var n := (Streak(s.hosts[i], k) + 1) % STREAK_WORD;
    var t := Put(s, i, SetStreak(s.hosts[i], k, n));
    var u := t.(detected := Bump(t.detected, k));
    SameOutRoom(c, s, u);
    TryEjectMeans(c, u, i, k, roll);
  }

  lemma SameOutTrans(s: State, t: State, u: State)
    requires SameOut(s, t) && SameOut(t, u)
    ensures SameOut(s, u)
  {
  }

  lemma ThenNewlyOut(c: Config, s: State, t: State, u: State, i: nat)
    requires SameOut(s, t) && NewlyOut(c, t, u, i)
    ensures NewlyOut(c, s, u, i)
  {
  }

  /** Which streaks a result can complete. */
  predicate Consults(c: Config, k: Kind, code: int, local: bool) {
    var bad := if local then !c.splitLocalOrigin else Is5xx(code);
    match k
    case FiveXX => bad
    case Gateway => bad && code in {502, 503, 504}
    case LocalOrigin => local && c.splitLocalOrigin
    case _ => false
  }

  ghost predicate SomeFires(c: Config, h: Host, code: int, local: bool, roll: Kind -> nat) {
    exists k :: Consults(c, k, code, local) && Fires(c, k, Streak(h, k), roll(k))
  }

  /** Host i of t is the newly ejected one exactly if hit; otherwise nobody is. */
  ghost predicate EjectsIff(c: Config, s: State, t: State, i: nat, hit: bool) {
    if hit then NewlyOut(c, s, t, i) else SameOut(s, t)
  }

  lemma StruckEjects(c: Config, s: State, i: nat, code: int, roll: Kind -> nat)
    requires i < |s.hosts|
    ensures var h := s.hosts[i];
            EjectsIff(c, s, RecordExternal5xx(c, s, i, code, roll), i,
              !h.ejected && Room(c, s)
              && (Fires(c, FiveXX, h.consec5xx, roll(FiveXX))
                  || (GatewayClass(code) && Fires(c, Gateway, h.consecGw, roll(Gateway)))))
  {
    hide BumpStreak, Room, Fires, SameOut, NewlyOut;
    if GatewayClass(code) {
      BumpMeans(c, s, i, Gateway, roll(Gateway));
      var (u, done) := BumpStreak(c, s, i, Gateway, roll(Gateway));
      if !done {
        SameOutRoom(c, s, u);
        BumpCounts(c, s, i, Gateway, roll(Gateway));
        BumpIn(c, s, i, Gateway, roll(Gateway));
        BumpMeans(c, u, i, FiveXX, roll(FiveXX));
        var (v, fired) := BumpStreak(c, u, i, FiveXX, roll(FiveXX));
        if fired { ThenNewlyOut(c, s, u, v, i); } else { SameOutTrans(s, u, v); }
      }
    } else {
      var u := Put(s, i, SetStreak(s.hosts[i], Gateway, 0));
      assert SameOut(s, u) by { PutSameOut(s, i, u.hosts[i]); }
      SameOutRoom(c, s, u);
      BumpMeans(c, u, i, FiveXX, roll(FiveXX));
      var (v, fired) := BumpStreak(c, u, i, FiveXX, roll(FiveXX));
      if fired { ThenNewlyOut(c, s, u, v, i); } else { SameOutTrans(s, u, v); }
    }
  }

  lemma PutSameOut(s: State, i: nat, h: Host)
    requires i < |s.hosts| && h.ejected == s.hosts[i].ejected && h.unejectAt == s.hosts[i].unejectAt
    ensures SameOut(s, Put(s, i, h))
  {
  }

  /** A bump that does not eject leaves its host in or out as it was. */
  lemma BumpIn(c: Config, s: State, i: nat, k: Kind, roll: nat)
    requires i < |s.hosts| && !BumpStreak(c, s, i, k, roll).1
    ensures BumpStreak(c, s, i, k, roll).0.hosts[i].ejected <==> s.hosts[i].ejected
  {
    RefreshedHosts(Put(s, i, SetStreak(s.hosts[i], k, (Streak(s.hosts[i], k) + 1) % STREAK_WORD)).(
                     detected := Bump(s.detected, k)), |s.hosts|);
  }

  lemma CountedSameOut(s: State, i: nat, ok: bool)
    requires i < |s.hosts|
    ensures var t := Counted(s, i, ok);
            SameOut(s, t) && (t.hosts[i].ejected <==> Out(s.hosts[i], s.now))
  {
  }

  /** A result ejects its host exactly if the host is not out, the cap has room, and the result completes
      a streak whose roll enforces; then the host is out for the base ejection time. Nobody else moves. */
  lemma ResultEjectsIff(c: Config, s: State, i: nat, code: int, local: bool, roll: Kind -> nat)
    requires i < |s.hosts|
    ensures var t, h := Record(c, s, i, code, local, roll), s.hosts[i];
            EjectsIff(c, s, t, i, !Out(h, s.now) && Room(c, s) && SomeFires(c, h, code, local, roll))
  {
    hide BumpStreak, RecordExternal5xx, Counted, Room, SameOut, NewlyOut, Fires;
    var h, ok := s.hosts[i], !local && !ServerError(code);
    var t := Counted(s, i, ok);
    CountedSameOut(s, i, ok);
    CountedHost(s, i, ok);
    SameOutRoom(c, s, t);
    FiresCases(c, h, code, local, roll);
    var r := Record(c, s, i, code, local, roll);
    if local && c.splitLocalOrigin {
      BumpMeans(c, t, i, LocalOrigin, roll(LocalOrigin));
      ThenEjects(c, s, t, r, i, !t.hosts[i].ejected && Fires(c, LocalOrigin, h.consecLO, roll(LocalOrigin)) && Room(c, t));
    } else {
      var u := if !local && c.splitLocalOrigin then Put(t, i, SetStreak(t.hosts[i], LocalOrigin, 0)) else t;
      PutSameOut(t, i, u.hosts[i]);
      assert u.hosts == t.hosts[i := u.hosts[i]];
      assert SameOut(t, u) by { assert u == Put(t, i, u.hosts[i]); }
      SameOutTrans(s, t, u);
      SameOutRoom(c, s, u);
      if ok {
        PutSameOut(u, i, r.hosts[i]);
        SameOutTrans(s, u, r);
      } else {
        StruckEjects(c, u, i, code, roll);
        ThenEjects(c, s, u, r, i, !u.hosts[i].ejected && Room(c, u)
              && (Fires(c, FiveXX, h.consec5xx, roll(FiveXX))
                  || (GatewayClass(code) && Fires(c, Gateway, h.consecGw, roll(Gateway)))));
      }
    }
  }

  lemma ThenEjects(c: Config, s: State, t: State, u: State, i: nat, hit: bool)
    requires SameOut(s, t) && EjectsIff(c, t, u, i, hit)
    ensures EjectsIff(c, s, u, i, hit)
  {
    if hit { ThenNewlyOut(c, s, t, u, i); } else { SameOutTrans(s, t, u); }
  }

  lemma FiresCases(c: Config, h: Host, code: int, local: bool, roll: Kind -> nat)
    ensures local && c.splitLocalOrigin ==>
              (SomeFires(c, h, code, local, roll) <==> Fires(c, LocalOrigin, h.consecLO, roll(LocalOrigin)))
    ensures !(local && c.splitLocalOrigin) ==>
              (SomeFires(c, h, code, local, roll) <==>
               && (local || ServerError(code))
               && (Fires(c, FiveXX, h.consec5xx, roll(FiveXX))
                   || (GatewayClass(code) && Fires(c, Gateway, h.consecGw, roll(Gateway)))))
  {
    hide Fires;
    if Fires(c, FiveXX, Streak(h, FiveXX), roll(FiveXX)) && Consults(c, FiveXX, code, local) {
    } else if Fires(c, Gateway, Streak(h, Gateway), roll(Gateway)) && Consults(c, Gateway, code, local) {
    } else if Fires(c, LocalOrigin, Streak(h, LocalOrigin), roll(LocalOrigin)) && Consults(c, LocalOrigin, code, local) {
    } else {
      forall k ensures !(Consults(c, k, code, local) && Fires(c, k, Streak(h, k), roll(k))) {
        match k
        case FiveXX =>
        case Gateway =>
        case LocalOrigin =>
        case _ =>
      }
    }
  }

  /** The streak that the results of the run so far give host i. */
  ghost function StreakOf(t: Tally, k: Kind): nat {
    if k == Gateway then t.gateway else if k == LocalOrigin then t.local else t.five
  }

  ghost predicate HistoryFires(c: Config, t: Tally, code: int, local: bool, roll: Kind -> nat) {
    exists k :: Consults(c, k, code, local) && Fires(c, k, StreakOf(t, k), roll(k))
  }

  lemma CarriedFires(c: Config, h: Host, t: Tally, k: Kind, roll: nat)
    requires Carries(h, t)
    ensures Fires(c, k, Streak(h, k), roll) <==> Fires(c, k, StreakOf(t, k), roll)
  {
    BumpMod(StreakOf(t, k));
  }

  /** Over every run: the next result of host i ejects it exactly if it is not out, the cap has room, and
      its results so far make this one complete an enforced streak. */
  lemma EjectedByHistory(c: Config, n: nat, now: int, es: seq<Event>, i: nat, code: int, local: bool, roll: Kind -> nat)
    requires i < n
    ensures var s := Run(c, Init(n, now), es);
            && |s.hosts| == n
            && EjectsIff(c, s, Step(c, s, Result(i, code, local, roll)), i,
                 && !Out(s.hosts[i], s.now) && Room(c, s)
                 && HistoryFires(c, History(c, Init(n, now), es, i), code, local, roll))
  {
    hide Run, History, Fires, Carries, Room, EjectsIff, Record;
    var s, t := Run(c, Init(n, now), es), History(c, Init(n, now), es, i);
    StreaksAreHistory(c, n, now, es, i);
    ResultEjectsIff(c, s, i, code, local, roll);
    forall k ensures Fires(c, k, Streak(s.hosts[i], k), roll(k)) <==> Fires(c, k, StreakOf(t, k), roll(k)) {
      CarriedFires(c, s.hosts[i], t, k, roll(k));
    }
  }

  predicate Completes(c: Config, k: Kind, n: nat) {
    RuleOf(c, k).enabled && (n + 1) % 0x1_0000_0000 >= RuleOf(c, k).threshold
  }

  lemma BumpDetected(c: Config, s: State, i: nat, k: Kind, roll: nat)
    requires i < |s.hosts|
    ensures BumpStreak(c, s, i, k, roll).0.detected ==
            if Completes(c, k, Streak(s.hosts[i], k)) then Bump(s.detected, k) else s.detected
  {
    hide TryEject;
    var n := (Streak(s.hosts[i], k) + 1) % STREAK_WORD;
    var t := Put(s, i, SetStreak(s.hosts[i], k, n));
    TryEjectEnforced(c, t.(detected := Bump(t.detected, k)), i, k, roll);
  }

  ghost predicate Detects(c: Config, s: State, t: State, h: Host, code: int, local: bool, k: Kind) {
    Get(t.detected, k) == Get(s.detected, k)
      + One(Consults(c, k, code, local) && Completes(c, k, Streak(h, k))
            && !(k.FiveXX? && Get(t.enforced, Gateway) > Get(s.enforced, Gateway)))
  }

  lemma StruckDetects(c: Config, s: State, i: nat, code: int, roll: Kind -> nat, local: bool, k: Kind)
    requires i < |s.hosts| && if local then !c.splitLocalOrigin else ServerError(code)
    ensures Detects(c, s, RecordExternal5xx(c, s, i, code, roll), s.hosts[i], code, local, k)
  {
    hide BumpStreak, Completes;
    if GatewayClass(code) {
      BumpDetected(c, s, i, Gateway, roll(Gateway));
      BumpEnforced(c, s, i, Gateway, roll(Gateway));
      BumpCounts(c, s, i, Gateway, roll(Gateway));
      var u := BumpStreak(c, s, i, Gateway, roll(Gateway)).0;
      BumpDetected(c, u, i, FiveXX, roll(FiveXX));
      BumpEnforced(c, u, i, FiveXX, roll(FiveXX));
    } else {
      var u := Put(s, i, SetStreak(s.hosts[i], Gateway, 0));
      BumpDetected(c, u, i, FiveXX, roll(FiveXX));
      BumpEnforced(c, u, i, FiveXX, roll(FiveXX));
    }
  }

  lemma CountedDetected(s: State, i: nat, ok: bool)
    requires i < |s.hosts|
    ensures Counted(s, i, ok).detected == s.detected
  {
  }

  /** A result counts one detection for each streak it completes, enforced or not; the 5xx rule is not
      consulted once the gateway rule has ejected. */
  lemma ResultDetects(c: Config, s: State, i: nat, code: int, local: bool, roll: Kind -> nat, k: Kind)
    requires i < |s.hosts|
    ensures Detects(c, s, Record(c, s, i, code, local, roll), s.hosts[i], code, local, k)
  {
    hide BumpStreak, RecordExternal5xx, Counted, Completes;
    var ok := !local && !ServerError(code);
    var t := Counted(s, i, ok);
    CountedHost(s, i, ok);
    CountedDetected(s, i, ok);
    if local && c.splitLocalOrigin {
      BumpDetected(c, t, i, LocalOrigin, roll(LocalOrigin));
      BumpEnforced(c, t, i, LocalOrigin, roll(LocalOrigin));
    } else if !ok {
      var u := if !local && c.splitLocalOrigin then Put(t, i, SetStreak(t.hosts[i], LocalOrigin, 0)) else t;
      StruckDetects(c, u, i, code, roll, local, k);
    }
  }

  // ---------------------------------------------------------------------------
  // Whom a sweep ejects
  // ---------------------------------------------------------------------------

  /** No host is past its deadline. */
  ghost predicate Settled(s: State) {
    forall i :: 0 <= i < |s.hosts| ==> s.hosts[i].ejected ==> s.now < s.hosts[i].unejectAt
  }

  /** One more ejection would pass the cap. */
  ghost predicate Full(c: Config, hosts: seq<Host>) {
    (|EjectedSet(hosts)| + 1) * 100 > c.maxEjectionPct * |hosts|
  }

  /** Host i is ejected in b and was not in a. */
  ghost predicate Newly(a: seq<Host>, b: seq<Host>, i: int) {
    0 <= i < |a| == |b| && b[i].ejected && !a[i].ejected
  }

  lemma TryEjectSettled(c: Config, s: State, i: nat, k: Kind, roll: nat)
    requires i < |s.hosts| && Settled(s) && c.baseEjectionTime > 0
    ensures var (t, done) := TryEject(c, s, i, k, roll);
            && Settled(t) && t.now == s.now
            && (done <==> !s.hosts[i].ejected && Enforces(RuleOf(c, k).enforcing, roll) && !Full(c, s.hosts))
            && t.hosts == if done then s.hosts[i := s.hosts[i].(ejected := true, unejectAt := s.now + c.baseEjectionTime)]
                          else s.hosts
  {
    hide EjectedIn;
    var t := RefreshFirst(s, |s.hosts|);
    RefreshedHosts(s, |s.hosts|);
    assert t.hosts == s.hosts;
    EjectedIsCount(s.hosts);
  }

  /** The flagged hosts whose roll enforces. */
  ghost function Wanted(c: Config, flagged: seq<nat>, k: Kind, roll: nat -> nat): set<nat> {
    set i | i in flagged && Enforces(RuleOf(c, k).enforcing, roll(i))
  }

  /** Hosts that are out stay as they are; only wanted hosts were ejected, until the deadline. */
  ghost predicate OnlyWanted(a: seq<Host>, b: seq<Host>, wanted: set<nat>, deadline: int) {
    && |b| == |a|
    && (forall i :: 0 <= i < |a| && a[i].ejected ==> b[i] == a[i])
    && forall i :: Newly(a, b, i) ==> i in wanted && b[i].unejectAt == deadline
  }

  /** Only hosts before i were ejected. */
  ghost predicate NoneFrom(a: seq<Host>, b: seq<Host>, i: nat) {
    forall j :: Newly(a, b, j) ==> j < i
  }

  /** A wanted host is left in only for want of room, and then none from there on was ejected. */
  ghost predicate InTurn(c: Config, a: seq<Host>, b: seq<Host>, wanted: set<nat>) {
    forall i :: i in wanted && i < |b| && !b[i].ejected ==> Full(c, b) && NoneFrom(a, b, i)
  }

  lemma FullGrows(c: Config, a: seq<Host>, b: seq<Host>)
    requires |b| == |a| && Full(c, a)
    requires forall i :: 0 <= i < |a| && a[i].ejected ==> b[i].ejected
    ensures Full(c, b)
  {
    var x, y := EjectedSet(a), EjectedSet(b);
    assert x <= y;
    assert |y - x| == |y| - |x|;
  }

  /** One more ejection in turn, at host i after all hosts wanted so far. */
  lemma TurnEjects(c: Config, a: seq<Host>, b: seq<Host>, wanted: set<nat>, i: nat, deadline: int)
    requires OnlyWanted(a, b, wanted, deadline) && InTurn(c, a, b, wanted) && i < |b| && !b[i].ejected && !Full(c, b)
    ensures var h := b[i := b[i].(ejected := true, unejectAt := deadline)];
            OnlyWanted(a, h, wanted + {i}, deadline) && InTurn(c, a, h, wanted + {i}) && !Full(c, a)
  {
    hide Full;
    var h := b[i := b[i].(ejected := true, unejectAt := deadline)];
    assert forall j :: Newly(a, h, j) <==> Newly(a, b, j) || j == i;
    if Full(c, a) {
      FullGrows(c, a, b);
    }
  }

  /** A wanted host that is out already, or finds no room. */
  lemma TurnPasses(c: Config, a: seq<Host>, b: seq<Host>, wanted: set<nat>, i: nat, deadline: int)
    requires OnlyWanted(a, b, wanted, deadline) && InTurn(c, a, b, wanted) && i < |b| && (b[i].ejected || Full(c, b))
    requires forall j :: j in wanted ==> j < i
    ensures OnlyWanted(a, b, wanted + {i}, deadline) && InTurn(c, a, b, wanted + {i})
  {
    hide Full;
  }

  /** From s to t, the hosts flagged were taken in turn. */
  ghost predicate Swept(c: Config, s: State, t: State, flagged: seq<nat>, k: Kind, roll: nat -> nat) {
    && Settled(t) && t.now == s.now
    && OnlyWanted(s.hosts, t.hosts, Wanted(c, flagged, k, roll), s.now + c.baseEjectionTime)
    && InTurn(c, s.hosts, t.hosts, Wanted(c, flagged, k, roll))
    && (Full(c, s.hosts) ==> t.hosts == s.hosts)
  }

  lemma SweptNext(c: Config, s: State, t: State, front: seq<nat>, i: nat, k: Kind, roll: nat -> nat)
    requires Swept(c, s, t, front, k, roll) && i < |s.hosts| && c.baseEjectionTime > 0
    requires forall j :: j in front ==> j < i
    ensures i < |t.hosts| && Swept(c, s, TryEject(c, t, i, k, roll(i)).0, front + [i], k, roll)
  {
    hide TryEject, Enforces, Full, OnlyWanted, InTurn, Settled;
    var w, w2 := Wanted(c, front, k, roll), Wanted(c, front + [i], k, roll);
    assert i < |t.hosts| by { OnlyWantedSize(s.hosts, t.hosts, w, s.now + c.baseEjectionTime); }
    TryEjectSettled(c, t, i, k, roll(i));
    if Enforces(RuleOf(c, k).enforcing, roll(i)) {
      assert w2 == w + {i};
      if t.hosts[i].ejected || Full(c, t.hosts) {
        TurnPasses(c, s.hosts, t.hosts, w, i, s.now + c.baseEjectionTime);
      } else {
        TurnEjects(c, s.hosts, t.hosts, w, i, s.now + c.baseEjectionTime);
      }
    } else {
      assert w2 == w;
    }
  }

  lemma OnlyWantedSize(a: seq<Host>, b: seq<Host>, wanted: set<nat>, deadline: int)
    requires OnlyWanted(a, b, wanted, deadline)
    ensures |b| == |a|
  {
  }

  lemma SweptNone(c: Config, s: State, k: Kind, roll: nat -> nat)
    requires Settled(s)
    ensures Swept(c, s, s, [], k, roll)
  {
    hide Settled, Full;
  }

  lemma SweptCounter(c: Config, s: State, t: State, m: map<Kind, nat>, flagged: seq<nat>, k: Kind, roll: nat -> nat)
    requires Swept(c, s, t, flagged, k, roll)
    ensures Swept(c, s, t.(detected := m), flagged, k, roll)
  {
    hide OnlyWanted, InTurn, Wanted, Full;
  }

  /** The ejections of one detector, in the order of its flags; each flag counts as detected. */
  lemma {:induction false} EjectAllMeans(c: Config, s: State, flagged: seq<nat>, k: Kind, roll: nat -> nat)
    requires Settled(s) && c.baseEjectionTime > 0 && SR.Ascending(flagged)
    requires forall j :: 0 <= j < |flagged| ==> flagged[j] < |s.hosts|
    ensures Swept(c, s, EjectAll(c, s, flagged, k, roll), flagged, k, roll)
    ensures forall kind :: Get(EjectAll(c, s, flagged, k, roll).detected, kind)
                           == Get(s.detected, kind) + if kind == k then |flagged| else 0
  {
    hide TryEject, Swept, Settled;
    if flagged == [] {
      SweptNone(c, s, k, roll);
    } else {
      var n := |flagged| - 1;
      var front, i := flagged[..n], flagged[n];
      EjectAllMeans(c, s, front, k, roll);
      var t := EjectAll(c, s, front, k, roll);
      var d := t.(detected := Bump(t.detected, k));
      assert flagged == front + [i];
      TryEjectEnforced(c, d, i, k, roll(i));
      SweptCounter(c, s, t, d.detected, front, k, roll);
      SweptNext(c, s, d, front, i, k, roll);
    }
  }

  // The rows that the failure-percentage detector flags

  lemma {:induction false} FailureOutliersExact(snap: seq<SR.Window>, es: seq<nat>, threshold: nat)
    requires SR.Ascending(es) && forall i :: 0 <= i < |es| ==> es[i] < |snap|
    ensures var fs := FailureOutliers(snap, es, threshold);
            && SR.Ascending(fs)
            && forall x :: x in fs <==> x in es && FailsTooOften(snap[x], threshold)
  {
    hide FailsTooOften;
    if es == [] {
    } else {
      var n := |es| - 1;
      assert es == es[..n] + [es[n]];
      FailureOutliersExact(snap, es[..n], threshold);
      var front := FailureOutliers(snap, es[..n], threshold);
      forall a | 0 <= a < |front| ensures front[a] < es[n] {
        assert front[a] in front;
      }
    }
  }

  lemma FailureFlagsExact(c: Config, snap: seq<SR.Window>)
    ensures var fs, es := FailureFlags(c, snap), SR.EligibleIn(snap, c.failurePct.volume);
            && SR.Ascending(fs)
            && forall x :: x in fs <==> c.failurePct.minHosts <= |es| && x in es && FailsTooOften(snap[x], c.failurePct.threshold)
  {
    hide FailsTooOften;
    SR.EligibleExact(snap, c.failurePct.volume);
    FailureOutliersExact(snap, SR.EligibleIn(snap, c.failurePct.volume), c.failurePct.threshold);
  }

  // The whole sweep

  /** The windows as the traffic left them are all reset, and nobody is past its deadline. */
  lemma {:induction false} ResetOut(s: State, k: nat)
    requires k <= |s.hosts|
    ensures var t := ResetFirst(s, k);
            && t.now == s.now && t.detected == s.detected
            && forall i :: 0 <= i < |s.hosts| ==>
                 && t.hosts[i].ejected == (if i < k then Out(s.hosts[i], s.now) else s.hosts[i].ejected)
                 && t.hosts[i].unejectAt == s.hosts[i].unejectAt
  {
    if k == 0 {
    } else {
      ResetOut(s, k - 1);
    }
  }

  /** Host i is flagged by the success-rate detector and its roll enforces. */
  ghost predicate SlowHost(c: Config, s: State, sqrt: real -> real, roll: nat -> nat, i: int) {
    var snap := SnapOf(s);
    var es := SR.EligibleIn(snap, c.successRate.volume);
    && c.successRate.minHosts <= |es| && i in es && Enforces(c.successRate.enforcing, roll(i))
    && var t := SR.Threshold(SR.Rates(snap, es), SR.Factor(c.successRate.threshold), sqrt);
       t > 0.0 && (snap[i].success as real) / (snap[i].total as real) < t
  }

  /** Host i is flagged by the failure-percentage detector and its roll enforces. */
  ghost predicate FailingHost(c: Config, s: State, roll: nat -> nat, i: int) {
    var snap := SnapOf(s);
    var es := SR.EligibleIn(snap, c.failurePct.volume);
    && c.failurePct.minHosts <= |es| && i in es && Enforces(c.failurePct.enforcing, roll(i))
    && FailsTooOften(snap[i], c.failurePct.threshold)
  }

  /** Host i is out in t and was not out in s. */
  ghost predicate WentOut(s: State, t: State, i: int) {
    0 <= i < |s.hosts| == |t.hosts| && t.hosts[i].ejected && !Out(s.hosts[i], s.now)
  }

  /** What a sweep does: only hosts that a detector wants out go out, for the base ejection time; a wanted
      host stays in only if the cap is then full, and then those that went out came before it: slow hosts
      in ascending order, then failing hosts in ascending order. Hosts that were out stay out. */
  ghost predicate SweepResult(c: Config, s: State, t: State, slow: set<nat>, failing: set<nat>) {
    && |t.hosts| == |s.hosts| && t.now == s.now
    && (forall i :: 0 <= i < |s.hosts| && Out(s.hosts[i], s.now) ==>
          t.hosts[i].ejected && t.hosts[i].unejectAt == s.hosts[i].unejectAt)
    && (forall i :: WentOut(s, t, i) ==> (i in slow || i in failing) && t.hosts[i].unejectAt == s.now + c.baseEjectionTime)
    && (forall i :: i in slow && i < |t.hosts| && !t.hosts[i].ejected ==>
          Full(c, t.hosts) && forall j :: WentOut(s, t, j) ==> j in slow && j < i)
    && (forall i :: i in failing && i < |t.hosts| && !t.hosts[i].ejected ==>
          Full(c, t.hosts) && forall j :: WentOut(s, t, j) ==> j in slow || j < i)
  }

  /** Two detectors in turn. */
  lemma SweptTwice(c: Config, s: State, r: State, u: State, t: State, f1: seq<nat>, f2: seq<nat>, roll1: nat -> nat, roll2: nat -> nat)
    requires |r.hosts| == |s.hosts| && r.now == s.now
    requires forall i :: 0 <= i < |s.hosts| ==>
               r.hosts[i].ejected == Out(s.hosts[i], s.now) && r.hosts[i].unejectAt == s.hosts[i].unejectAt
    requires Swept(c, r, u, f1, SuccessRate, roll1) && Swept(c, u, t, f2, FailurePct, roll2)
    ensures SweepResult(c, s, t, Wanted(c, f1, SuccessRate, roll1), Wanted(c, f2, FailurePct, roll2))
  {
    hide Full, Wanted, Settled;
    assert forall i :: WentOut(s, t, i) <==> Newly(r.hosts, u.hosts, i) || Newly(u.hosts, t.hosts, i);
  }

  ghost function SlowHosts(c: Config, s: State, sqrt: real -> real, roll: nat -> nat): set<nat> {
    set i: nat | i < |s.hosts| && SlowHost(c, s, sqrt, roll, i)
  }

  ghost function FailingHosts(c: Config, s: State, roll: nat -> nat): set<nat> {
    set i: nat | i < |s.hosts| && FailingHost(c, s, roll, i)
  }

  lemma SlowAreWanted(c: Config, s: State, sqrt: real -> real, roll: nat -> nat)
    ensures var r := c.successRate;
            var flagged := SR.Outliers(SnapOf(s), r.volume, r.minHosts, r.threshold, sqrt);
            SR.Ascending(flagged) && SlowHosts(c, s, sqrt, roll) == Wanted(c, flagged, SuccessRate, roll)
  {
    hide SR.Threshold, SR.Factor, SR.Outliers, Enforces, SR.Ascending;
    SR.OutliersExact(SnapOf(s), c.successRate.volume, c.successRate.minHosts, c.successRate.threshold, sqrt);
  }

  lemma FailingAreWanted(c: Config, s: State, roll: nat -> nat)
    ensures var flagged := FailureFlags(c, SnapOf(s));
            SR.Ascending(flagged) && FailingHosts(c, s, roll) == Wanted(c, flagged, FailurePct, roll)
  {
    hide FailsTooOften, FailureFlags, Enforces, SR.Ascending;
    FailureFlagsExact(c, SnapOf(s));
  }

  /** Whom a sweep ejects, on the windows that the traffic since the last sweep has left. */
  lemma SweepEjects(c: Config, s: State, sqrt: real -> real, srRoll: nat -> nat, fpRoll: nat -> nat)
    requires c.baseEjectionTime > 0
    ensures SweepResult(c, s, Sweep(c, s, sqrt, srRoll, fpRoll),
                        SlowHosts(c, s, sqrt, srRoll), FailingHosts(c, s, fpRoll))
  {
    hide SR.Outliers, FailureFlags, EjectAll, ResetFirst, Swept, SweepResult, SlowHosts, FailingHosts, Wanted, SR.Ascending;
    var snap, r := SnapOf(s), ResetFirst(s, |s.hosts|);
    ResetOut(s, |s.hosts|);
    var f1 := SR.Outliers(snap, c.successRate.volume, c.successRate.minHosts, c.successRate.threshold, sqrt);
    SlowAreWanted(c, s, sqrt, srRoll);
    FailingAreWanted(c, s, fpRoll);
    EjectAllMeans(c, r, f1, SuccessRate, srRoll);
    var u := EjectAll(c, r, f1, SuccessRate, srRoll);
    assert Settled(u) by { SweptSettled(c, r, u, f1, SuccessRate, srRoll); }
    EjectAllMeans(c, u, FailureFlags(c, snap), FailurePct, fpRoll);
    SweptTwice(c, s, r, u, Sweep(c, s, sqrt, srRoll, fpRoll), f1, FailureFlags(c, snap), srRoll, fpRoll);
  }

  lemma SweptSettled(c: Config, s: State, t: State, flagged: seq<nat>, k: Kind, roll: nat -> nat)
    requires Swept(c, s, t, flagged, k, roll)
    ensures Settled(t)
  {
  }
}
