/** The detector as an object over the shared host registry; every method is proved to move the
    registry exactly as the corresponding step of the ejection machine does. */
module Outlier {
  import opened Ejection
  import SR = SuccessRate

  class OutlierDetector {
    const cfg: Config
    var hosts: seq<Host>
    var now: int
    var ejectionsActive: int
    var ejectionsEnforcedTotal: nat
    var ejectionsOverflow: nat
    var detected: map<Kind, nat>
    var enforced: map<Kind, nat>
    ghost var unejected: nat
    ghost var silent: nat

    ghost function View(): State
      reads this
    {
      State(hosts, now, ejectionsActive, ejectionsEnforcedTotal, ejectionsOverflow, detected, enforced, unejected, silent)
    }

    constructor (cfg: Config, n: nat, now: int)
      ensures this.cfg == cfg && View() == Init(n, now)
    {
      this.cfg := cfg;
      hosts := seq(n, _ => Fresh());
      this.now := now;
      ejectionsActive, ejectionsEnforcedTotal, ejectionsOverflow := 0, 0, 0;
      detected, enforced, unejected, silent := map[], map[], 0, 0;
    }

    /** isEjectedState, with its lazy readmission. */
    method IsEjected(i: nat) returns (out: bool)
      requires i < |hosts|
      modifies this
      ensures View() == Refresh(old(View()), i)
      ensures out == (old(hosts)[i].ejected && now < old(hosts)[i].unejectAt) == hosts[i].ejected
    {
      if !hosts[i].ejected {
        return false;
      }
      if now >= hosts[i].unejectAt {
        hosts := hosts[i := hosts[i].(ejected := false)];
        ejectionsActive := ejectionsActive - 1;
        unejected := unejected + 1;
        return false;
      }
      return true;
    }

    /** available: an unhealthy host short-circuits before the ejection is looked at. */
    method IsAvailable(i: nat) returns (ok: bool)
      requires i < |hosts|
      modifies this
      ensures ok == Available(old(View()), i)
      ensures View() == Step(cfg, old(View()), Scan(i))
    {
      if !hosts[i].healthy {
        return false;
      }
      var out := IsEjected(i);
      return !out;
    }

    method EjectedCount() returns (n: nat)
      modifies this
      ensures View() == RefreshFirst(old(View()), |old(hosts)|)
      ensures n == EjectedIn(hosts)
    {
      n := 0;
      var i := 0;
      while i < |hosts|
        invariant i <= |hosts| == |old(hosts)|
        invariant View() == RefreshFirst(old(View()), i)
        invariant n == EjectedIn(hosts[..i])
      {
        ghost var before := hosts;
        var out := IsEjected(i);
        assert hosts[..i] == before[..i];
        assert hosts[..i + 1][..i] == hosts[..i];
        if out {
          n := n + 1;
        }
        i := i + 1;
      }
      assert hosts[..i] == hosts;
    }

    method TryEject(i: nat, k: Kind, roll: nat) returns (done: bool)
      requires i < |hosts|
      modifies this
      ensures (View(), done) == Ejection.TryEject(cfg, old(View()), i, k, roll)
    {
      if hosts[i].ejected {
        return false;
      }
      var enforcing := RuleOf(cfg, k).enforcing;
      if !(enforcing >= 100 || (enforcing != 0 && roll < enforcing)) {
        return false;
      }
      var total := |hosts|;
      var n := EjectedCount();
      if (n + 1) * 100 > cfg.maxEjectionPct * total {
        ejectionsOverflow := ejectionsOverflow + 1;
        return false;
      }
      Eject(i, k);
      return true;
    }

    /** The winning branch of tryEject. */
    method Eject(i: nat, k: Kind)
      requires i < |hosts|
      modifies this`hosts, this`ejectionsActive, this`ejectionsEnforcedTotal, this`enforced
      ensures hosts == old(hosts)[i := old(hosts)[i].(ejected := true, unejectAt := now + cfg.baseEjectionTime)]
      ensures ejectionsActive == old(ejectionsActive) + 1 && ejectionsEnforcedTotal == old(ejectionsEnforcedTotal) + 1
      ensures enforced == Bump(old(enforced), k)
    {
      hosts := hosts[i := hosts[i].(ejected := true, unejectAt := now + cfg.baseEjectionTime)];
      ejectionsActive := ejectionsActive + 1;
      ejectionsEnforcedTotal := ejectionsEnforcedTotal + 1;
      enforced := Bump(enforced, k);
    }

    method BumpStreak(i: nat, k: Kind, roll: nat) returns (done: bool)
      requires i < |hosts|
      modifies this
      ensures (View(), done) == Ejection.BumpStreak(cfg, old(View()), i, k, roll)
    {
      if !RuleOf(cfg, k).enabled {
        return false;
      }
      var n := (Streak(hosts[i], k) + 1) % STREAK_WORD;
      hosts := hosts[i := SetStreak(hosts[i], k, n)];
      if n < RuleOf(cfg, k).threshold {
        return false;
      }
      detected := Bump(detected, k);
      done := TryEject(i, k, roll);
    }

    method RecordExternal5xx(i: nat, code: int, roll: Kind -> nat)
      requires i < |hosts|
      modifies this
      ensures View() == Ejection.RecordExternal5xx(cfg, old(View()), i, code, roll)
    {
      hide Ejection.BumpStreak;
      var done;
      if code == 502 || code == 503 || code == 504 {
        done := BumpStreak(i, Gateway, roll(Gateway));
        if done {
          return;
        }
      } else {
        hosts := hosts[i := SetStreak(hosts[i], Gateway, 0)];
      }
      done := BumpStreak(i, FiveXX, roll(FiveXX));
    }

    method Record(i: nat, code: int, localOrigin: bool, roll: Kind -> nat)
      modifies this
      ensures View() == Ejection.Record(cfg, old(View()), i, code, localOrigin, roll)
    {
      hide Ejection.BumpStreak, Ejection.RecordExternal5xx;
      if i >= |hosts| {
        return;
      }
      var _ := IsEjected(i);
      hosts := hosts[i := CountWindow(hosts[i], !localOrigin && (code < 500 || code >= 600))];
      if localOrigin {
        if !cfg.splitLocalOrigin {
          RecordExternal5xx(i, code, roll);
        } else {
          var _ := BumpStreak(i, LocalOrigin, roll(LocalOrigin));
        }
        return;
      }
      if cfg.splitLocalOrigin {
        hosts := hosts[i := SetStreak(hosts[i], LocalOrigin, 0)];
      }
      if code < 500 || code >= 600 {
        hosts := hosts[i := SetStreak(SetStreak(hosts[i], FiveXX, 0), Gateway, 0)];
        return;
      }
      RecordExternal5xx(i, code, roll);
    }

    /** The tail of both statistical detectors: count and try to eject each flagged row. */
    method EjectFlagged(flagged: seq<nat>, k: Kind, roll: nat -> nat)
      requires forall j :: 0 <= j < |flagged| ==> flagged[j] < |hosts|
      modifies this
      ensures View() == EjectAll(cfg, old(View()), flagged, k, roll)
    {
      hide Ejection.TryEject;
      var j := 0;
      while j < |flagged|
        invariant j <= |flagged| && |hosts| == |old(hosts)|
        invariant View() == EjectAll(cfg, old(View()), flagged[..j], k, roll)
      {
        assert flagged[..j + 1][..j] == flagged[..j];
        detected := Bump(detected, k);
        var _ := TryEject(flagged[j], k, roll(flagged[j]));
        j := j + 1;
      }
      assert flagged[..j] == flagged;
    }

    /** Which rows the failure-percentage detector flags. */
    method FlagFailures(snap: seq<SR.Window>) returns (flagged: seq<nat>)
      ensures flagged == FailureFlags(cfg, snap)
    {
      var eligible := SR.SelectEligible(snap, cfg.failurePct.volume);
      flagged := [];
      if |eligible| < cfg.failurePct.minHosts {
        return;
      }
      for j := 0 to |eligible|
        invariant flagged == FailureOutliers(snap, eligible[..j], cfg.failurePct.threshold)
      {
        assert eligible[..j + 1][..j] == eligible[..j];
        if FailsTooOften(snap[eligible[j]], cfg.failurePct.threshold) {
          flagged := flagged + [eligible[j]];
        }
      }
      assert eligible[..|eligible|] == eligible;
    }

    /** The snapshot loop of sweep: refresh each host and swap its window to zero. */
    method TakeWindows() returns (snap: seq<SR.Window>)
      modifies this
      ensures snap == SnapOf(old(View()))
      ensures View() == ResetFirst(old(View()), |old(hosts)|)
    {
      hide Ejection.Refresh;
      snap := [];
      var i := 0;
      while i < |hosts|
        invariant i <= |hosts| == |old(hosts)|
        invariant View() == ResetFirst(old(View()), i)
        invariant snap == SnapOf(old(View()))[..i]
        invariant forall j :: i <= j < |hosts| ==> hosts[j] == old(hosts)[j]
      {
        var _ := IsEjected(i);
        RefreshTouchesOne(old(View()), i);
        snap := snap + [hosts[i].window];
        hosts := hosts[i := hosts[i].(window := SR.Window(0, 0))];
        i := i + 1;
      }
    }

    method Sweep(sqrt: real -> real, srRoll: nat -> nat, fpRoll: nat -> nat)
      requires SR.IsSqrt(sqrt)
      modifies this
      ensures View() == Ejection.Sweep(cfg, old(View()), sqrt, srRoll, fpRoll)
    {
      hide EjectAll, ResetFirst, FailureFlags, SR.Outliers, SR.IsSqrt, SnapOf;
      var snap := TakeWindows();
      var r := cfg.successRate;
      var slow := SR.EvalSuccessRate(snap, r.volume, r.minHosts, r.threshold, sqrt);
      EjectFlagged(slow, SuccessRate, srRoll);
      var failing := FlagFailures(snap);
      EjectFlagged(failing, FailurePct, fpRoll);
    }
  }

  lemma RefreshTouchesOne(s: State, i: nat)
    requires i < |s.hosts|
    ensures var t, u := ResetFirst(s, i), Refresh(ResetFirst(s, i), i);
            && |u.hosts| == |t.hosts| && u.hosts[i].window == t.hosts[i].window
            && forall j :: 0 <= j < |t.hosts| && j != i ==> u.hosts[j] == t.hosts[j]
  {
  }
}
