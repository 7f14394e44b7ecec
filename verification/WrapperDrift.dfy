/** Outlier ejection under a wrapper balancer: a priority tier and a locality alike scan their hosts
    through a view of the registry that carries no gauge (internal/cluster/health.go, priority.go,
    locality.go). */
module WrapperDrift {
  import opened Ejection
  import B = Balancers
  import W = Waterfall

  /** The hosts available at the instant of s. */
  function Up(s: State): set<nat> {
    set i | 0 <= i < |s.hosts| && Available(s, i)
  }

  // Three hosts, the first two in one tier or locality. The registry has the default panic threshold
  // and the wrapper the default overprovisioning factor.
  const GROUPS: seq<seq<nat>> := [[0, 1], [2]]
  const ALL: seq<nat> := [0, 1, 2]

  function View(s: State): B.Health { B.Health(Up(s), 50) }

  /** With host 0 out, the priority balancer still gives the first tier 70 percent of the load. */
  lemma TierStillDrawn()
    ensures W.Load(W.Capacities(GROUPS, B.Health({1, 2}, 50), 140), 0) > 0.0
    ensures var cs := W.Capacities(GROUPS, B.Health({1, 2}, 50), 140); W.Prefix(cs, |cs|) >= 100.0
  {
    var h := B.Health({1, 2}, 50);
    CountFirst();
    assert GROUPS[0] == [0, 1] && GROUPS[1] == [2];
    var cs := W.Capacities(GROUPS, h, 140);
    assert cs[0] == 70.0 && cs[1] == 100.0;
    PrefixTwo(cs);
  }

  lemma PrefixTwo(cs: seq<real>)
    requires |cs| == 2
    ensures W.Prefix(cs, 0) == 0.0 && W.Prefix(cs, 1) == cs[0] && W.Prefix(cs, 2) == cs[0] + cs[1]
  {
    assert W.Prefix(cs, 1) == W.Prefix(cs, 0) + cs[0];
    assert W.Prefix(cs, 2) == W.Prefix(cs, 1) + cs[1];
  }

  /** And the locality balancer, which is not in panic, still gives the first locality weight. */
  lemma LocalityStillDrawn()
    ensures W.Weights(GROUPS, [1, 1], B.Health({1, 2}, 50), 140)[0] > 0.0
    ensures !B.InPanic(B.Health({1, 2}, 50), ALL)
  {
    CountFirst();
    assert GROUPS[0] == [0, 1];
    assert W.EffectiveWeight(1, 0.5, 140) == 0.7;
  }

  lemma CountFirst()
    ensures B.AvailableCount([0, 1], {1, 2}) == 1 && B.AvailableCount([2], {1, 2}) == 1
    ensures B.AvailableCount([0, 1, 2], {1, 2}) == 2
  {
    assert [0, 1][..1] == [0] && [0][..0] == [] && [2][..0] == [] && [0, 1, 2][..2] == [0, 1];
  }

  /** Ejection, then one pick whose shared scan comes before the deadline and whose child's scan of
      the first group comes after it. Both wrappers may send the pick there, and the gauge ends above
      the number of ejected hosts. */
  lemma WrapperPickDrifts(c: Config, roll: Kind -> nat)
    requires Hasty(c)
    ensures var s := Step(c, Init(3, 0), Result(0, 500, false, roll));
            var s1 := Run(c, s, SharedScan(3));
            && W.Load(W.Capacities(GROUPS, View(s1), 140), 0) > 0.0
            && W.Weights(GROUPS, [1, 1], View(s1), 140)[0] > 0.0 && !B.InPanic(View(s1), ALL)
    ensures var t := Run(c, Init(3, 0), [Result(0, 500, false, roll)] + PickEvents(3, [Tick(1)], GROUPS[0]));
            t.active > EjectedIn(t.hosts)
  {
    hide Run, Step, EjectedIn, W.Load, W.Capacities, W.Weights, B.InPanic;
    var e, s0 := Result(0, 500, false, roll), Init(3, 0);
    var s := Step(c, s0, e);
    FirstEjection(c, 3, roll);
    SharedScanIdle(c, s, 3);
    assert Up(s) == {1, 2};
    TierStillDrawn();
    LocalityStillDrawn();
    RunOne(c, s0, e);
    RunOn(c, s0, [e], PickEvents(3, [Tick(1)], GROUPS[0]));
    RunOne(c, s, Tick(1));
    TickStep(c, s);
    PassivePickDriftsIff(c, s, [Tick(1)], GROUPS[0]);
    assert SlippedThrough(s, Step(c, s, Tick(1)), GROUPS[0][0]);
    EjectionSafety(c, 3, 0, [e] + PickEvents(3, [Tick(1)], GROUPS[0]));
  }

  lemma TickStep(c: Config, s: State)
    ensures Step(c, s, Tick(1)) == s.(now := s.now + 1)
  {
  }
}
