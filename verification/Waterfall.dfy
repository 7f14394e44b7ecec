/** The wrapper balancers (internal/cluster/priority.go, locality.go) over exact reals: which group a
    pick goes to, and how the panic counter moves. */
module Waterfall {
  import opened Options
  import opened Balancers

  function MinReal(x: real, y: real): real { if x <= y then x else y }

  /** The sum of the first i entries. */
  function Prefix(cs: seq<real>, i: nat): real
    requires i <= |cs|
  {
    if i == 0 then 0.0 else Prefix(cs, i - 1) + cs[i - 1]
  }

  predicate Nonneg(cs: seq<real>) { forall i :: 0 <= i < |cs| ==> cs[i] >= 0.0 }

  function Clip(x: real): real { MinReal(100.0, x) }

  /** Tier i's load by its definition: what the first i + 1 tiers can carry of 100 percent, less
      what the first i can. */
  function Load(cs: seq<real>, i: nat): real
    requires i < |cs|
  {
    Clip(Prefix(cs, i + 1)) - Clip(Prefix(cs, i))
  }

  /** cascadeLoads: every prefix of the loads carries min(100, prefix of the capacities). */
  method CascadeLoads(capacities: seq<real>) returns (loads: seq<real>, capacitySum: real)
    requires Nonneg(capacities)
    ensures |loads| == |capacities| && capacitySum == Prefix(capacities, |capacities|)
    ensures forall i :: 0 <= i < |loads| ==> loads[i] == Load(capacities, i)
    ensures forall i :: 0 <= i <= |loads| ==> Prefix(loads, i) == Clip(Prefix(capacities, i))
  {
    loads, capacitySum := [], 0.0;
    var remaining := 100.0;
    for i := 0 to |capacities|
      invariant |loads| == i && capacitySum == Prefix(capacities, i) && remaining == 100.0 - Clip(capacitySum)
      invariant forall j :: 0 <= j < i ==> loads[j] == Load(capacities, j)
    {
      var c := capacities[i];
      capacitySum := capacitySum + c;
      var load := MinReal(c, remaining);
      loads := loads + [load];
      remaining := remaining - load;
    }
    PrefixOfLoads(capacities, loads, |loads|);
    forall i | 0 <= i <= |loads| ensures Prefix(loads, i) == Clip(Prefix(capacities, i)) {
      PrefixOfLoads(capacities, loads, i);
    }
  }

  lemma {:induction false} PrefixOfLoads(cs: seq<real>, loads: seq<real>, i: nat)
    requires |loads| == |cs| && i <= |cs| && forall j :: 0 <= j < |cs| ==> loads[j] == Load(cs, j)
    ensures Prefix(loads, i) == Clip(Prefix(cs, i))
  {
    if i == 0 {
    } else {
      PrefixOfLoads(cs, loads, i - 1);
    }
  }

  lemma {:induction false} PrefixGrows(cs: seq<real>, i: nat, j: nat)
    requires Nonneg(cs) && i <= j <= |cs|
    ensures 0.0 <= Prefix(cs, i) <= Prefix(cs, j)
    decreases j
  {
    if i < j {
      PrefixGrows(cs, i, j - 1);
    } else if i > 0 {
      PrefixGrows(cs, i - 1, i - 1);
    }
  }

  lemma LoadWithinCapacity(cs: seq<real>, i: nat)
    requires Nonneg(cs) && i < |cs|
    ensures 0.0 <= Load(cs, i) <= cs[i]
  {
    PrefixGrows(cs, i, i + 1);
  }

  /** A tier gets load only if every higher tier is saturated. */
  lemma LoadNeedsSaturation(cs: seq<real>, i: nat, j: nat)
    requires Nonneg(cs) && j < i < |cs| && Load(cs, i) > 0.0
    ensures Load(cs, j) == cs[j]
  {
    PrefixGrows(cs, j, j + 1);
    PrefixGrows(cs, j + 1, i);
    PrefixGrows(cs, i, i + 1);
  }

  lemma {:induction false} PrefixRaised(cs: seq<real>, i: nat, c: real, j: nat)
    requires i < |cs| && j <= |cs|
    ensures Prefix(cs[i := c], j) == Prefix(cs, j) + if i < j then c - cs[i] else 0.0
  {
    if j == 0 {
    } else {
      PrefixRaised(cs, i, c, j - 1);
    }
  }

  /** Raising one tier's capacity never raises a lower tier's load, and leaves higher tiers alone. */
  lemma RaisingCapacity(cs: seq<real>, i: nat, c: real, j: nat)
    requires Nonneg(cs) && i < |cs| && j < |cs| && i != j && c >= cs[i]
    ensures if i < j then Load(cs[i := c], j) <= Load(cs, j) else Load(cs[i := c], j) == Load(cs, j)
  {
    PrefixRaised(cs, i, c, j);
    PrefixRaised(cs, i, c, j + 1);
    PrefixGrows(cs, j, j + 1);
  }

  /** Enough capacity in total means the loads add up to exactly 100. */
  lemma LoadsTotal(cs: seq<real>, loads: seq<real>)
    requires |loads| == |cs| && forall j :: 0 <= j < |cs| ==> loads[j] == Load(cs, j)
    ensures Prefix(loads, |cs|) == (if Prefix(cs, |cs|) >= 100.0 then 100.0 else Prefix(cs, |cs|))
  {
    PrefixOfLoads(cs, loads, |cs|);
  }

  // ---------------------------------------------------------------------------
  // Drawing a group
  // ---------------------------------------------------------------------------

  datatype Bucket = Bucket(cum: real, group: nat)

  /** The buckets of the first i shares: one per positive share, holding its interval's upper end. */
  ghost predicate Covers(buckets: seq<Bucket>, shares: seq<real>, i: nat)
    requires i <= |shares|
  {
    && (forall b :: 0 <= b < |buckets| ==> BucketOk(buckets, b, shares, i))
    && (buckets == [] <==> forall j :: 0 <= j < i ==> shares[j] == 0.0)
  }

  ghost predicate BucketOk(buckets: seq<Bucket>, b: nat, shares: seq<real>, i: nat)
    requires i <= |shares| && b < |buckets|
  {
    var g := buckets[b].group;
    && g < i && shares[g] > 0.0
    && buckets[b].cum == Prefix(shares, g + 1)
    && (if b == 0 then 0.0 else buckets[b - 1].cum) == Prefix(shares, g)
  }

  /** The first loop of both wrappers' picks. */
  method FillBuckets(shares: seq<real>) returns (buckets: seq<Bucket>, total: real)
    requires Nonneg(shares)
    ensures Covers(buckets, shares, |shares|) && total == Prefix(shares, |shares|)
    ensures total > 0.0 <==> buckets != []
    ensures buckets != [] ==> buckets[|buckets| - 1].cum == total
  {
    buckets, total := [], 0.0;
    for i := 0 to |shares|
      invariant total == Prefix(shares, i) && total >= 0.0 && (total > 0.0 <==> buckets != [])
      invariant Covers(buckets, shares, i)
      invariant buckets != [] ==> buckets[|buckets| - 1].cum == total
    {
      ghost var next := i + 1;
      if shares[i] > 0.0 {
        total := total + shares[i];
        ghost var before := buckets;
        buckets := buckets + [Bucket(total, i)];
        forall b | 0 <= b < |buckets| ensures BucketOk(buckets, b, shares, next) {
          assert b < |before| ==> BucketOk(before, b, shares, i);
        }
      } else {
        forall b | 0 <= b < |buckets| ensures BucketOk(buckets, b, shares, next) {
          assert BucketOk(buckets, b, shares, i);
        }
      }
    }
  }

  /** A uniform draw from [0, total]. */
  function Scale(u: real, total: real): (r: real)
    requires 0.0 <= u <= 1.0 && total >= 0.0
    ensures 0.0 <= r <= total
  {
    ScaleBounds(u, total);
    u * total
  }

  lemma ScaleBounds(u: real, t: real)
    requires 0.0 <= u <= 1.0 && t >= 0.0
    ensures 0.0 <= u * t <= t
  {
    assert (1.0 - u) * t == t - u * t;
  }

  /** The cumulative-bucket walk: the group in whose interval the draw falls, and so always one with
      a positive share; none exactly when no share is positive. */
  method DrawGroup(shares: seq<real>, u: real) returns (group: Option<nat>, total: real)
    requires 0.0 <= u <= 1.0 && Nonneg(shares)
    ensures total == Prefix(shares, |shares|) >= 0.0
    ensures group.None? <==> total <= 0.0
    ensures group.None? <==> forall i :: 0 <= i < |shares| ==> shares[i] == 0.0
    ensures group.Some? ==>
              && group.value < |shares| && shares[group.value] > 0.0
              && Prefix(shares, group.value) <= Scale(u, total) <= Prefix(shares, group.value + 1)
  {
    hide Scale;
    var buckets;
    buckets, total := FillBuckets(shares);
    if |buckets| == 0 {
      PrefixGrows(shares, 0, |shares|);
      return None, total;
    }
    var r := Scale(u, total);
    for b := 0 to |buckets|
      invariant b > 0 ==> r >= buckets[b - 1].cum
    {
      assert BucketOk(buckets, b, shares, |shares|);
      if r < buckets[b].cum {
        return Some(buckets[b].group), total;
      }
    }
    assert BucketOk(buckets, |buckets| - 1, shares, |shares|);
    return Some(buckets[|buckets| - 1].group), total;
  }

  // ---------------------------------------------------------------------------
  // Priority tiers
  // ---------------------------------------------------------------------------

  /** The available fraction of a group, 1 without a registry. */
  function Fraction(eps: seq<Host>, h: Health): (f: real)
    ensures 0.0 <= f <= 1.0
    ensures h.Health? && eps != [] ==> (f > 0.0 <==> AvailableCount(eps, h.up) > 0)
  {
    if h.Health? && |eps| > 0 then
      Ratio(AvailableCount(eps, h.up) as real, |eps| as real);
      (AvailableCount(eps, h.up) as real) / (|eps| as real)
    else 1.0
  }

  lemma Ratio(a: real, n: real)
    requires n > 0.0 && 0.0 <= a <= n
    ensures 0.0 <= a / n <= 1.0 && (a / n > 0.0 <==> a > 0.0)
  {
    var q := a / n;
    assert q * n == a;
  }

  function TierCapacity(fraction: real, opf: nat): (c: real)
    requires fraction >= 0.0
    ensures 0.0 <= c <= 100.0 && (c > 0.0 ==> fraction > 0.0)
  {
    MinReal(100.0, (opf as real) * fraction)
  }

  function Capacities(groups: seq<seq<Host>>, h: Health, opf: nat): (cs: seq<real>)
    ensures |cs| == |groups| && Nonneg(cs)
    ensures forall i :: 0 <= i < |groups| ==> cs[i] == TierCapacity(Fraction(groups[i], h), opf)
  {
    seq(|groups|, i requires 0 <= i < |groups| => TierCapacity(Fraction(groups[i], h), opf))
  }

  /** A share of n hosts of which a are available: min(n, a * factor / 100), in hundredths. */
  function Provisioned(n: nat, a: nat, opf: nat): nat {
    if opf * a < 100 * n then opf * a else 100 * n
  }

  /** The hosts of a group that a wrapper counts: the available ones, or all without a registry. */
  ghost function Counted(eps: seq<Host>, h: Health): nat {
    if h.Health? then |UpIn(eps, h.up)| else |eps|
  }

  lemma FractionMeans(eps: seq<Host>, h: Health)
    requires eps != []
    ensures Fraction(eps, h) * (|eps| as real) == Counted(eps, h) as real
  {
    if h.Health? {
      AvailableIsCount(eps, h.up);
    }
  }

  lemma Overprovision(f: real, n: nat, a: nat, opf: nat)
    requires n > 0 && f >= 0.0 && f * (n as real) == a as real
    ensures MinReal(100.0, (opf as real) * f) * (n as real) == Provisioned(n, a, opf) as real
  {
    var c := (opf as real) * f;
    assert c * (n as real) == (opf as real) * (f * (n as real));
    assert c * (n as real) == (opf * a) as real;
    OrderScales(100.0, c, n as real);
  }

  lemma OrderScales(x: real, y: real, n: real)
    requires n > 0.0
    ensures x <= y <==> x * n <= y * n
  {
    if x <= y {
      assert (y - x) * n >= 0.0;
    } else {
      assert (x - y) * n > 0.0;
    }
  }

  /** A tier of n hosts with a available carries min(100, factor * a / n) percent. */
  lemma CapacityMeans(groups: seq<seq<Host>>, h: Health, opf: nat, i: nat)
    requires i < |groups| && groups[i] != []
    ensures var n := |groups[i]|;
            Capacities(groups, h, opf)[i] * (n as real) == Provisioned(n, Counted(groups[i], h), opf) as real
  {
    hide Fraction, Provisioned;
    FractionMeans(groups[i], h);
    Overprovision(Fraction(groups[i], h), |groups[i]|, Counted(groups[i], h), opf);
  }

  /** a hosts, times the factor in percent, cover n. */
  predicate Suffices(n: nat, a: nat, opf: nat) { opf * a >= 100 * n }

  /** A first tier whose available hosts, times the factor, cover all its hosts takes every request. */
  lemma TopTierTakesAll(groups: seq<seq<Host>>, h: Health, opf: nat, i: nat)
    requires i < |groups| && groups[0] != []
    requires Suffices(|groups[0]|, Counted(groups[0], h), opf)
    ensures var cs := Capacities(groups, h, opf);
            Prefix(cs, |cs|) >= 100.0 && Load(cs, i) == if i == 0 then 100.0 else 0.0
  {
    hide Capacities, Counted, Provisioned, Prefix, Load, Suffices;
    var n, a := |groups[0]|, Counted(groups[0], h);
    CapacityMeans(groups, h, opf, 0);
    ProvisionedAll(n, a, opf);
    FullCapacity(Capacities(groups, h, opf)[0], n as real);
    FirstTakesAll(Capacities(groups, h, opf), i);
  }

  lemma ProvisionedAll(n: nat, a: nat, opf: nat)
    requires Suffices(n, a, opf)
    ensures Provisioned(n, a, opf) as real == 100.0 * (n as real)
  {
  }

  lemma FullCapacity(c: real, n: real)
    requires n > 0.0 && c * n == 100.0 * n
    ensures c == 100.0
  {
    OrderScales(100.0, c, n);
    OrderScales(c, 100.0, n);
  }

  lemma FirstTakesAll(cs: seq<real>, i: nat)
    requires Nonneg(cs) && i < |cs| && cs[0] == 100.0
    ensures Prefix(cs, |cs|) >= 100.0 && Load(cs, i) == if i == 0 then 100.0 else 0.0
  {
    assert Prefix(cs, 1) == 100.0 by { assert Prefix(cs, 0) == 0.0; }
    PrefixGrows(cs, 1, |cs|);
    if i > 0 {
      PrefixGrows(cs, 1, i);
      PrefixGrows(cs, 1, i + 1);
    }
  }

  /** priorityLB.Pick up to the child's own pick: the tier drawn, or none for the flat bypass. */
  method PriorityRoute(groups: seq<seq<Host>>, h: Health, opf: nat, u: real) returns (tier: Option<nat>, counted: nat)
    requires 0.0 <= u <= 1.0
    ensures var cs := Capacities(groups, h, opf);
            && (tier.None? <==> Prefix(cs, |cs|) < 100.0)
            && (tier.Some? ==> tier.value < |groups| && Load(cs, tier.value) > 0.0)
            && counted == (if tier.None? && h.Health? then 1 else 0)
  {
    hide Capacities, TierCapacity, Fraction;
    var capacities: seq<real> := [];
    for i := 0 to |groups|
      invariant capacities == Capacities(groups, h, opf)[..i]
    {
      capacities := capacities + [TierCapacity(Fraction(groups[i], h), opf)];
    }
    assert capacities == Capacities(groups, h, opf);
    var loads, capacitySum := CascadeLoads(capacities);
    LoadsTotal(capacities, loads);
    if capacitySum < 100.0 {
      return None, if h.Health? then 1 else 0;
    }
    forall i | 0 <= i < |loads| ensures loads[i] >= 0.0 {
      LoadWithinCapacity(capacities, i);
    }
    var total;
    tier, total := DrawGroup(loads, u);
    counted := 0;
  }

  /** No host of the group is available. */
  ghost predicate AllDown(eps: seq<Host>, h: Health) {
    h.Health? && forall i :: 0 <= i < |eps| ==> eps[i] !in h.up
  }

  /** Whatever leaf policy the children run, and even if health changes between the wrapper's scan, in
      h, and the child's, in later: a bypassed pick returns a host and counts exactly once, any other
      pick counts nothing, returns an available host of a tier with positive load, and fails exactly if
      every host of that tier has gone down in between; so at one instant it never fails. */
  lemma PriorityPick(groups: seq<seq<Host>>, all: seq<Host>, h: Health, later: Health, opf: nat,
                     tier: Option<nat>, counted: nat, host: Option<Host>, leafCounted: nat)
    requires h.Health? && later.Health? && (forall i :: 0 <= i < |groups| ==> groups[i] != []) && all != []
    requires tier.Some? ==> tier.value < |groups| && Load(Capacities(groups, h, opf), tier.value) > 0.0
    requires counted == if tier.None? then 1 else 0
    requires LeafPick(if tier.None? then all else groups[tier.value],
                      if tier.None? then NoHealth else TierView(later), host, leafCounted)
    ensures counted + leafCounted == if tier.None? then 1 else 0
    ensures tier.None? ==> host.Some? && host.value in all
    ensures tier.Some? && host.Some? ==> host.value in groups[tier.value] && host.value in later.up
    ensures tier.Some? ==> (host.None? <==> AllDown(groups[tier.value], later)) && !AllDown(groups[tier.value], h)
  {
    if tier.Some? {
      var cs := Capacities(groups, h, opf);
      LoadWithinCapacity(cs, tier.value);
      assert AvailableCount(groups[tier.value], h.up) > 0;
    }
  }

  // ---------------------------------------------------------------------------
  // Locality weights
  // ---------------------------------------------------------------------------

  function EffectiveWeight(weight: nat, fraction: real, opf: nat): (w: real)
    requires fraction >= 0.0
    ensures 0.0 <= w <= weight as real && (w > 0.0 ==> fraction > 0.0)
  {
    var availability := MinReal(1.0, (opf as real) / 100.0 * fraction);
    WeightBounds(weight as real, availability);
    (weight as real) * availability
  }

  lemma WeightBounds(w: real, a: real)
    requires w >= 0.0 && 0.0 <= a <= 1.0
    ensures 0.0 <= w * a <= w && (w * a > 0.0 ==> a > 0.0)
  {
    ScaleBounds(a, w);
  }

  function Weights(groups: seq<seq<Host>>, weights: seq<nat>, h: Health, opf: nat): (ws: seq<real>)
    requires |weights| == |groups|
    ensures |ws| == |groups| && Nonneg(ws)
    ensures forall i :: 0 <= i < |groups| ==> ws[i] == EffectiveWeight(weights[i], Fraction(groups[i], h), opf)
  {
    seq(|groups|, i requires 0 <= i < |groups| => EffectiveWeight(weights[i], Fraction(groups[i], h), opf))
  }

  /** A locality of n hosts with a available weighs its configured weight times min(1, factor * a / n). */
  lemma WeightMeans(groups: seq<seq<Host>>, weights: seq<nat>, h: Health, opf: nat, i: nat)
    requires |weights| == |groups| && i < |groups| && groups[i] != []
    ensures var n := |groups[i]|;
            Weights(groups, weights, h, opf)[i] * (n as real) * 100.0
            == (weights[i] as real) * (Provisioned(n, Counted(groups[i], h), opf) as real)
  {
    hide Fraction, Provisioned;
    var f, n, w := Fraction(groups[i], h), |groups[i]| as real, weights[i] as real;
    FractionMeans(groups[i], h);
    Overprovision(f, |groups[i]|, Counted(groups[i], h), opf);
    var m := MinReal(1.0, (opf as real) / 100.0 * f);
    assert m * 100.0 == MinReal(100.0, (opf as real) * f) by {
      assert (opf as real) / 100.0 * f * 100.0 == (opf as real) * f;
      OrderScales(1.0, (opf as real) / 100.0 * f, 100.0);
    }
    assert w * m * n * 100.0 == w * (m * 100.0 * n);
  }

  /** localityWeightedLB.Pick up to the child's own pick: the locality drawn, or none for the flat
      child, which is reached in panic or when no locality has weight. */
  method LocalityRoute(groups: seq<seq<Host>>, weights: seq<nat>, all: seq<Host>, h: Health, opf: nat, u: real)
      returns (group: Option<nat>)
    requires 0.0 <= u <= 1.0 && |weights| == |groups|
    ensures var ws := Weights(groups, weights, h, opf);
            && (group.None? <==> InPanic(h, all) || forall i :: 0 <= i < |ws| ==> ws[i] == 0.0)
            && (group.Some? ==> group.value < |groups| && ws[group.value] > 0.0)
  {
    hide Weights, EffectiveWeight, Fraction;
    if h.Health? && InPanic(h, all) {
      return None;
    }
    var shares: seq<real> := [];
    for i := 0 to |groups|
      invariant shares == Weights(groups, weights, h, opf)[..i]
    {
      shares := shares + [EffectiveWeight(weights[i], Fraction(groups[i], h), opf)];
    }
    assert shares == Weights(groups, weights, h, opf);
    var total;
    group, total := DrawGroup(shares, u);
  }

  /** Whatever leaf policy the children run, and even if health changes between the wrapper's scan, in
      h, and the child's, in later: the flat child counts the pick once if it finds panic itself, no
      other pick counts, and a pick fails exactly if its child finds no panic and no host available.
      At one instant that is exactly outside panic with no host of the cluster available. */
  lemma LocalityPick(groups: seq<seq<Host>>, weights: seq<nat>, all: seq<Host>, h: Health, later: Health, opf: nat,
                     group: Option<nat>, host: Option<Host>, counted: nat)
    requires h.Health? && later.Health? && |weights| == |groups| && all != []
    requires forall i :: 0 <= i < |groups| ==> groups[i] != [] && forall x :: x in groups[i] ==> x in all
    requires if group.Some? then !InPanic(h, all) && group.value < |groups| && Weights(groups, weights, h, opf)[group.value] > 0.0
             else InPanic(h, all) || forall i :: 0 <= i < |groups| ==> Weights(groups, weights, h, opf)[i] == 0.0
    requires LeafPick(if group.None? then all else groups[group.value],
                      if group.None? then later else TierView(later), host, counted)
    ensures counted == if group.None? && InPanic(later, all) then 1 else 0
    ensures var eps := if group.None? then all else groups[group.value];
            && (host.None? <==> !(group.None? && InPanic(later, all)) && AllDown(eps, later))
            && (host.Some? ==> host.value in eps && ((group.None? && InPanic(later, all)) || host.value in later.up))
    ensures later == h ==> (host.None? <==> !InPanic(h, all) && AllDown(all, h)) && counted == if InPanic(h, all) then 1 else 0
  {
    if group.Some? {
      assert AvailableCount(groups[group.value], h.up) > 0;
      var i :| 0 <= i < |groups[group.value]| && groups[group.value][i] in h.up;
      var x := groups[group.value][i];
      assert x in all;
      assert !AllDown(all, h);
    }
  }

  // ---------------------------------------------------------------------------
  // The wrapper objects over round-robin children
  // ---------------------------------------------------------------------------

  /** One child per group, built over the group's endpoints. */
  ghost predicate Built(groups: seq<seq<Host>>, children: seq<RoundRobin>) {
    && |children| == |groups|
    && forall i :: 0 <= i < |groups| ==> groups[i] != [] && children[i].endpoints == groups[i]
  }

  class PriorityLB {
    const groups: seq<seq<Host>>
    const children: seq<RoundRobin>
    const flat: RoundRobin
    const opf: nat

    constructor (groups: seq<seq<Host>>, children: seq<RoundRobin>, flat: RoundRobin, opf: nat)
      ensures this.groups == groups && this.children == children && this.flat == flat && this.opf == opf
    {
      this.groups, this.children, this.flat, this.opf := groups, children, flat, opf;
    }

    /** priorityLB.Pick with round-robin children and a live registry; h is what the wrapper's scan
        finds, later what the child's does. */
    method Pick(h: Health, later: Health, u: real) returns (host: Option<Host>, counted: nat)
      requires Built(groups, children) && flat.endpoints != [] && h.Health? && later.Health? && 0.0 <= u <= 1.0
      modifies children, flat
      ensures var cs := Capacities(groups, h, opf);
              && counted == (if Prefix(cs, |cs|) < 100.0 then 1 else 0)
              && (Prefix(cs, |cs|) < 100.0 ==> host.Some?)
              && (Prefix(cs, |cs|) >= 100.0 ==>
                    exists i :: 0 <= i < |groups| && Load(cs, i) > 0.0 && (host.None? <==> AllDown(groups[i], later))
                                && (host.Some? ==> host.value in groups[i] && host.value in later.up))
      ensures later == h ==> host.Some?
    {
      hide Capacities, Load, Prefix;
      var tier, bypassed := PriorityRoute(groups, h, opf, u);
      var leafCounted;
      if tier.None? {
        host, leafCounted := flat.Pick(NoHealth);
      } else {
        host, leafCounted := children[tier.value].Pick(TierView(later));
      }
      PriorityPick(groups, flat.endpoints, h, later, opf, tier, bypassed, host, leafCounted);
      counted := bypassed + leafCounted;
    }
  }

  class LocalityLB {
    const groups: seq<seq<Host>>
    const weights: seq<nat>
    const children: seq<RoundRobin>
    const flat: RoundRobin
    const opf: nat

    constructor (groups: seq<seq<Host>>, weights: seq<nat>, children: seq<RoundRobin>, flat: RoundRobin, opf: nat)
      ensures this.groups == groups && this.weights == weights && this.children == children
      ensures this.flat == flat && this.opf == opf
    {
      this.groups, this.weights, this.children, this.flat, this.opf := groups, weights, children, flat, opf;
    }

    /** localityWeightedLB.Pick with round-robin children and a live registry; h is what the wrapper's
        scan finds, later what the child's does. */
    method Pick(h: Health, later: Health, u: real) returns (host: Option<Host>, counted: nat)
      requires Built(groups, children) && |weights| == |groups| && flat.endpoints != []
      requires forall i :: 0 <= i < |groups| ==> forall x :: x in groups[i] ==> x in flat.endpoints
      requires h.Health? && later.Health? && 0.0 <= u <= 1.0
      modifies children, flat
      ensures var all := flat.endpoints;
              && counted <= 1 && (counted == 1 ==> InPanic(later, all))
              && (host.None? ==> exists eps :: AllDown(eps, later) && (eps == all || eps in groups))
              && (host.Some? && counted == 0 ==> host.value in later.up)
      ensures var all := flat.endpoints;
              later == h ==> (host.None? <==> !InPanic(h, all) && AllDown(all, h)) && counted == if InPanic(h, all) then 1 else 0
    {
      hide Weights;
      var group := LocalityRoute(groups, weights, flat.endpoints, h, opf, u);
      if group.None? {
        host, counted := flat.Pick(later);
      } else {
        host, counted := children[group.value].Pick(TierView(later));
        assert groups[group.value] in groups;
      }
      LocalityPick(groups, weights, flat.endpoints, h, later, opf, group, host, counted);
    }
  }
}
