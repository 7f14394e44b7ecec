/** The leaf balancers (internal/cluster/loadbalancer.go, leastrequest.go) and the health gate they
    share (health.go), at one instant of the clock. */
module Balancers {
  import opened Options
  import opened Arith
  import opened Primes
  import opened CyclicWalk

  type Host = nat

  /** A balancer's view of health: none at all, or the hosts that are available now and the panic
      threshold of the registry it was built with. */
  datatype Health = NoHealth | Health(up: set<Host>, panicPercent: nat)

  /** tierHealth: the same hosts with panic switched off. */
  function TierView(h: Health): (t: Health)
    ensures h.Health? ==> forall eps :: !InPanic(t, eps)
  {
    match h case NoHealth => NoHealth case Health(up, _) => Health(up, 0)
  }

  function AvailableCount(eps: seq<Host>, up: set<Host>): (n: nat)
    ensures n <= |eps|
    ensures n > 0 <==> exists i :: 0 <= i < |eps| && eps[i] in up
  {
    if eps == [] then 0
    else
      var rest := AvailableCount(eps[..|eps| - 1], up);
      assert rest > 0 ==> exists i :: 0 <= i < |eps| && eps[i] in up by {
        if rest > 0 {
          var i :| 0 <= i < |eps| - 1 && eps[..|eps| - 1][i] in up;
          assert eps[i] in up;
        }
      }
      assert forall i :: 0 <= i < |eps| - 1 && eps[i] in up ==> eps[..|eps| - 1][i] in up;
      rest + if eps[|eps| - 1] in up then 1 else 0
  }

  /** The positions of the available endpoints. */
  ghost function UpIn(eps: seq<Host>, up: set<Host>): set<nat> {
    set i | 0 <= i < |eps| && eps[i] in up
  }

  lemma {:induction false} AvailableIsCount(eps: seq<Host>, up: set<Host>)
    ensures AvailableCount(eps, up) == |UpIn(eps, up)|
  {
    if eps == [] {
    } else {
      var n := |eps| - 1;
      AvailableIsCount(eps[..n], up);
      assert UpIn(eps, up) == UpIn(eps[..n], up) + if eps[n] in up then {n} else {};
    }
  }

  predicate InPanic(h: Health, eps: seq<Host>) {
    h.Health? && |eps| > 0 && 100 * AvailableCount(eps, h.up) < h.panicPercent * |eps|
  }

  /** Panic: fewer than the threshold percentage of a non-empty cluster is available. */
  lemma PanicMeans(up: set<Host>, percent: nat, eps: seq<Host>)
    ensures InPanic(Health(up, percent), eps) <==> eps != [] && |UpIn(eps, up)| * 100 < percent * |eps|
  {
    AvailableIsCount(eps, up);
  }

  /** panicGate: bypass health without a registry (uncounted) or in panic (counted). */
  predicate Bypasses(h: Health, eps: seq<Host>) {
    h.NoHealth? || InPanic(h, eps)
  }

  /** What every leaf balancer promises about one pick: who may be picked, when it fails, and that
      the panic counter moves by exactly one on a panicking pick and never otherwise. */
  ghost predicate LeafPick(eps: seq<Host>, h: Health, host: Option<Host>, counted: nat) {
    && counted == (if InPanic(h, eps) then 1 else 0)
    && (host.Some? ==> host.value in eps && (!Bypasses(h, eps) ==> host.value in h.up))
    && (host.None? <==> eps == [] || (!Bypasses(h, eps) && forall i :: 0 <= i < |eps| ==> eps[i] !in h.up))
  }

  class RoundRobin {
    const endpoints: seq<Host>
    var counter: nat

    constructor (endpoints: seq<Host>)
      ensures this.endpoints == endpoints && counter == 0
    {
      this.endpoints := endpoints;
      counter := 0;
    }

    /** Pick: the next endpoint in turn, or the first available one from there on. */
    method Pick(h: Health) returns (host: Option<Host>, counted: nat)
      modifies this
      ensures LeafPick(endpoints, h, host, counted)
      ensures endpoints != [] && Bypasses(h, endpoints) ==>
                host == Some(endpoints[old(counter) % |endpoints|]) && counter == old(counter) + 1
      ensures endpoints != [] && !Bypasses(h, endpoints) ==>
                host == Choose(endpoints, old(counter) % |endpoints|, h.up) && old(counter) < counter <= old(counter) + |endpoints|
    {
      var n := |endpoints|;
      if n == 0 {
        return None, 0;
      }
      if h.NoHealth? || 100 * AvailableCount(endpoints, h.up) < h.panicPercent * n {
        var i := counter;
        counter := counter + 1;
        return Some(endpoints[i % n]), if h.NoHealth? then 0 else 1;
      }
      ghost var start := old(counter) % n;
      ChooseTotal(endpoints, start, h.up);
      var tries := 0;
      while tries < n
        invariant 0 <= tries <= n && counter == old(counter) + tries
        invariant FirstUp(endpoints, start, 0, h.up) == FirstUp(endpoints, start, tries, h.up)
      {
        var i := counter;
        counter := counter + 1;
        SameTurn(old(counter), n, tries);
        var ep := endpoints[i % n];
        if ep in h.up {
          FirstUpMeans(endpoints, start, tries, h.up);
          return Some(ep), 0;
        }
        tries := tries + 1;
      }
      return None, 0;
    }
  }

  lemma SameTurn(c: nat, n: nat, k: nat)
    requires n > 0
    ensures (c + k) % n == (c % n + k) % n
  {
    DivMod(c, n);
    ModOfSum(c % n + k, c / n, n);
    assert c + k == c % n + k + (c / n) * n;
  }

  /** The index a draw leads to: itself when health is bypassed, else the next available one. */
  function Candidate(eps: seq<Host>, h: Health, word: nat): (j: Option<nat>)
    requires eps != []
    ensures j.Some? ==> j.value < |eps|
  {
    var start := word % |eps|;
    if Bypasses(h, eps) then Some(start)
    else
      match FirstUp(eps, start, 0, h.up)
      case None => None
      case Some(k) => Some(At(|eps|, start, k))
  }

  lemma CandidateMeans(eps: seq<Host>, h: Health, word: nat)
    requires eps != []
    ensures var j := Candidate(eps, h, word);
            && (j.Some? && !Bypasses(h, eps) ==> eps[j.value] in h.up)
            && (j.None? <==> !Bypasses(h, eps) && forall i :: 0 <= i < |eps| ==> eps[i] !in h.up)
  {
    if !Bypasses(h, eps) {
      FirstUpMeans(eps, word % |eps|, 0, h.up);
      ChooseTotal(eps, word % |eps|, h.up);
    }
  }

  /** b is the least loaded candidate of the first n draws, and the first drawn of those. */
  ghost predicate FirstLeast(eps: seq<Host>, h: Health, words: seq<nat>, n: nat, load: seq<int>, b: nat)
    requires eps != [] && n <= |words| && |load| == |eps|
  {
    && b < |eps|
    && exists x :: && 0 <= x < n && Candidate(eps, h, words[x]) == Some(b)
                   && forall y :: 0 <= y < n && Candidate(eps, h, words[y]).Some? ==>
                        var c := Candidate(eps, h, words[y]).value;
                        load[b] <= load[c] && (y < x ==> load[b] < load[c])
  }

  /** nextAvailable: the first available index from start on, wrapping. */
  method NextAvailable(eps: seq<Host>, start: nat, up: set<Host>) returns (j: Option<nat>)
    requires start < |eps|
    ensures j == match FirstUp(eps, start, 0, up) case None => None case Some(k) => Some(At(|eps|, start, k))
  {
    var k := 0;
    while k < |eps|
      invariant 0 <= k <= |eps|
      invariant FirstUp(eps, start, 0, up) == FirstUp(eps, start, k, up)
    {
      var i := (start + k) % |eps|;
      if eps[i] in up {
        return Some(i);
      }
      k := k + 1;
    }
    return None;
  }

  /** Power of choices over outstanding picks. holds names each pick that has not been released. */
  class LeastRequest {
    const endpoints: seq<Host>
    const choiceCount: nat
    const active: array<int>
    var holds: map<nat, nat>
    var picks: nat

    /** Each counter is the number of outstanding picks on its host, hence never negative. */
    ghost predicate Valid()
      reads this, active
    {
      && active.Length == |endpoints|
      && (forall id :: id in holds ==> id < picks && holds[id] < |endpoints|)
      && forall i :: 0 <= i < active.Length ==> active[i] == |Holding(holds, i)|
    }

    constructor (endpoints: seq<Host>, choiceCount: nat)
      ensures Valid() && this.endpoints == endpoints && this.choiceCount == choiceCount && holds == map[] && fresh(active)
    {
      this.endpoints, this.choiceCount := endpoints, choiceCount;
      active := new int[|endpoints|](_ => 0);
      holds, picks := map[], 0;
    }

    /** The draw closure of Pick. */
    method Draw(h: Health, bypass: bool, word: nat) returns (j: Option<nat>)
      requires endpoints != [] && bypass == Bypasses(h, endpoints)
      ensures j == Candidate(endpoints, h, word)
    {
      var i := word % |endpoints|;
      if bypass {
        return Some(i);
      }
      j := NextAvailable(endpoints, i, h.up);
    }

    /** The selection loop: of choiceCount draws the least loaded, the first drawn on a tie. */
    method Select(h: Health, bypass: bool, words: seq<nat>) returns (best: Option<nat>)
      requires Valid() && endpoints != [] && bypass == Bypasses(h, endpoints)
      requires |words| >= 1 && |words| >= choiceCount
      ensures best.None? <==> !bypass && forall i :: 0 <= i < |endpoints| ==> endpoints[i] !in h.up
      ensures best.Some? ==> best.value < |endpoints| && (!bypass ==> endpoints[best.value] in h.up)
      ensures best.Some? ==> FirstLeast(endpoints, h, words, if choiceCount > 1 then choiceCount else 1, active[..], best.value)
    {
      hide Candidate;
      best := Draw(h, bypass, words[0]);
      CandidateMeans(endpoints, h, words[0]);
      if best.None? {
        return;
      }
      var b: nat, bestActive, i := best.value, active[best.value], 1;
      while i < choiceCount
        invariant 1 <= i && (i <= choiceCount || i == 1)
        invariant b < |endpoints| && bestActive == active[b] && (!bypass ==> endpoints[b] in h.up)
        invariant FirstLeast(endpoints, h, words, i, active[..], b)
      {
        var cand := Draw(h, bypass, words[i]);
        CandidateMeans(endpoints, h, words[i]);
        if cand.None? {
          assert false;
        }
        if active[cand.value] < bestActive {
          b, bestActive := cand.value, active[cand.value];
        }
        i := i + 1;
      }
      return Some(b);
    }

    /** Pick: the selected host's counter rises by one and the pick is outstanding until its release. */
    method Pick(h: Health, words: seq<nat>) returns (host: Option<Host>, counted: nat, id: nat)
      requires Valid() && |words| >= 1 && |words| >= choiceCount
      modifies this, active
      ensures Valid() && LeafPick(endpoints, h, host, counted)
      ensures host.None? ==> holds == old(holds)
      ensures host.Some? ==> id == old(picks) && id !in old(holds) && id in holds && holds == old(holds)[id := holds[id]]
                             && holds[id] < |endpoints| && endpoints[holds[id]] == host.value
                             && FirstLeast(endpoints, h, words, if choiceCount > 1 then choiceCount else 1, old(active[..]), holds[id])
    {
      hide FirstLeast;
      id := picks;
      if |endpoints| == 0 {
        return None, 0, id;
      }
      var panic := h.Health? && 100 * AvailableCount(endpoints, h.up) < h.panicPercent * |endpoints|;
      counted := if panic then 1 else 0;
      var best := Select(h, h.NoHealth? || panic, words);
      if best.None? {
        return None, counted, id;
      }
      HoldMore(holds, id, best.value);
      active[best.value] := active[best.value] + 1;
      holds := holds[id := best.value];
      picks := picks + 1;
      host := Some(endpoints[best.value]);
    }

    /** The once-guarded release closure of pick id: the second call does nothing. */
    method Release(id: nat)
      requires Valid()
      modifies this, active
      ensures Valid() && holds == old(holds) - {id}
    {
      if id in holds {
        var i := holds[id];
        HoldLess(holds, id);
        active[i] := active[i] - 1;
        holds := holds - {id};
      } else {
        assert holds - {id} == holds;
      }
    }
  }

  ghost function Holding(holds: map<nat, nat>, i: nat): set<nat> {
    set id | id in holds && holds[id] == i
  }

  lemma HoldMoreAt(holds: map<nat, nat>, id: nat, b: nat, i: nat)
    requires id !in holds
    ensures |Holding(holds[id := b], i)| == |Holding(holds, i)| + if i == b then 1 else 0
  {
    if i == b {
      HoldOneMore(holds, id, b);
    } else {
      assert Holding(holds[id := b], i) == Holding(holds, i);
    }
  }

  lemma HoldOneMore(holds: map<nat, nat>, id: nat, b: nat)
    requires id !in holds
    ensures |Holding(holds[id := b], b)| == |Holding(holds, b)| + 1
  {
    var before := Holding(holds, b);
    assert id !in before;
    assert Holding(holds[id := b], b) == before + {id};
  }

  lemma HoldMore(holds: map<nat, nat>, id: nat, b: nat)
    requires id !in holds
    ensures forall i :: |Holding(holds[id := b], i)| == |Holding(holds, i)| + if i == b then 1 else 0
  {
    forall i ensures |Holding(holds[id := b], i)| == |Holding(holds, i)| + if i == b then 1 else 0 {
      HoldMoreAt(holds, id, b, i);
    }
  }

  lemma HoldLess(holds: map<nat, nat>, id: nat)
    requires id in holds
    ensures forall i :: |Holding(holds - {id}, i)| == |Holding(holds, i)| - if i == holds[id] then 1 else 0
  {
    assert holds == (holds - {id})[id := holds[id]];
    HoldMore(holds - {id}, id, holds[id]);
  }
}
