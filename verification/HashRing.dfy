/** A cyclic walk over owned positions until one whose owner is available, shared by the ring and
    the Maglev balancer. */
module CyclicWalk {
  import opened Options
  import opened Arith

  function At(n: nat, start: nat, k: nat): (i: nat)
    requires n > 0
    ensures i < n
  {
    (start + k) % n
  }

  /** The first of the positions start + k, start + k + 1, ... of one full circle whose owner is up. */
  function FirstUp(owners: seq<nat>, start: nat, k: nat, up: set<nat>): (r: Option<nat>)
    requires |owners| > 0
    decreases |owners| - k
  {
    if k >= |owners| then None
    else if owners[At(|owners|, start, k)] in up then Some(k)
    else FirstUp(owners, start, k + 1, up)
  }

  /** The owner the walk ends on. */
  function Choose(owners: seq<nat>, start: nat, up: set<nat>): (r: Option<nat>) {
    if owners == [] then None
    else
      match FirstUp(owners, start, 0, up)
      case None => None
      case Some(k) => if k < |owners| then Some(owners[At(|owners|, start, k)]) else None
  }

  lemma {:induction false} FirstUpMeans(owners: seq<nat>, start: nat, k: nat, up: set<nat>)
    requires |owners| > 0
    ensures var r, n := FirstUp(owners, start, k, up), |owners|;
            && (r.Some? ==> k <= r.value < n && owners[At(n, start, r.value)] in up
                            && forall i :: k <= i < r.value ==> owners[At(n, start, i)] !in up)
            && (r.None? ==> forall i :: k <= i < n ==> owners[At(n, start, i)] !in up)
    decreases |owners| - k
  {
    if k < |owners| && owners[At(|owners|, start, k)] !in up {
      FirstUpMeans(owners, start, k + 1, up);
    }
  }

  /** A full circle from anywhere passes every position. */
  lemma CircleReaches(n: nat, start: nat, i: nat) returns (k: nat)
    requires i < n && start < n
    ensures k < n && At(n, start, k) == i
  {
    if start <= i {
      k := i - start;
      DivIs(i, n, 0);
      DivMod(i, n);
    } else {
      k := n - start + i;
      DivIs(n + i, n, 1);
      DivMod(n + i, n);
    }
  }

  /** The walk fails only if no position has an available owner. */
  lemma ChooseTotal(owners: seq<nat>, start: nat, up: set<nat>)
    requires owners == [] || start < |owners|
    ensures Choose(owners, start, up).None? <==> forall i :: 0 <= i < |owners| ==> owners[i] !in up
    ensures var r := Choose(owners, start, up); r.Some? ==> r.value in owners && r.value in up
  {
    if owners != [] {
      FirstUpMeans(owners, start, 0, up);
      if FirstUp(owners, start, 0, up).None? {
        forall i | 0 <= i < |owners| ensures owners[i] !in up {
          var k := CircleReaches(|owners|, start, i);
        }
      }
    }
  }

  lemma {:induction false} FirstUpShrinks(owners: seq<nat>, start: nat, k: nat, up: set<nat>, less: set<nat>)
    requires |owners| > 0 && less <= up
    requires var r := FirstUp(owners, start, k, up); r.Some? && owners[At(|owners|, start, r.value)] in less
    ensures FirstUp(owners, start, k, less) == FirstUp(owners, start, k, up)
    decreases |owners| - k
  {
    if k < |owners| && owners[At(|owners|, start, k)] !in up {
      FirstUpShrinks(owners, start, k + 1, up, less);
    }
  }

  /** Consistency: when hosts go away, only the keys of the hosts that went away move. */
  lemma FailoverIsMinimal(owners: seq<nat>, start: nat, up: set<nat>, less: set<nat>)
    requires owners == [] || start < |owners|
    requires less <= up && Choose(owners, start, less) != Choose(owners, start, up)
    ensures Choose(owners, start, up).Some? && Choose(owners, start, up).value !in less
  {
    ChooseTotal(owners, start, up);
    ChooseTotal(owners, start, less);
    FirstUpMeans(owners, start, 0, up);
    if Choose(owners, start, up).Some? && Choose(owners, start, up).value in less {
      FirstUpShrinks(owners, start, 0, up, less);
      assert false;
    }
  }

  /** The walk loop of both Pick methods. */
  method Walk(owners: seq<nat>, start: nat, up: set<nat>) returns (host: Option<nat>)
    requires owners == [] || start < |owners|
    ensures host == Choose(owners, start, up)
  {
    var k := 0;
    while k < |owners|
      invariant 0 <= k <= |owners|
      invariant |owners| > 0 ==> FirstUp(owners, start, 0, up) == FirstUp(owners, start, k, up)
    {
      var idx := owners[(start + k) % |owners|];
      if idx in up {
        FirstUpMeans(owners, start, k, up);
        return Some(idx);
      }
      k := k + 1;
    }
    return None;
  }
}

/** The Ketama ring (internal/cluster/ringhash.go). */
module HashRing {
  import opened Options
  import opened Arith
  import opened Primes
  import opened CyclicWalk
  import Tally

  datatype Point = Point(hash: nat, ep: nat)

  predicate Sorted(ring: seq<Point>) {
    forall i, j :: 0 <= i < j < |ring| ==> ring[i].hash <= ring[j].hash
  }

  predicate Words(ring: seq<Point>) {
    forall i :: 0 <= i < |ring| ==> ring[i].hash < WORD
  }

  function Owners(ring: seq<Point>): (owners: seq<nat>)
    ensures |owners| == |ring| && forall i :: 0 <= i < |ring| ==> owners[i] == ring[i].ep
  {
    seq(|ring|, i requires 0 <= i < |ring| => ring[i].ep)
  }

  // ---------------------------------------------------------------------------
  // Construction
  // ---------------------------------------------------------------------------

  /** Where a stable sort puts p: behind every point whose hash is not greater. */
  function Insert(ring: seq<Point>, p: Point): (r: seq<Point>)
    ensures |r| == |ring| + 1
  {
    if ring == [] || ring[|ring| - 1].hash <= p.hash then ring + [p]
    else Insert(ring[..|ring| - 1], p) + [ring[|ring| - 1]]
  }

  function StableSort(points: seq<Point>): (r: seq<Point>)
    ensures |r| == |points|
  {
    if points == [] then [] else Insert(StableSort(points[..|points| - 1]), points[|points| - 1])
  }

  lemma {:induction false} InsertKeeps(ring: seq<Point>, p: Point)
    ensures multiset(Insert(ring, p)) == multiset(ring) + multiset{p}
  {
    if ring == [] || ring[|ring| - 1].hash <= p.hash {
    } else {
      var front, last := ring[..|ring| - 1], ring[|ring| - 1];
      InsertKeeps(front, p);
      assert ring == front + [last];
    }
  }

  /** Everything in ring hashes to at most h. */
  predicate Below(ring: seq<Point>, h: nat) {
    forall i :: 0 <= i < |ring| ==> ring[i].hash <= h
  }

  lemma {:induction false} InsertBelow(ring: seq<Point>, p: Point, h: nat)
    requires Below(ring, h) && p.hash <= h
    ensures Below(Insert(ring, p), h)
  {
    if ring == [] || ring[|ring| - 1].hash <= p.hash {
    } else {
      InsertBelow(ring[..|ring| - 1], p, h);
    }
  }

  lemma {:induction false} InsertSorts(ring: seq<Point>, p: Point)
    requires Sorted(ring)
    ensures Sorted(Insert(ring, p))
  {
    if ring == [] || ring[|ring| - 1].hash <= p.hash {
    } else {
      var front, last := ring[..|ring| - 1], ring[|ring| - 1];
      InsertSorts(front, p);
      InsertBelow(front, p, last.hash);
    }
  }

  lemma {:induction false} SortSorts(points: seq<Point>)
    ensures Sorted(StableSort(points)) && multiset(StableSort(points)) == multiset(points)
  {
    if points == [] {
    } else {
      var front := points[..|points| - 1];
      SortSorts(front);
      InsertSorts(StableSort(front), points[|points| - 1]);
      InsertKeeps(StableSort(front), points[|points| - 1]);
      assert points == front + [points[|points| - 1]];
    }
  }

  /** Points with the same hash keep the order of their hosts. */
  predicate Stable(ring: seq<Point>) {
    forall i, j :: 0 <= i < j < |ring| && ring[i].hash == ring[j].hash ==> ring[i].ep <= ring[j].ep
  }

  predicate HostOrder(points: seq<Point>) {
    forall i, j :: 0 <= i < j < |points| ==> points[i].ep <= points[j].ep
  }

  lemma {:induction false} InsertStable(ring: seq<Point>, p: Point)
    requires Stable(ring) && forall i :: 0 <= i < |ring| ==> ring[i].ep <= p.ep
    ensures Stable(Insert(ring, p))
  {
    if ring == [] || ring[|ring| - 1].hash <= p.hash {
    } else {
      var front, last := ring[..|ring| - 1], ring[|ring| - 1];
      InsertStable(front, p);
      InsertKeeps(front, p);
      var more := Insert(front, p);
      forall i | 0 <= i < |more| && more[i].hash == last.hash ensures more[i].ep <= last.ep {
        assert more[i] in multiset(more);
        assert more[i] in front;
      }
    }
  }

  lemma {:induction false} SortStable(points: seq<Point>)
    requires HostOrder(points)
    ensures Stable(StableSort(points))
  {
    if points == [] {
    } else {
      var n := |points| - 1;
      var ring := StableSort(points[..n]);
      SortStable(points[..n]);
      SortSorts(points[..n]);
      forall i | 0 <= i < |ring| ensures ring[i].ep <= points[n].ep {
        assert ring[i] in multiset(points[..n]);
      }
      InsertStable(ring, points[n]);
    }
  }

  function PerHost(minRingSize: nat, n: nat): nat
    requires n > 0
  {
    (minRingSize + n - 1) / n
  }

  /** The least number of points per host that makes a ring of at least the configured size. */
  lemma PerHostIsLeast(minRingSize: nat, n: nat)
    requires n > 0
    ensures n * PerHost(minRingSize, n) >= minRingSize
    ensures forall each: nat :: each * n >= minRingSize ==> each >= PerHost(minRingSize, n)
  {
    var x, q := minRingSize + n - 1, PerHost(minRingSize, n);
    DivMod(x, n);
    forall each: nat | each * n >= minRingSize ensures each >= q {
      if each < q {
        MulMono(each + 1, q, n);
      }
    }
  }

  /** The number of points that host j owns. */
  function Owned(ring: seq<Point>, j: nat): nat {
    if ring == [] then 0 else Owned(ring[..|ring| - 1], j) + if ring[|ring| - 1].ep == j then 1 else 0
  }

  lemma {:induction false} OwnedInserted(ring: seq<Point>, p: Point, j: nat)
    ensures Owned(Insert(ring, p), j) == Owned(ring, j) + if p.ep == j then 1 else 0
  {
    if ring == [] || ring[|ring| - 1].hash <= p.hash {
      assert (ring + [p])[..|ring|] == ring;
    } else {
      var front, last := ring[..|ring| - 1], ring[|ring| - 1];
      OwnedInserted(front, p, j);
      assert (Insert(front, p) + [last])[..|ring|] == Insert(front, p);
    }
  }

  lemma {:induction false} OwnedSorted(points: seq<Point>, j: nat)
    ensures Owned(StableSort(points), j) == Owned(points, j)
  {
    if points == [] {
    } else {
      var front := points[..|points| - 1];
      OwnedSorted(front, j);
      OwnedInserted(StableSort(front), points[|points| - 1], j);
    }
  }

  lemma {:induction false} OwnerPresent(ring: seq<Point>, j: nat)
    requires Owned(ring, j) > 0
    ensures exists i :: 0 <= i < |ring| && ring[i].ep == j
  {
    if ring[|ring| - 1].ep != j {
      OwnerPresent(ring[..|ring| - 1], j);
      var i :| 0 <= i < |ring| - 1 && ring[..|ring| - 1][i].ep == j;
      assert ring[i].ep == j;
    }
  }

  /** How many of the first `each` serial numbers hash host j to h. */
  function Serials(digest: (nat, nat) -> nat, j: nat, h: nat, each: nat): nat {
    if each == 0 then 0 else Serials(digest, j, h, each - 1) + if digest(j, each - 1) == h then 1 else 0
  }

  /** Sorted by hash and then by host, and as a multiset exactly the points (digest(j, i), j) of the hosts j below n and the
      serial numbers i below each. */
  ghost predicate RingOf(ring: seq<Point>, n: nat, each: nat, digest: (nat, nat) -> nat) {
    && Sorted(ring) && Stable(ring) && Words(ring)
    && (forall i :: 0 <= i < |ring| ==> ring[i].ep < n)
    && (forall j :: 0 <= j < n ==> Owned(ring, j) == each)
    && (forall p :: multiset(ring)[p] == if p.ep < n then Serials(digest, p.ep, p.hash, each) else 0)
  }

  /** What the two loops have built when hosts below j are done and host j has i points. */
  ghost predicate Laid(points: seq<Point>, n: nat, each: nat, digest: (nat, nat) -> nat, j: nat, i: nat) {
    && |points| == j * each + i
    && (forall h :: 0 <= h < n ==> Owned(points, h) == if h < j then each else if h == j then i else 0)
    && (forall x :: 0 <= x < |points| ==> points[x].ep < n && points[x].ep <= j && points[x].hash < WORD)
    && HostOrder(points)
    && Multiplicities(points, each, digest, j, i)
  }

  ghost predicate Multiplicities(points: seq<Point>, each: nat, digest: (nat, nat) -> nat, j: nat, i: nat) {
    forall p :: multiset(points)[p] == if p.ep < j then Serials(digest, p.ep, p.hash, each)
                                       else if p.ep == j then Serials(digest, j, p.hash, i) else 0
  }

  lemma MultiplicityOne(points: seq<Point>, each: nat, digest: (nat, nat) -> nat, j: nat, i: nat)
    requires Multiplicities(points, each, digest, j, i)
    ensures Multiplicities(points + [Point(digest(j, i), j)], each, digest, j, i + 1)
  {
    var q := Point(digest(j, i), j);
    assert multiset(points + [q]) == multiset(points) + multiset{q};
    forall p ensures multiset(points + [q])[p] == multiset(points)[p] + if p == q then 1 else 0 {
    }
  }

  lemma LayOne(points: seq<Point>, n: nat, each: nat, digest: (nat, nat) -> nat, j: nat, i: nat)
    requires Laid(points, n, each, digest, j, i) && j < n && i < each && digest(j, i) < WORD
    ensures Laid(points + [Point(digest(j, i), j)], n, each, digest, j, i + 1)
  {
    hide Multiplicities;
    var p := Point(digest(j, i), j);
    var more := points + [p];
    assert more[..|points|] == points && more[|points|] == p;
    forall h | 0 <= h < n ensures Owned(more, h) == if h < j then each else if h == j then i + 1 else 0 {
      assert Owned(more, h) == Owned(points, h) + if h == j then 1 else 0;
    }
    MultiplicityOne(points, each, digest, j, i);
  }

  lemma LayNext(points: seq<Point>, n: nat, each: nat, digest: (nat, nat) -> nat, j: nat)
    requires Laid(points, n, each, digest, j, each)
    ensures Laid(points, n, each, digest, j + 1, 0)
  {
    assert (j + 1) * each == j * each + each;
  }

  /** newRingHashWithRNG: a sorted ring in which every host owns ceil(min/N) points, each hashed
      from its address and a serial number; the digests are arbitrary words. */
  method NewRing(n: nat, minRingSize: nat, digest: (nat, nat) -> nat)
      returns (ring: seq<Point>, minPerHost: nat, maxPerHost: nat)
    requires forall j: nat, i: nat :: digest(j, i) < WORD
    ensures n == 0 ==> ring == [] && minPerHost == maxPerHost == 0
    ensures n > 0 ==> RingOf(ring, n, PerHost(minRingSize, n), digest)
    ensures n > 0 ==> minPerHost == maxPerHost == PerHost(minRingSize, n) && |ring| == n * PerHost(minRingSize, n)
  {
    hide Laid, PerHost, RingOf;
    if n == 0 {
      return [], 0, 0;
    }
    var each := PerHost(minRingSize, n);
    var points: seq<Point> := [];
    var perHost := new nat[n](_ => 0);
    LayNone(n, each, digest);
    var j := 0;
    while j < n
      invariant 0 <= j <= n && Laid(points, n, each, digest, j, 0)
      invariant forall h :: 0 <= h < n ==> perHost[h] == if h < j then each else 0
    {
      var i := 0;
      while i < each
        invariant 0 <= i <= each && Laid(points, n, each, digest, j, i)
        invariant forall h :: 0 <= h < n ==> perHost[h] == if h < j then each else if h == j then i else 0
      {
        LayOne(points, n, each, digest, j, i);
        points := points + [Point(digest(j, i), j)];
        perHost[j] := perHost[j] + 1;
        i := i + 1;
      }
      LayNext(points, n, each, digest, j);
      j := j + 1;
    }
    ring := StableSort(points);
    RingLaid(points, n, each, digest);
    minPerHost, maxPerHost := Tally.MinMax(perHost);
  }

  lemma LayNone(n: nat, each: nat, digest: (nat, nat) -> nat)
    ensures Laid([], n, each, digest, 0, 0)
  {
  }

  lemma RingLaid(points: seq<Point>, n: nat, each: nat, digest: (nat, nat) -> nat)
    requires Laid(points, n, each, digest, n, 0)
    ensures RingOf(StableSort(points), n, each, digest) && |points| == n * each
  {
    var ring := StableSort(points);
    SortSorts(points);
    SortStable(points);
    forall j | 0 <= j < n ensures Owned(ring, j) == each {
      OwnedSorted(points, j);
    }
    forall i | 0 <= i < |ring| ensures ring[i].ep < n && ring[i].hash < WORD {
      assert ring[i] in multiset(points);
    }
  }

  // ---------------------------------------------------------------------------
  // Lookup
  // ---------------------------------------------------------------------------

  /** The distance from a key to a point, travelling clockwise round the word circle. */
  function Clockwise(key: nat, hash: nat): int {
    if hash >= key then hash - key else hash - key + WORD
  }

  /** sort.Search: the first index whose hash is at least the key. */
  method Search(ring: seq<Point>, key: nat) returns (m: nat)
    requires Sorted(ring)
    ensures m <= |ring|
    ensures forall i :: 0 <= i < m ==> ring[i].hash < key
    ensures forall i :: m <= i < |ring| ==> ring[i].hash >= key
  {
    var lo, hi := 0, |ring|;
    while lo < hi
      invariant 0 <= lo <= hi <= |ring|
      invariant forall i :: 0 <= i < lo ==> ring[i].hash < key
      invariant forall i :: hi <= i < |ring| ==> ring[i].hash >= key
    {
      var mid := (lo + hi) / 2;
      if ring[mid].hash < key {
        lo := mid + 1;
      } else {
        hi := mid;
      }
    }
    return lo;
  }

  /** The position at which the walk starts: the first point at or after the key, wrapping. */
  ghost predicate Starts(ring: seq<Point>, key: nat, m: nat) {
    && m < |ring|
    && if ring[|ring| - 1].hash >= key
       then ring[m].hash >= key && forall i :: 0 <= i < m ==> ring[i].hash < key
       else m == 0
  }

  function StartFrom(ring: seq<Point>, key: nat, i: nat): (m: nat)
    requires Sorted(ring) && i <= |ring| && forall x :: 0 <= x < i ==> ring[x].hash < key
    ensures ring != [] ==> Starts(ring, key, m)
    decreases |ring| - i
  {
    if i == |ring| then 0 else if ring[i].hash >= key then i else StartFrom(ring, key, i + 1)
  }

  lemma StartUnique(ring: seq<Point>, key: nat, m: nat, m': nat)
    requires Starts(ring, key, m) && Starts(ring, key, m')
    ensures m == m'
  {
  }

  /** The host a key maps to while the hosts in up are available. */
  function RingHost(ring: seq<Point>, key: nat, up: set<nat>): (host: Option<nat>)
    requires Sorted(ring)
  {
    Choose(Owners(ring), StartFrom(ring, key, 0), up)
  }

  /** Walking forward from there, the clockwise distance from the key never decreases. */
  lemma WalkIsClockwise(ring: seq<Point>, key: nat, m: nat, k: nat, k': nat)
    requires Sorted(ring) && Words(ring) && Starts(ring, key, m) && key < WORD && k <= k' < |ring|
    ensures Clockwise(key, ring[At(|ring|, m, k)].hash) <= Clockwise(key, ring[At(|ring|, m, k')].hash)
  {
    var n := |ring|;
    var a, b := At(n, m, k), At(n, m, k');
    AtIs(n, m, k);
    AtIs(n, m, k');
    if m + k < n <= m + k' {
      assert ring[b].hash < key <= ring[a].hash;
    }
  }

  lemma AtIs(n: nat, start: nat, k: nat)
    requires start < n && k < n
    ensures At(n, start, k) == if start + k < n then start + k else start + k - n
  {
    if start + k < n {
      DivIs(start + k, n, 0);
    } else {
      DivIs(start + k, n, 1);
    }
    DivMod(start + k, n);
  }

  /** What a ring pick means, without the ring's layout: the host of an available point that is
      clockwise nearest to the key. */
  ghost predicate Nearest(ring: seq<Point>, key: nat, up: set<nat>, host: nat) {
    exists i :: 0 <= i < |ring| && ring[i].ep == host && host in up &&
      forall j :: 0 <= j < |ring| && ring[j].ep in up ==> Clockwise(key, ring[i].hash) <= Clockwise(key, ring[j].hash)
  }

  lemma ChooseIsNearest(ring: seq<Point>, key: nat, m: nat, up: set<nat>)
    requires Sorted(ring) && Words(ring) && Starts(ring, key, m) && key < WORD
    ensures var r := Choose(Owners(ring), m, up); r.Some? ==> Nearest(ring, key, up, r.value)
  {
    var owners, n := Owners(ring), |ring|;
    FirstUpMeans(owners, m, 0, up);
    var first := FirstUp(owners, m, 0, up);
    if first.Some? {
      var i := At(n, m, first.value);
      forall j | 0 <= j < n && ring[j].ep in up ensures Clockwise(key, ring[i].hash) <= Clockwise(key, ring[j].hash) {
        var k := CircleReaches(n, m, j);
        WalkIsClockwise(ring, key, m, first.value, k);
      }
      assert ring[i].ep == owners[i];
    }
  }

  /** A key maps to the owner of the clockwise nearest available point, and to nothing exactly when
      no point has an available owner. */
  lemma RingHostMeans(ring: seq<Point>, key: nat, up: set<nat>)
    requires Sorted(ring) && Words(ring) && key < WORD
    ensures var r := RingHost(ring, key, up);
            && (r.Some? ==> Nearest(ring, key, up, r.value))
            && (r.None? <==> forall i :: 0 <= i < |ring| ==> ring[i].ep !in up)
  {
    var m := StartFrom(ring, key, 0);
    ChooseTotal(Owners(ring), m, up);
    if ring != [] {
      ChooseIsNearest(ring, key, m, up);
    }
    assert forall i :: 0 <= i < |ring| ==> Owners(ring)[i] == ring[i].ep;
  }

  /** On a built ring with a positive minimum size, a pick fails only if every host is down. */
  lemma RingServesAnyHost(ring: seq<Point>, n: nat, each: nat, digest: (nat, nat) -> nat, key: nat, up: set<nat>)
    requires RingOf(ring, n, each, digest) && each > 0 && key < WORD
    ensures RingHost(ring, key, up).None? <==> forall j :: 0 <= j < n ==> j !in up
  {
    hide RingHost;
    RingHostMeans(ring, key, up);
    if RingHost(ring, key, up).None? {
      forall j | 0 <= j < n ensures j !in up {
        OwnerPresent(ring, j);
      }
    }
  }

  /** Losing hosts moves no key but those that mapped to a lost host. */
  lemma RingFailover(ring: seq<Point>, key: nat, up: set<nat>, less: set<nat>)
    requires Sorted(ring) && less <= up && RingHost(ring, key, less) != RingHost(ring, key, up)
    ensures RingHost(ring, key, up).Some? && RingHost(ring, key, up).value !in less
  {
    FailoverIsMinimal(Owners(ring), StartFrom(ring, key, 0), up, less);
  }

  /** The panic bypass ignores health: the owner of the first point at or after the key. */
  lemma BypassIsNearest(ring: seq<Point>, key: nat)
    requires Sorted(ring) && ring != []
    ensures RingHost(ring, key, AllHosts(ring)) == Some(ring[StartFrom(ring, key, 0)].ep)
  {
    var m := StartFrom(ring, key, 0);
    AtIs(|ring|, m, 0);
    assert ring[m].ep in AllHosts(ring);
  }

  function AllHosts(ring: seq<Point>): set<nat> {
    set i | 0 <= i < |ring| :: ring[i].ep
  }

  /** What a pick comes to; Crash is the runtime error of indexing an empty ring. */
  datatype Outcome = Picked(host: nat) | NoHost | Crash

  /** ringHashLB.Pick over n endpoints. up is the set of available endpoints at the instant of the
      pick, panic the outcome of the panic gate and drawn the fallback random word. */
  method Pick(ring: seq<Point>, n: nat, hashKey: nat, hasHash: bool, drawn: nat, panic: bool, up: set<nat>)
      returns (out: Outcome)
    requires Sorted(ring)
    ensures out.Crash? <==> n > 0 && panic && ring == []
    ensures var key := if hasHash then hashKey else drawn;
            !out.Crash? ==>
              out == if n == 0 then NoHost
                     else match RingHost(ring, key, if panic then AllHosts(ring) else up)
                          case Some(h) => Picked(h)
                          case None => NoHost
  {
    if n == 0 {
      return NoHost;
    }
    var key := if hasHash then hashKey else drawn;
    var m := Search(ring, key);
    if m == |ring| {
      m := 0;
    }
    if ring != [] {
      StartUnique(ring, key, m, StartFrom(ring, key, 0));
    }
    if panic {
      if ring == [] {
        return Crash;
      }
      BypassIsNearest(ring, key);
      return Picked(ring[m].ep);
    }
    var host := Walk(Owners(ring), m, up);
    return if host.Some? then Picked(host.value) else NoHost;
  }

  /** A positive minimum ring size rules the crash out. */
  lemma BuiltRingNotEmpty(ring: seq<Point>, n: nat, minRingSize: nat, digest: (nat, nat) -> nat)
    requires n > 0 && minRingSize > 0 && RingOf(ring, n, PerHost(minRingSize, n), digest)
    ensures ring != []
  {
    DivMod(minRingSize + n - 1, n);
    assert PerHost(minRingSize, n) >= 1;
    assert Owned(ring, 0) >= 1;
  }
}
