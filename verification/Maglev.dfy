/** The Maglev lookup table (internal/cluster/maglev.go): hosts take turns claiming the next slot
    of their own pseudo-random preference order until all M slots are owned. */
module Maglev {
  import opened Arith
  import opened Options
  import opened Seqs
  import opened Primes
  import opened CyclicWalk
  import Tally

  const FREE: int := -1

  /** A host in build order: the endpoint index it writes into its slots, and the two numbers
      that generate its preference order. */
  datatype Host = Host(owner: nat, offset: nat, skip: nat)

  predicate Spans(h: Host, m: nat) {
    h.offset < m && 1 <= h.skip < m
  }

  /** The j-th slot on the preference list of h. */
  function Slot(h: Host, m: nat, j: nat): (c: nat)
    requires m > 0
    ensures c < m
  {
    (h.offset + h.skip * j) % m
  }

  /** A prime table size makes every preference list visit every slot. */
  lemma SlotReaches(h: Host, m: nat, c: nat) returns (j: nat)
    requires Prime(m) && Spans(h, m) && c < m
    ensures j < m && Slot(h, m, j) == c
  {
    hide Prime;
    var i := PrimeInverse(m, h.skip);
    j := Solve(h.offset, h.skip, c, m, i);
  }

  lemma Solve(o: int, k: int, c: nat, m: nat, i: int) returns (j: nat)
    requires c < m && (k * i) % m == 1
    ensures j < m && (o + k * j) % m == c
  {
    var x, e := k * i, (c - o) * i;
    DivMod(x, m);
    DivMod(e, m);
    j := e % m;
    var u, v := e / m, x / m;
    Congruent(o, k, c, m, i, u, v, j);
    ModOfSum(c, (c - o) * v - k * u, m);
    DivIs(c, m, 0);
    DivMod(c, m);
  }

  lemma Congruent(o: int, k: int, c: int, m: int, i: int, u: int, v: int, j: int)
    requires k * i == m * v + 1 && (c - o) * i == m * u + j
    ensures o + k * j == c + ((c - o) * v - k * u) * m
  {
    var d := c - o;
    calc {
      k * j;
      k * (d * i - m * u);
      { assert k * (d * i) == d * (k * i); }
      d * (m * v + 1) - k * (m * u);
      { assert d * (m * v) == d * v * m && k * (m * u) == k * u * m; }
      d + d * v * m - k * u * m;
      d + (d * v - k * u) * m;
    }
  }

  /** The first free slot on the preference list of h, from position j on. */
  function FirstFree(table: seq<int>, h: Host, m: nat, j: nat): nat
    requires |table| == m > 0
    decreases m - j
  {
    if j >= m || table[Slot(h, m, j)] == FREE then j else FirstFree(table, h, m, j + 1)
  }

  /** One turn: h claims the first free slot of its list. */
  function Turn(table: seq<int>, h: Host, m: nat): (r: seq<int>)
    requires |table| == m > 0
    ensures |r| == m
  {
    var j := FirstFree(table, h, m, 0);
    if j < m then table[Slot(h, m, j) := h.owner] else table
  }

  /** The table after t turns of the hosts in rotation. */
  function Fill(hosts: seq<Host>, m: nat, t: nat): (r: seq<int>)
    requires m > 0 && |hosts| > 0
    ensures |r| == m
  {
    if t == 0 then seq(m, _ => FREE)
    else Turn(Fill(hosts, m, t - 1), hosts[(t - 1) % |hosts|], m)
  }

  /** The first j slots on the list of h are taken. */
  ghost predicate Tried(table: seq<int>, h: Host, m: nat, j: nat)
    requires |table| == m > 0
  {
    forall i: nat :: i < j ==> table[Slot(h, m, i)] != FREE
  }

  lemma {:induction false} FirstFreeIs(table: seq<int>, h: Host, m: nat, i: nat, j: nat)
    requires |table| == m > 0 && i <= j < m && Tried(table, h, m, j) && table[Slot(h, m, j)] == FREE
    ensures FirstFree(table, h, m, i) == j
    decreases j - i
  {
    if i < j {
      FirstFreeIs(table, h, m, i + 1, j);
    }
  }

  /** While a slot is free, a host's search ends within one pass over its list. */
  lemma FreeAhead(table: seq<int>, h: Host, m: nat, j: nat)
    requires |table| == m && Prime(m) && Spans(h, m) && FREE in table && Tried(table, h, m, j)
    ensures j < m
  {
    var c :| 0 <= c < m && table[c] == FREE;
    var i := SlotReaches(h, m, c);
    assert table[Slot(h, m, i)] == FREE;
  }

  lemma {:induction false} FirstFreeFinds(table: seq<int>, h: Host, m: nat, i: nat)
    requires |table| == m && Prime(m) && Spans(h, m) && FREE in table && Tried(table, h, m, i) && i <= m
    ensures var j := FirstFree(table, h, m, i); j < m && table[Slot(h, m, j)] == FREE
    decreases m - i
  {
    FreeAhead(table, h, m, i);
    if table[Slot(h, m, i)] != FREE {
      FirstFreeFinds(table, h, m, i + 1);
    }
  }

  // ---------------------------------------------------------------------------
  // Balance
  // ---------------------------------------------------------------------------

  /** The number of turns the k-th of n hosts has had after t turns. */
  function Share(t: nat, n: nat, k: nat): (r: nat)
    requires n > 0
  {
    t / n + if k < t % n then 1 else 0
  }

  lemma ShareNext(t: nat, n: nat, k: nat)
    requires k < n
    ensures Share(t + 1, n, k) == Share(t, n, k) + if k == t % n then 1 else 0
  {
    var q, r := t / n, t % n;
    assert t == n * q + r;
    assert (q + 1) * n == q * n + n && (q + 2) * n == q * n + n + n;
    if r + 1 < n {
      DivIs(t + 1, n, q);
    } else {
      DivIs(t + 1, n, q + 1);
    }
    assert t + 1 == n * ((t + 1) / n) + (t + 1) % n;
  }

  lemma ShareIsFloorOrCeil(t: nat, n: nat, k: nat)
    requires k < n
    ensures t / n <= Share(t, n, k) <= (t + n - 1) / n
  {
    var q, r := t / n, t % n;
    assert t == n * q + r;
    assert (q + 1) * n == q * n + n && (q + 2) * n == q * n + n + n;
    if r > 0 {
      DivIs(t + n - 1, n, q + 1);
    } else {
      DivIs(t + n - 1, n, q);
    }
  }

  ghost predicate Rotation(hosts: seq<Host>, m: nat) {
    && |hosts| > 0 && m >= 2 && Prime(m)
    && (forall k :: 0 <= k < |hosts| ==> Spans(hosts[k], m))
    && (forall i, k :: 0 <= i < k < |hosts| ==> hosts[i].owner != hosts[k].owner)
  }

  ghost predicate Balanced(hosts: seq<Host>, table: seq<int>, t: nat)
    requires |hosts| > 0
  {
    forall k :: 0 <= k < |hosts| ==> multiset(table)[hosts[k].owner] == Share(t, |hosts|, k)
  }

  ghost predicate Owned(hosts: seq<Host>, v: int) {
    exists k :: 0 <= k < |hosts| && v == hosts[k].owner
  }

  lemma TurnTakesFree(table: seq<int>, h: Host, m: nat)
    requires |table| == m && Prime(m) && Spans(h, m) && FREE in table
    ensures multiset(Turn(table, h, m)) == multiset(table) - multiset{FREE} + multiset{h.owner}
    ensures forall v :: v in Turn(table, h, m) ==> v in table || v == h.owner
  {
    FirstFreeFinds(table, h, m, 0);
  }

  /** After t turns exactly t slots are owned, and every host has had its share of the turns. */
  lemma {:induction false} FillBalances(hosts: seq<Host>, m: nat, t: nat)
    requires Rotation(hosts, m) && t <= m
    ensures multiset(Fill(hosts, m, t))[FREE] == m - t
    ensures Balanced(hosts, Fill(hosts, m, t), t)
    ensures forall v :: v in Fill(hosts, m, t) ==> v == FREE || Owned(hosts, v)
  {
    hide Turn, Share, Prime, Balanced;
    if t == 0 {
      NoneOwned(hosts, m);
    } else {
      FillBalances(hosts, m, t - 1);
      TurnBalances(hosts, m, t - 1, Fill(hosts, m, t - 1));
    }
  }

  lemma TurnBalances(hosts: seq<Host>, m: nat, t: nat, table: seq<int>)
    requires Rotation(hosts, m) && t < m == |table|
    requires multiset(table)[FREE] == m - t && Balanced(hosts, table, t)
    requires forall v :: v in table ==> v == FREE || Owned(hosts, v)
    ensures var next := Turn(table, hosts[t % |hosts|], m);
            && multiset(next)[FREE] == m - t - 1 && Balanced(hosts, next, t + 1)
            && forall v :: v in next ==> v == FREE || Owned(hosts, v)
  {
    hide Turn, Share, Prime;
    var k := t % |hosts|;
    assert FREE in multiset(table);
    TurnTakesFree(table, hosts[k], m);
    var next := Turn(table, hosts[k], m);
    forall i | 0 <= i < |hosts| ensures multiset(next)[hosts[i].owner] == Share(t + 1, |hosts|, i) {
      ShareNext(t, |hosts|, i);
    }
    assert Owned(hosts, hosts[k].owner);
  }

  lemma NoneOwned(hosts: seq<Host>, m: nat)
    requires Rotation(hosts, m)
    ensures multiset(Fill(hosts, m, 0))[FREE] == m && Balanced(hosts, Fill(hosts, m, 0), 0)
  {
    FreeCount(m);
    assert Fill(hosts, m, 0) == seq(m, _ => FREE);
    forall k | 0 <= k < |hosts| ensures multiset(Fill(hosts, m, 0))[hosts[k].owner] == 0 {
      assert hosts[k].owner !in Fill(hosts, m, 0);
    }
  }

  lemma {:induction false} FreeCount(m: nat)
    ensures multiset(seq(m, _ => FREE))[FREE] == m
  {
    if m == 0 {
    } else {
      FreeCount(m - 1);
      assert seq(m, _ => FREE) == seq(m - 1, _ => FREE) + [FREE];
    }
  }

  /** The finished table: every slot belongs to a host, and every host owns floor(M/N) or
      ceil(M/N) slots, the first M mod N hosts in build order one more than the rest. */
  lemma MaglevBalance(hosts: seq<Host>, m: nat)
    requires Rotation(hosts, m)
    ensures var table, n := Fill(hosts, m, m), |hosts|;
            && (forall c :: 0 <= c < m ==> Owned(hosts, table[c]))
            && (forall k :: 0 <= k < n ==> multiset(table)[hosts[k].owner] == m / n + if k < m % n then 1 else 0)
            && (forall k :: 0 <= k < n ==> m / n <= multiset(table)[hosts[k].owner] <= (m + n - 1) / n)
  {
    hide Fill, Owned, Prime;
    FillBalances(hosts, m, m);
    var table, n := Fill(hosts, m, m), |hosts|;
    forall c | 0 <= c < m ensures Owned(hosts, table[c]) {
      assert table[c] in multiset(table);
    }
    forall k | 0 <= k < n
      ensures multiset(table)[hosts[k].owner] == m / n + if k < m % n then 1 else 0
      ensures m / n <= multiset(table)[hosts[k].owner] <= (m + n - 1) / n
    {
      ShareIsFloorOrCeil(m, n, k);
    }
  }

  // ---------------------------------------------------------------------------
  // Build order
  // ---------------------------------------------------------------------------

  /** Two rotations with the same preference lists, turn by turn, under other owner names. */
  ghost predicate SameLists(hs: seq<Host>, gs: seq<Host>) {
    |hs| == |gs| && forall k :: 0 <= k < |hs| ==> hs[k].offset == gs[k].offset && hs[k].skip == gs[k].skip
  }

  /** Every slot is free in both tables or belongs to the same position of the rotation. */
  ghost predicate SameOwners(hs: seq<Host>, gs: seq<Host>, a: seq<int>, b: seq<int>)
    requires |hs| == |gs|
  {
    |a| == |b| && forall c :: 0 <= c < |a| ==> SameOwner(hs, gs, a[c], b[c])
  }

  ghost predicate SameOwner(hs: seq<Host>, gs: seq<Host>, v: int, w: int)
    requires |hs| == |gs|
  {
    (v == FREE && w == FREE) || exists k :: 0 <= k < |hs| && v == hs[k].owner && w == gs[k].owner
  }

  lemma {:induction false} SameFirstFree(hs: seq<Host>, gs: seq<Host>, a: seq<int>, b: seq<int>, h: Host, g: Host, m: nat, j: nat)
    requires |hs| == |gs| && SameOwners(hs, gs, a, b) && |a| == m > 0 && h.offset == g.offset && h.skip == g.skip
    ensures FirstFree(a, h, m, j) == FirstFree(b, g, m, j)
    decreases m - j
  {
    if j < m {
      assert SameOwner(hs, gs, a[Slot(h, m, j)], b[Slot(g, m, j)]);
      SameFirstFree(hs, gs, a, b, h, g, m, j + 1);
    }
  }

  /** The layout depends on the hosts' addresses in sorted order only: configuring the endpoints in
      another order renames the owners and moves no slot from one address to another. */
  lemma {:induction false} LayoutIgnoresNames(hs: seq<Host>, gs: seq<Host>, m: nat, t: nat)
    requires SameLists(hs, gs) && |hs| > 0 && m > 0
    ensures SameOwners(hs, gs, Fill(hs, m, t), Fill(gs, m, t))
  {
    if t == 0 {
    } else {
      hide SameOwners, Turn;
      LayoutIgnoresNames(hs, gs, m, t - 1);
      SameTurns(hs, gs, Fill(hs, m, t - 1), Fill(gs, m, t - 1), m, (t - 1) % |hs|);
    }
  }

  lemma SameTurns(hs: seq<Host>, gs: seq<Host>, a: seq<int>, b: seq<int>, m: nat, k: nat)
    requires SameLists(hs, gs) && k < |hs| && |a| == m > 0 && SameOwners(hs, gs, a, b)
    ensures SameOwners(hs, gs, Turn(a, hs[k], m), Turn(b, gs[k], m))
  {
    hide SameOwner, FirstFree;
    SameFirstFree(hs, gs, a, b, hs[k], gs[k], m, 0);
    OwnersCorrespond(hs, gs, k);
  }

  lemma OwnersCorrespond(hs: seq<Host>, gs: seq<Host>, k: nat)
    requires |hs| == |gs| && k < |hs|
    ensures SameOwner(hs, gs, hs[k].owner, gs[k].owner)
  {
  }

  // ---------------------------------------------------------------------------
  // The build
  // ---------------------------------------------------------------------------

  /** offset + skip * next in 64-bit words, reduced to a slot. */
  function SlotWord(offset: nat, skip: nat, next: nat, m: nat): nat
    requires m > 0
  {
    Wrap(offset + Wrap(skip * next)) % m
  }

  const SIZE_BOUND: nat := 0x1_0000_0000

  lemma SlotBound(o: nat, k: nat, m: nat, j: nat)
    requires o < m && 1 <= k < m && j <= m
    ensures o + k * j < m * m
  {
    MulMono(j, m, k);
    MulMono(k, m - 1, m);
    assert k * j == j * k && m * k == k * m && (m - 1) * m + m == m * m;
  }

  /** Below 2^32 slots the word arithmetic never wraps while next stays within the table. */
  lemma SlotWordExact(h: Host, m: nat, j: nat)
    requires 2 <= m <= SIZE_BOUND && Spans(h, m) && j <= m
    ensures SlotWord(h.offset, h.skip, j, m) == Slot(h, m, j)
    ensures h.offset + h.skip * j < m * m <= WORD
  {
    SlotBound(h.offset, h.skip, m, j);
    MulMono(m, SIZE_BOUND, m);
    MulMono(m, SIZE_BOUND, SIZE_BOUND);
    assert m * m <= WORD;
    var x := h.skip * j;
    SmallWord(x);
    SmallWord(h.offset + x);
  }

  lemma SmallWord(x: nat)
    requires x < WORD
    ensures Wrap(x) == x
  {
  }

  /** One host's turn in the populate loop: skip the taken slots, claim the next free one. */
  method Claim(table: array<int>, next: array<nat>, k: nat, h: Host, m: nat)
    requires table.Length == m <= SIZE_BOUND && Prime(m) && Spans(h, m) && k < next.Length
    requires FREE in table[..] && Tried(table[..], h, m, next[k])
    modifies table, next
    ensures table[..] == Turn(old(table[..]), h, m)
    ensures next[k] <= m && Tried(table[..], h, m, next[k])
    ensures forall i :: 0 <= i < next.Length && i != k ==> next[i] == old(next[i])
  {
    FreeAhead(table[..], h, m, next[k]);
    SlotWordExact(h, m, next[k]);
    var c := SlotWord(h.offset, h.skip, next[k], m);
    while table[c] != FREE
      invariant next[k] < m && c == Slot(h, m, next[k])
      invariant table[..] == old(table[..]) && Tried(table[..], h, m, next[k])
      invariant forall i :: 0 <= i < next.Length && i != k ==> next[i] == old(next[i])
      decreases m - next[k]
    {
      next[k] := next[k] + 1;
      FreeAhead(table[..], h, m, next[k]);
      SlotWordExact(h, m, next[k]);
      c := SlotWord(h.offset, h.skip, next[k], m);
    }
    FirstFreeIs(table[..], h, m, 0, next[k]);
    table[c] := h.owner;
    next[k] := next[k] + 1;
  }

  /** Taken slots stay taken. */
  lemma TurnKeepsTried(table: seq<int>, h: Host, m: nat, g: Host, j: nat)
    requires |table| == m > 0 && Tried(table, g, m, j)
    ensures Tried(Turn(table, h, m), g, m, j)
  {
  }

  lemma FillHasRoom(hosts: seq<Host>, m: nat, t: nat)
    requires Rotation(hosts, m) && t < m
    ensures FREE in Fill(hosts, m, t)
  {
    FillBalances(hosts, m, t);
    assert FREE in multiset(Fill(hosts, m, t));
  }

  lemma RoundPosition(round: nat, n: nat, k: nat)
    requires k < n
    ensures (round * n + k) % n == k
  {
    assert (round + 1) * n == round * n + n;
    DivIs(round * n + k, n, round);
    assert round * n + k == n * ((round * n + k) / n) + (round * n + k) % n;
  }

  lemma NextTurn(hosts: seq<Host>, m: nat, t: nat, round: nat, k: nat)
    requires Rotation(hosts, m) && t < m && t == round * |hosts| + k && k < |hosts|
    ensures FREE in Fill(hosts, m, t) && Fill(hosts, m, t + 1) == Turn(Fill(hosts, m, t), hosts[k], m)
    ensures forall i :: 0 <= i < |hosts| ==>
              Share(t + 1, |hosts|, i) == Share(t, |hosts|, i) + if i == k then 1 else 0
  {
    hide Prime, Turn, Share;
    FillHasRoom(hosts, m, t);
    RoundPosition(round, |hosts|, k);
    forall i | 0 <= i < |hosts|
      ensures Share(t + 1, |hosts|, i) == Share(t, |hosts|, i) + if i == k then 1 else 0
    {
      ShareNext(t, |hosts|, i);
    }
  }

  lemma EmptyTable(hosts: seq<Host>, m: nat)
    requires Rotation(hosts, m)
    ensures Fill(hosts, m, 0) == seq(m, _ => FREE)
    ensures forall k :: 0 <= k < |hosts| ==> Tried(Fill(hosts, m, 0), hosts[k], m, 0) && Share(0, |hosts|, k) == 0
  {
  }

  /** The arrays after `filled` turns: the table, each host's share, and how far its search has come. */
  ghost predicate Populating(hosts: seq<Host>, m: nat, filled: nat, table: seq<int>, next: seq<nat>, count: seq<nat>)
    requires m > 0 && |hosts| > 0
  {
    && table == Fill(hosts, m, filled) && |next| == |count| == |hosts|
    && (forall i :: 0 <= i < |hosts| ==> count[i] == Share(filled, |hosts|, i))
    && (forall i :: 0 <= i < |hosts| ==> Tried(table, hosts[i], m, next[i]))
  }

  /** Host k has claimed its slot in turn `filled`. */
  lemma TurnTaken(hosts: seq<Host>, m: nat, filled: nat, round: nat, k: nat, table: seq<int>, next: seq<nat>, count: seq<nat>, j: nat)
    requires Rotation(hosts, m) && filled < m && filled == round * |hosts| + k && k < |hosts|
    requires Populating(hosts, m, filled, table, next, count) && Tried(Turn(table, hosts[k], m), hosts[k], m, j)
    ensures Populating(hosts, m, filled + 1, Turn(table, hosts[k], m), next[k := j], count[k := count[k] + 1])
  {
    hide Prime, Turn, Fill, Share, Tried;
    NextTurn(hosts, m, filled, round, k);
    forall i | 0 <= i < |hosts| ensures Tried(Turn(table, hosts[k], m), hosts[i], m, next[k := j][i]) {
      if i != k {
        TurnKeepsTried(table, hosts[k], m, hosts[i], next[i]);
      }
    }
  }

  /** The populate loops. The proof of termination is FreeAhead: no host runs off its list. */
  method Populate(hosts: seq<Host>, m: nat) returns (table: array<int>, count: array<nat>)
    requires Rotation(hosts, m) && m <= SIZE_BOUND
    ensures fresh(table) && fresh(count)
    ensures table.Length == m && table[..] == Fill(hosts, m, m)
    ensures count.Length == |hosts|
    ensures forall k :: 0 <= k < |hosts| ==> count[k] == Share(m, |hosts|, k)
  {
    hide Prime, Turn, Fill, Share, Tried, Populating;
    var n := |hosts|;
    table := new int[m](_ => FREE);
    var next := new nat[n](_ => 0);
    count := new nat[n](_ => 0);
    var filled := 0;
    ghost var round := 0;
    assert Populating(hosts, m, 0, table[..], next[..], count[..]) by { PopulatingNone(hosts, m, table[..], next[..], count[..]); }
    while filled < m
      invariant filled <= m && (filled < m ==> filled == round * n)
      invariant Populating(hosts, m, filled, table[..], next[..], count[..])
      decreases m - filled
    {
      var k := 0;
      while k < n && filled != m
        invariant k <= n && filled <= m && (filled < m || k < n ==> filled == round * n + k)
        invariant k > 0 || filled < m
        invariant Populating(hosts, m, filled, table[..], next[..], count[..])
        decreases n - k
      {
        ghost var nexts, counts := next[..], count[..];
        SearchReady(hosts, m, filled, k, table[..], nexts, counts);
        Claim(table, next, k, hosts[k], m);
        count[k] := count[k] + 1;
        TurnTaken(hosts, m, filled, round, k, Fill(hosts, m, filled), nexts, counts, next[k]);
        assert next[..] == nexts[k := next[k]] && count[..] == counts[k := counts[k] + 1];
        filled := filled + 1;
        k := k + 1;
      }
      round := round + 1;
    }
    PopulatedShares(hosts, m, table[..], next[..], count[..]);
  }

  lemma PopulatingNone(hosts: seq<Host>, m: nat, table: seq<int>, next: seq<nat>, count: seq<nat>)
    requires Rotation(hosts, m) && |table| == m && |next| == |count| == |hosts|
    requires (forall c :: 0 <= c < m ==> table[c] == FREE) && (forall k :: 0 <= k < |hosts| ==> next[k] == count[k] == 0)
    ensures Populating(hosts, m, 0, table, next, count)
  {
    EmptyTable(hosts, m);
    assert table == Fill(hosts, m, 0);
  }

  lemma SearchReady(hosts: seq<Host>, m: nat, filled: nat, k: nat, table: seq<int>, next: seq<nat>, count: seq<nat>)
    requires Rotation(hosts, m) && filled < m && k < |hosts| && Populating(hosts, m, filled, table, next, count)
    ensures |table| == m && FREE in table && table == Fill(hosts, m, filled) && Tried(table, hosts[k], m, next[k])
  {
    hide Prime, Fill, Tried;
    FillHasRoom(hosts, m, filled);
  }

  lemma PopulatedShares(hosts: seq<Host>, m: nat, table: seq<int>, next: seq<nat>, count: seq<nat>)
    requires Rotation(hosts, m) && Populating(hosts, m, m, table, next, count)
    ensures table == Fill(hosts, m, m) && |count| == |hosts|
    ensures forall k :: 0 <= k < |hosts| ==> count[k] == Share(m, |hosts|, k)
  {
    hide Prime, Fill, Share, Tried;
  }

  /** Build order and the two digests of each endpoint's address determine the rotation. */
  function HostsOf(order: seq<nat>, hash: seq<nat>, seeded: seq<nat>, m: nat): (hosts: seq<Host>)
    requires m >= 2 && |hash| == |seeded| && forall k :: 0 <= k < |order| ==> order[k] < |hash|
    ensures |hosts| == |order|
    ensures forall k :: 0 <= k < |hosts| ==> hosts[k].owner == order[k] && Spans(hosts[k], m)
  {
    seq(|order|, k requires 0 <= k < |order| => Host(order[k], hash[order[k]] % m, seeded[order[k]] % (m - 1) + 1))
  }

  /** order lists every endpoint index once: what the stable sort by address returns. */
  ghost predicate Arranges(order: seq<nat>, n: nat) {
    |order| == n && NoDup(order) && forall k :: 0 <= k < n ==> order[k] < n
  }

  lemma ArrangedHosts(order: seq<nat>, hash: seq<nat>, seeded: seq<nat>, m: nat)
    requires m >= 2 && Prime(m) && |hash| == |seeded| > 0 && Arranges(order, |hash|)
    ensures Rotation(HostsOf(order, hash, seeded, m), m)
  {
    hide Prime;
  }

  // ---------------------------------------------------------------------------
  // Who owns which slot
  // ---------------------------------------------------------------------------

  /** c stands on the list of the host whose turn it was, and everything before it on that list had been
      claimed in earlier turns. */
  ghost predicate Earned(hosts: seq<Host>, m: nat, turn: seq<nat>, c: nat)
    requires m > 0 && |hosts| > 0 && |turn| == m && c < m
  {
    var h := hosts[turn[c] % |hosts|];
    exists j: nat :: Slot(h, m, j) == c && forall i: nat :: i < j ==> turn[Slot(h, m, i)] < turn[c]
  }

  /** turn says in which of the first t turns each slot was claimed, and m where it is still free. */
  ghost predicate ByTurns(hosts: seq<Host>, m: nat, table: seq<int>, turn: seq<nat>, t: nat)
    requires m > 0 && |hosts| > 0
  {
    && |table| == |turn| == m
    && (forall c :: 0 <= c < m ==> if turn[c] < t then table[c] == hosts[turn[c] % |hosts|].owner && Earned(hosts, m, turn, c)
                                   else turn[c] == m && table[c] == FREE)
    && (forall c, d :: 0 <= c < d < m && turn[c] < t && turn[d] < t ==> turn[c] != turn[d])
  }

  lemma EarnedStays(hosts: seq<Host>, m: nat, turn: seq<nat>, c: nat, d: nat, t: nat)
    requires m > 0 && |hosts| > 0 && |turn| == m && c < m && d < m && c != d && turn[c] < t <= m && turn[d] == m
    requires Earned(hosts, m, turn, c)
    ensures Earned(hosts, m, turn[d := t], c)
  {
    var h := hosts[turn[c] % |hosts|];
    var j: nat :| Slot(h, m, j) == c && forall i: nat :: i < j ==> turn[Slot(h, m, i)] < turn[c];
    assert Slot(h, m, j) == c && forall i: nat :: i < j ==> turn[d := t][Slot(h, m, i)] < turn[d := t][c];
  }

  lemma ClaimEarned(hosts: seq<Host>, m: nat, table: seq<int>, turn: seq<nat>, t: nat, j: nat)
    requires m > 0 && |hosts| > 0 && t < m && ByTurns(hosts, m, table, turn, t)
    requires var h := hosts[t % |hosts|]; Tried(table, h, m, j) && table[Slot(h, m, j)] == FREE
    ensures var c := Slot(hosts[t % |hosts|], m, j); turn[c] == m && Earned(hosts, m, turn[c := t], c)
  {
    var h := hosts[t % |hosts|];
    var c := Slot(h, m, j);
    var next := turn[c := t];
    forall i: nat | i < j ensures next[Slot(h, m, i)] < next[c] {
      assert table[Slot(h, m, i)] != FREE;
    }
    assert next[c] == t && hosts[next[c] % |hosts|] == h;
    assert Slot(h, m, j) == c && forall i: nat :: i < j ==> next[Slot(h, m, i)] < next[c];
  }

  lemma {:induction false} FirstFreeTried(table: seq<int>, h: Host, m: nat, i: nat)
    requires |table| == m > 0 && Tried(table, h, m, i) && i <= m
    ensures Tried(table, h, m, FirstFree(table, h, m, i))
    decreases m - i
  {
    if i >= m || table[Slot(h, m, i)] == FREE {
    } else {
      FirstFreeTried(table, h, m, i + 1);
    }
  }

  lemma TurnByTurns(hosts: seq<Host>, m: nat, table: seq<int>, turn: seq<nat>, t: nat) returns (next: seq<nat>)
    requires Rotation(hosts, m) && t < m && ByTurns(hosts, m, table, turn, t) && FREE in table
    ensures ByTurns(hosts, m, Turn(table, hosts[t % |hosts|], m), next, t + 1)
  {
    hide Prime, Earned, Tried;
    var h := hosts[t % |hosts|];
    assert Tried(table, h, m, 0) by { NothingTried(table, h, m); }
    FirstFreeFinds(table, h, m, 0);
    FirstFreeTried(table, h, m, 0);
    var j := FirstFree(table, h, m, 0);
    var c := Slot(h, m, j);
    ClaimEarned(hosts, m, table, turn, t, j);
    next := turn[c := t];
    forall d | 0 <= d < m && d != c && next[d] < t + 1 ensures Earned(hosts, m, next, d) && turn[d] < t {
      EarnedStays(hosts, m, turn, d, c, t);
    }
  }

  lemma NothingTried(table: seq<int>, h: Host, m: nat)
    requires |table| == m > 0
    ensures Tried(table, h, m, 0)
  {
  }

  lemma NoTurnYet(hosts: seq<Host>, m: nat, turn: seq<nat>)
    requires m > 0 && |hosts| > 0 && |turn| == m && forall c :: 0 <= c < m ==> turn[c] == m
    ensures ByTurns(hosts, m, Fill(hosts, m, 0), turn, 0)
  {
  }

  lemma {:induction false} FilledByTurns(hosts: seq<Host>, m: nat, t: nat) returns (turn: seq<nat>)
    requires Rotation(hosts, m) && t <= m
    ensures ByTurns(hosts, m, Fill(hosts, m, t), turn, t)
  {
    hide Prime, Turn, ByTurns;
    if t == 0 {
      turn := seq(m, _ => m);
      NoTurnYet(hosts, m, turn);
    } else {
      var before := FilledByTurns(hosts, m, t - 1);
      FillHasRoom(hosts, m, t - 1);
      turn := TurnByTurns(hosts, m, Fill(hosts, m, t - 1), before, t - 1);
    }
  }

  /** The j-th slot that the digests of endpoint e lead to. */
  function DigestSlot(hash: seq<nat>, seeded: seq<nat>, m: nat, e: nat, j: nat): (c: nat)
    requires m >= 2 && e < |hash| == |seeded|
    ensures c < m
  {
    (hash[e] % m + (seeded[e] % (m - 1) + 1) * j) % m
  }

  /** Slot c went to the endpoint whose turn it was, at the first place on its own list that nobody had
      claimed before. */
  ghost predicate TakenInTurn(order: seq<nat>, hash: seq<nat>, seeded: seq<nat>, m: nat, table: seq<int>, turn: seq<nat>, c: nat)
    requires m >= 2 && |hash| == |seeded| && |order| > 0 && (forall k :: 0 <= k < |order| ==> order[k] < |hash|)
    requires |table| == |turn| == m && c < m
  {
    var e := order[turn[c] % |order|];
    && turn[c] < m && table[c] == e
    && exists j: nat :: DigestSlot(hash, seeded, m, e, j) == c
                        && forall i: nat :: i < j ==> turn[DigestSlot(hash, seeded, m, e, i)] < turn[c]
  }

  /** The endpoints, in build order, took the slots in rotation, each time the first unclaimed one on the
      list their digests generate; every slot was claimed in a turn of its own. */
  ghost predicate TakenInTurns(order: seq<nat>, hash: seq<nat>, seeded: seq<nat>, m: nat, table: seq<int>, turn: seq<nat>)
    requires m >= 2 && |hash| == |seeded| && |order| > 0 && (forall k :: 0 <= k < |order| ==> order[k] < |hash|)
  {
    && |table| == |turn| == m
    && (forall c :: 0 <= c < m ==> TakenInTurn(order, hash, seeded, m, table, turn, c))
    && (forall c, d :: 0 <= c < d < m ==> turn[c] != turn[d])
  }

  lemma SlotsFollowDigests(order: seq<nat>, hash: seq<nat>, seeded: seq<nat>, m: nat) returns (turn: seq<nat>)
    requires m >= 2 && Prime(m) && |hash| == |seeded| > 0 && Arranges(order, |hash|)
    ensures TakenInTurns(order, hash, seeded, m, Fill(HostsOf(order, hash, seeded, m), m, m), turn)
  {
    hide Prime;
    var hosts := HostsOf(order, hash, seeded, m);
    ArrangedHosts(order, hash, seeded, m);
    turn := FilledByTurns(hosts, m, m);
    var table := Fill(hosts, m, m);
    FillBalances(hosts, m, m);
    forall c | 0 <= c < m ensures TakenInTurn(order, hash, seeded, m, table, turn, c) {
      FullTable(hosts, m, c);
      EarnedByDigest(order, hash, seeded, m, turn, c);
    }
  }

  lemma FullTable(hosts: seq<Host>, m: nat, c: nat)
    requires Rotation(hosts, m) && c < m
    ensures Fill(hosts, m, m)[c] != FREE
  {
    hide Prime, Fill;
    FillBalances(hosts, m, m);
    assert Fill(hosts, m, m)[c] in multiset(Fill(hosts, m, m));
  }

  lemma EarnedByDigest(order: seq<nat>, hash: seq<nat>, seeded: seq<nat>, m: nat, turn: seq<nat>, c: nat)
    requires m >= 2 && |hash| == |seeded| > 0 && Arranges(order, |hash|) && |turn| == m && c < m
    requires Earned(HostsOf(order, hash, seeded, m), m, turn, c)
    ensures var e := order[turn[c] % |order|];
            exists j: nat :: DigestSlot(hash, seeded, m, e, j) == c
                             && forall i: nat :: i < j ==> turn[DigestSlot(hash, seeded, m, e, i)] < turn[c]
  {
    var hosts := HostsOf(order, hash, seeded, m);
    var h, e := hosts[turn[c] % |hosts|], order[turn[c] % |order|];
    var j: nat :| Slot(h, m, j) == c && forall i: nat :: i < j ==> turn[Slot(h, m, i)] < turn[c];
    assert forall i: nat :: Slot(h, m, i) == DigestSlot(hash, seeded, m, e, i);
    assert DigestSlot(hash, seeded, m, e, j) == c;
  }

  /** The first endpoint in build order owns the slot its own digest names. */
  lemma FirstSlot(order: seq<nat>, hash: seq<nat>, seeded: seq<nat>, m: nat)
    requires m >= 2 && Prime(m) && |hash| == |seeded| > 0 && Arranges(order, |hash|)
    ensures Fill(HostsOf(order, hash, seeded, m), m, m)[hash[order[0]] % m] == order[0]
  {
    hide Prime;
    var hosts := HostsOf(order, hash, seeded, m);
    var c := hash[order[0]] % m;
    DivMod(hash[order[0]], m);
    DivIs(c, m, 0);
    DivMod(c, m);
    assert Slot(hosts[0], m, 0) == c;
    var free := Fill(hosts, m, 0);
    assert free == seq(m, _ => FREE);
    assert Fill(hosts, m, 1) == Turn(free, hosts[0], m);
    assert FirstFree(free, hosts[0], m, 0) == 0;
    FillStays(hosts, m, 1, m, c);
  }

  /** A claimed slot keeps its owner. */
  lemma {:induction false} FillStays(hosts: seq<Host>, m: nat, t: nat, u: nat, c: nat)
    requires m > 0 && |hosts| > 0 && t <= u && c < m && Fill(hosts, m, t)[c] != FREE
    ensures Fill(hosts, m, u)[c] == Fill(hosts, m, t)[c]
    decreases u
  {
    if t == u {
    } else {
      FillStays(hosts, m, t, u - 1, c);
      TurnStays(Fill(hosts, m, u - 1), hosts[(u - 1) % |hosts|], m, c);
    }
  }

  lemma TurnStays(table: seq<int>, h: Host, m: nat, c: nat)
    requires |table| == m > 0 && c < m && table[c] != FREE
    ensures Turn(table, h, m)[c] == table[c]
  {
    FirstFreeIsFree(table, h, m, 0);
  }

  lemma {:induction false} FirstFreeIsFree(table: seq<int>, h: Host, m: nat, i: nat)
    requires |table| == m > 0
    ensures var j := FirstFree(table, h, m, i); j < m ==> table[Slot(h, m, j)] == FREE
    decreases m - i
  {
    if i >= m || table[Slot(h, m, i)] == FREE {
    } else {
      FirstFreeIsFree(table, h, m, i + 1);
    }
  }

  /** newMaglevWithRNG: the table, and the gauges min and max per host. */
  method NewMaglev(order: seq<nat>, hash: seq<nat>, seeded: seq<nat>, m: nat)
      returns (table: array<int>, minPerHost: nat, maxPerHost: nat)
    requires 2 <= m <= SIZE_BOUND && Prime(m) && |hash| == |seeded| && Arranges(order, |hash|)
    ensures |hash| == 0 ==> table.Length == 0 && minPerHost == maxPerHost == 0
    ensures |hash| > 0 ==> table[..] == Fill(HostsOf(order, hash, seeded, m), m, m)
    ensures |hash| > 0 ==> exists turn :: TakenInTurns(order, hash, seeded, m, table[..], turn)
    ensures |hash| > 0 ==> table[..][hash[order[0]] % m] == order[0]
    ensures |hash| > 0 ==> forall c :: 0 <= c < table.Length ==> 0 <= table[c] < |hash|
    ensures |hash| > 0 ==> minPerHost == m / |hash| && maxPerHost == (m + |hash| - 1) / |hash|
  {
    hide Prime, Fill, Share, TakenInTurns;
    var n := |hash|;
    if n == 0 {
      table := new int[0];
      return table, 0, 0;
    }
    var hosts := HostsOf(order, hash, seeded, m);
    ArrangedHosts(order, hash, seeded, m);
    var count: array<nat>;
    table, count := Populate(hosts, m);
    minPerHost, maxPerHost := Tally.MinMax(count);
    ShareExtremes(m, n);
    MaglevBalance(hosts, m);
    FirstSlot(order, hash, seeded, m);
    ghost var turn := SlotsFollowDigests(order, hash, seeded, m);
    assert TakenInTurns(order, hash, seeded, m, table[..], turn);
    assert count[0] <= maxPerHost && minPerHost <= count[n - 1];
    forall k | 0 <= k < n ensures m / n <= count[k] <= (m + n - 1) / n {
      ShareIsFloorOrCeil(m, n, k);
    }
    forall c | 0 <= c < table.Length ensures 0 <= table[c] < n {
      assert Owned(hosts, table[c]);
    }
  }

  /** The first host in build order has the most slots and the last one the fewest. */
  lemma ShareExtremes(t: nat, n: nat)
    requires n > 0
    ensures Share(t, n, 0) == (t + n - 1) / n && Share(t, n, n - 1) == t / n
  {
    var q, r := t / n, t % n;
    assert t == n * q + r;
    assert (q + 1) * n == q * n + n && (q + 2) * n == q * n + n + n;
    if r > 0 {
      DivIs(t + n - 1, n, q + 1);
    } else {
      DivIs(t + n - 1, n, q);
    }
  }

  // ---------------------------------------------------------------------------
  // Lookup
  // ---------------------------------------------------------------------------

  /** The endpoint a key maps to while the endpoints in up are available. */
  function MaglevHost(table: seq<nat>, key: nat, up: set<nat>): (host: Option<nat>) {
    if table == [] then None else Choose(table, key % |table|, up)
  }

  /** The k-th slot from the key's own one on. */
  function SlotAfter(m: nat, key: nat, k: nat): (c: nat)
    requires m > 0
    ensures c < m
  {
    (key + k) % m
  }

  lemma SlotAfterIs(m: nat, key: nat, k: nat)
    requires m > 0
    ensures At(m, key % m, k) == SlotAfter(m, key, k)
  {
    DivMod(key, m);
    ModOfSum(key % m + k, key / m, m);
    assert key + k == key % m + k + key / m * m;
  }

  /** r owns the k-th slot from the key on, is available, and no earlier slot's owner is. */
  ghost predicate FirstAfter(table: seq<nat>, key: nat, up: set<nat>, r: nat, k: nat)
    requires table != []
  {
    && k < |table| && r == table[SlotAfter(|table|, key, k)] && r in up
    && forall i: nat :: i < k ==> table[SlotAfter(|table|, key, i)] !in up
  }

  /** A key maps to the owner of the first slot from key mod M on, cyclically, whose endpoint is
      available, and to nothing exactly if there is none. */
  lemma MaglevHostMeans(table: seq<nat>, key: nat, up: set<nat>)
    requires table != []
    ensures var r := MaglevHost(table, key, up);
            if r.Some? then exists k :: FirstAfter(table, key, up, r.value, k)
            else forall i: nat :: i < |table| ==> table[SlotAfter(|table|, key, i)] !in up
  {
    hide SlotAfter, At, FirstUp;
    var m := |table|;
    FirstUpMeans(table, key % m, 0, up);
    forall i: nat ensures At(m, key % m, i) == SlotAfter(m, key, i) {
      SlotAfterIs(m, key, i);
    }
    var first := FirstUp(table, key % m, 0, up);
    if first.Some? {
      assert FirstAfter(table, key, up, table[At(m, key % m, first.value)], first.value);
    }
  }

  /** Losing endpoints moves no key but those that mapped to a lost one. */
  lemma MaglevFailover(table: seq<nat>, key: nat, up: set<nat>, less: set<nat>)
    requires less <= up && MaglevHost(table, key, less) != MaglevHost(table, key, up)
    ensures MaglevHost(table, key, up).Some? && MaglevHost(table, key, up).value !in less
  {
    FailoverIsMinimal(table, key % |table|, up, less);
  }

  /** With at least one slot per host, a pick from a built table fails only if every host is down. */
  lemma MaglevServesAnyHost(hosts: seq<Host>, m: nat, table: seq<nat>, key: nat, up: set<nat>)
    requires Rotation(hosts, m) && |hosts| <= m == |table|
    requires forall c :: 0 <= c < m ==> table[c] == Fill(hosts, m, m)[c]
    ensures MaglevHost(table, key, up).None? <==> forall k :: 0 <= k < |hosts| ==> hosts[k].owner !in up
  {
    hide Fill, Prime, Choose;
    MaglevBalance(hosts, m);
    ChooseTotal(table, key % m, up);
    forall k | 0 <= k < |hosts| ensures hosts[k].owner in table {
      SlotForHost(hosts, m, k);
    }
    if MaglevHost(table, key, up).Some? {
      var c :| 0 <= c < m && table[c] in up;
      assert Owned(hosts, table[c]);
    }
  }

  lemma SlotForHost(hosts: seq<Host>, m: nat, k: nat)
    requires Rotation(hosts, m) && |hosts| <= m && k < |hosts|
    ensures hosts[k].owner in Fill(hosts, m, m)
  {
    hide Fill, Prime;
    MaglevBalance(hosts, m);
    var n := |hosts|;
    DivMod(m, n);
    assert m / n >= 1;
    assert hosts[k].owner in multiset(Fill(hosts, m, m));
  }

  /** maglevLB.Pick. up is the set of available endpoints at the instant of the pick, panic the
      outcome of the panic gate and drawn the fallback random word. */
  method Pick(table: seq<nat>, n: nat, hashKey: nat, hasHash: bool, drawn: nat, panic: bool, up: set<nat>)
      returns (host: Option<nat>)
    requires n > 0 ==> table != []
    ensures host == if n == 0 then None
                    else var key := if hasHash then hashKey else drawn;
                         if panic then Some(table[key % |table|]) else MaglevHost(table, key, up)
  {
    if n == 0 {
      return None;
    }
    var key := if hasHash then hashKey else drawn;
    var slot := key % |table|;
    if panic {
      return Some(table[slot]);
    }
    host := Walk(table, slot, up);
  }

  // ---------------------------------------------------------------------------
  // The configured table size
  // ---------------------------------------------------------------------------

  const DEFAULT_TABLE_SIZE: nat := 65537
  const TABLE_SIZE_CAP: nat := 5000011

  /** Trial division by k numbers from d on, in steps of two. */
  function Trials(n: nat, d: nat, k: nat): bool
    decreases k
  {
    if k == 0 || d == 0 then true else if n % d == 0 then false else Trials(n, d + 2, k - 1)
  }

  lemma {:induction false} TrialsMean(n: nat, d: nat, k: nat, x: nat)
    requires Trials(n, d, k) && d >= 3 && d % 2 == 1 && d <= x < d + 2 * k && x % 2 == 1
    ensures n % x != 0
    decreases k
  {
    if x != d {
      TrialsMean(n, d + 2, k - 1, x);
    }
  }

  lemma DefaultLowTrials(d: nat)
    requires 3 <= d < 87 && d % 2 == 1
    ensures 65537 % d != 0
  {
    if d < 31 {
      assert Trials(65537, 17, 7) == true && Trials(65537, 3, 14) == true;
      TrialsMean(65537, 3, 14, d);
    } else if d < 59 {
      assert Trials(65537, 45, 7) == true && Trials(65537, 31, 14) == true;
      TrialsMean(65537, 31, 14, d);
    } else {
      assert Trials(65537, 73, 7) == true && Trials(65537, 59, 14) == true;
      TrialsMean(65537, 59, 14, d);
    }
  }

  lemma DefaultMiddleTrials(d: nat)
    requires 87 <= d < 171 && d % 2 == 1
    ensures 65537 % d != 0
  {
    if d < 115 {
      assert Trials(65537, 101, 7) == true && Trials(65537, 87, 14) == true;
      TrialsMean(65537, 87, 14, d);
    } else if d < 143 {
      assert Trials(65537, 129, 7) == true && Trials(65537, 115, 14) == true;
      TrialsMean(65537, 115, 14, d);
    } else {
      assert Trials(65537, 157, 7) == true && Trials(65537, 143, 14) == true;
      TrialsMean(65537, 143, 14, d);
    }
  }

  lemma DefaultHighTrials(d: nat)
    requires 171 <= d < 257 && d % 2 == 1
    ensures 65537 % d != 0
  {
    if d < 199 {
      assert Trials(65537, 185, 7) == true && Trials(65537, 171, 14) == true;
      TrialsMean(65537, 171, 14, d);
    } else if d < 227 {
      assert Trials(65537, 213, 7) == true && Trials(65537, 199, 14) == true;
      TrialsMean(65537, 199, 14, d);
    } else {
      assert Trials(65537, 241, 8) == true && Trials(65537, 227, 15) == true;
      TrialsMean(65537, 227, 15, d);
    }
  }

  lemma DefaultIsPrime()
    ensures Prime(DEFAULT_TABLE_SIZE)
  {
    forall d | 2 <= d < 257 ensures !Divides(d, 65537) {
      NotAFactor(d);
    }
    SmallFactorEnough(65537, 257);
  }

  lemma NotAFactor(d: nat)
    requires 2 <= d < 257
    ensures !Divides(d, 65537)
  {
    if d % 2 == 0 {
      if Divides(d, 65537) {
        EvenFactor(d, 65537);
        assert false;
      }
    } else {
      DividesIffMod(d, 65537);
      if d < 87 {
        DefaultLowTrials(d);
      } else if d < 171 {
        DefaultMiddleTrials(d);
      } else {
        DefaultHighTrials(d);
      }
    }
  }

  /** parseMaglevLbConfig: every size it lets through is a prime within the cap, so that the
      build above applies; it refuses exactly the sizes that are too large or not prime. */
  method ParseTableSize(configured: Option<nat>) returns (size: Option<nat>)
    requires configured.Some? ==> configured.value < WORD
    ensures size.Some? ==> 2 <= size.value <= TABLE_SIZE_CAP && Prime(size.value)
    ensures configured.None? ==> size == Some(DEFAULT_TABLE_SIZE)
    ensures configured.Some? ==>
              size == if configured.value <= TABLE_SIZE_CAP && Prime(configured.value) then configured else None
  {
    DefaultIsPrime();
    if configured.None? {
      return Some(DEFAULT_TABLE_SIZE);
    }
    var ts := configured.value;
    if ts > TABLE_SIZE_CAP {
      return None;
    }
    var prime := IsPrime(ts);
    return if prime then Some(ts) else None;
  }
}
