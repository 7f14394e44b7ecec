/** The metadata subset index (internal/cluster/subset.go): endpoints are grouped by a canonical
    string of their selected metadata, and a route's match is looked up by the same string. */
module Subset {
  import opened Options
  import opened Seqs

  const SEMI: char := ';'
  const EQUALS: char := '='

  /** Scalar metadata. There is one kind of number, and a number is named by an integer code: equal
      doubles have equal codes. */
  datatype Value = Str(text: string) | Num(num: int) | Bool(flag: bool)

  type Metadata = map<string, Value>

  datatype Pair = Pair(key: string, value: Value)

  /** What the program takes from its libraries: the number formatter and the sort by key. */
  datatype Library = Library(format: int -> string, sort: Metadata -> seq<Pair>)

  predicate Avoids(s: string, c: char) { forall i :: 0 <= i < |s| ==> s[i] != c }

  predicate Lists(kvs: seq<Pair>, m: Metadata) {
    && (forall i :: 0 <= i < |kvs| ==> kvs[i].key in m && m[kvs[i].key] == kvs[i].value)
    && (forall k :: k in m ==> exists i :: 0 <= i < |kvs| && kvs[i].key == k)
  }

  /** The order of strings, character by character. */
  predicate Less(a: string, b: string) {
    b != [] && (a == [] || a[0] < b[0] || (a[0] == b[0] && Less(a[1..], b[1..])))
  }

  lemma {:induction false} LessIrreflexive(a: string)
    ensures !Less(a, a)
  {
    if a == [] {
    } else {
      LessIrreflexive(a[1..]);
    }
  }

  predicate Ascending(kvs: seq<Pair>) {
    forall i, j :: 0 <= i < j < |kvs| ==> Less(kvs[i].key, kvs[j].key)
  }

  /** Distinct numbers print differently and without a semicolon; the sort lists exactly the map, each
      key once and in ascending order. */
  ghost predicate Sound(lib: Library) {
    && (forall x, y :: lib.format(x) == lib.format(y) ==> x == y)
    && (forall x :: Avoids(lib.format(x), SEMI))
    && (forall m :: Lists(lib.sort(m), m) && Ascending(lib.sort(m)))
  }

  function Encode(v: Value, lib: Library): string {
    match v
    case Str(t) => "s:" + t
    case Num(x) => "n:" + lib.format(x)
    case Bool(b) => "b:" + if b then "true" else "false"
  }

  function Field(p: Pair, lib: Library): string {
    p.key + "=" + Encode(p.value, lib) + ";"
  }

  function Fields(kvs: seq<Pair>, lib: Library): string {
    if kvs == [] then [] else Fields(kvs[..|kvs| - 1], lib) + Field(kvs[|kvs| - 1], lib)
  }

  /** SubsetMatch.Key of the canonical match for m. */
  function Key(m: Metadata, lib: Library): string { Fields(lib.sort(m), lib) }

  /** Key's builder loop. */
  method WriteKey(kvs: seq<Pair>, lib: Library) returns (b: string)
    ensures b == Fields(kvs, lib)
  {
    b := [];
    for i := 0 to |kvs|
      invariant b == Fields(kvs[..i], lib)
    {
      assert kvs[..i + 1][..i] == kvs[..i];
      var f := kvs[i].key + "=";
      match kvs[i].value {
        case Str(t) => f := f + ("s:" + t);
        case Num(x) => f := f + ("n:" + lib.format(x));
        case Bool(on) => f := f + ("b:" + if on then "true" else "false");
      }
      b := b + (f + ";");
    }
    assert kvs[..|kvs|] == kvs;
  }

  // ---------------------------------------------------------------------------
  // The key is a faithful name
  // ---------------------------------------------------------------------------

  /** Keys without the delimiters, string values without a semicolon. */
  predicate PlainPair(p: Pair) {
    Avoids(p.key, EQUALS) && Avoids(p.key, SEMI) && (p.value.Str? ==> Avoids(p.value.text, SEMI))
  }

  predicate PlainAll(kvs: seq<Pair>) { forall i :: 0 <= i < |kvs| ==> PlainPair(kvs[i]) }

  predicate Plain(m: Metadata) { forall k :: k in m ==> PlainPair(Pair(k, m[k])) }

  lemma EncodeAvoids(v: Value, lib: Library)
    requires Sound(lib) && (v.Str? ==> Avoids(v.text, SEMI))
    ensures Avoids(Encode(v, lib), SEMI)
  {
    if v.Num? {
      assert Avoids(lib.format(v.num), SEMI);
    }
  }

  lemma EncodeInjective(v: Value, w: Value, lib: Library)
    requires Sound(lib) && Encode(v, lib) == Encode(w, lib)
    ensures v == w
  {
    var a, b := Encode(v, lib), Encode(w, lib);
    assert a[0] == b[0];
    assert a[2..] == b[2..];
    match v
    case Str(t) => assert a[2..] == t && b[2..] == w.text;
    case Num(x) => assert a[2..] == lib.format(x) && b[2..] == lib.format(w.num);
    case Bool(f) => assert |a| == 2 + (if f then 4 else 5) && |b| == 2 + (if w.flag then 4 else 5);
  }

  lemma CutInside(a: string, x: string, b: string, y: string, c: char)
    requires a + [c] + x == b + [c] + y && |a| < |b|
    ensures b[|a|] == c
  {
    assert (a + [c] + x)[|a|] == c;
    assert (b + [c] + y)[|a|] == b[|a|];
  }

  /** Two strings that agree up to a delimiter neither contains are cut at the same place. */
  lemma CutUnique(a: string, x: string, b: string, y: string, c: char)
    requires a + [c] + x == b + [c] + y && Avoids(a, c) && Avoids(b, c)
    ensures a == b && x == y
  {
    if |a| < |b| {
      CutInside(a, x, b, y, c);
      assert false;
    } else if |b| < |a| {
      CutInside(b, y, a, x, c);
      assert false;
    }
    var s, t := a + [c] + x, b + [c] + y;
    assert s[..|a|] == a && t[..|a|] == b;
    assert s[|a| + 1..] == x && t[|a| + 1..] == y;
  }

  /** A field is recognised at the head of a longer string. */
  lemma FieldHead(p: Pair, q: Pair, x: string, y: string, lib: Library)
    requires Sound(lib) && PlainPair(p) && PlainPair(q) && Field(p, lib) + x == Field(q, lib) + y
    ensures p == q && x == y
  {
    var v, w := Encode(p.value, lib), Encode(q.value, lib);
    assert Field(p, lib) + x == p.key + [EQUALS] + (v + [SEMI] + x);
    assert Field(q, lib) + y == q.key + [EQUALS] + (w + [SEMI] + y);
    CutUnique(p.key, v + [SEMI] + x, q.key, w + [SEMI] + y, EQUALS);
    EncodeAvoids(p.value, lib);
    EncodeAvoids(q.value, lib);
    CutUnique(v, x, w, y, SEMI);
    EncodeInjective(p.value, q.value, lib);
  }

  lemma {:induction false} FieldsHead(kvs: seq<Pair>, lib: Library)
    requires kvs != []
    ensures Fields(kvs, lib) == Field(kvs[0], lib) + Fields(kvs[1..], lib)
  {
    hide Field;
    var n := |kvs| - 1;
    if n == 0 {
      assert kvs[..0] == [] && kvs[1..] == [];
      assert Field(kvs[0], lib) + [] == [] + Field(kvs[0], lib);
    } else {
      FieldsHead(kvs[..n], lib);
      assert kvs[..n][1..] == kvs[1..][..n - 1];
      assert kvs[1..][n - 1] == kvs[n];
    }
  }

  lemma {:induction false} FieldsInjective(a: seq<Pair>, b: seq<Pair>, lib: Library)
    requires Sound(lib) && PlainAll(a) && PlainAll(b) && Fields(a, lib) == Fields(b, lib)
    ensures a == b
    decreases |a| + |b|
  {
    hide Sound, PlainPair, Encode;
    if a != [] && b != [] {
      FieldsHead(a, lib);
      FieldsHead(b, lib);
      FieldHead(a[0], b[0], Fields(a[1..], lib), Fields(b[1..], lib), lib);
      FieldsInjective(a[1..], b[1..], lib);
      assert a == [a[0]] + a[1..] && b == [b[0]] + b[1..];
    } else if a != [] {
      FieldsHead(a, lib);
    } else if b != [] {
      FieldsHead(b, lib);
    }
  }

  /** Matches with the same key are the same match. */
  lemma KeyInjective(m: Metadata, n: Metadata, lib: Library)
    requires Sound(lib) && Plain(m) && Plain(n) && Key(m, lib) == Key(n, lib)
    ensures m == n
  {
    var a, b := lib.sort(m), lib.sort(n);
    assert Lists(a, m) && Lists(b, n);
    assert PlainAll(a) && PlainAll(b);
    FieldsInjective(a, b, lib);
  }

  // ---------------------------------------------------------------------------
  // Why both sides have to be plain
  // ---------------------------------------------------------------------------

  /** The sorted list of a match has one entry per key. */
  lemma SortedLength(m: Metadata, lib: Library)
    requires Sound(lib)
    ensures |lib.sort(m)| == |m|
  {
    var kvs := lib.sort(m);
    assert Lists(kvs, m) && Ascending(kvs);
    KeysListed(kvs);
    assert KeySet(kvs) == m.Keys;
  }

  function KeySet(kvs: seq<Pair>): set<string> {
    set i | 0 <= i < |kvs| :: kvs[i].key
  }

  lemma {:induction false} KeysListed(kvs: seq<Pair>)
    requires Ascending(kvs)
    ensures |KeySet(kvs)| == |kvs|
  {
    if kvs == [] {
      assert KeySet(kvs) == {};
    } else {
      var front, last := kvs[..|kvs| - 1], kvs[|kvs| - 1];
      KeysListed(front);
      forall i | 0 <= i < |front| ensures front[i].key != last.key {
        assert Less(kvs[i].key, last.key);
        LessIrreflexive(last.key);
      }
      assert KeySet(kvs) == KeySet(front) + {last.key};
    }
  }

  /** The match with one key that spells out all fields of kvs but the last value. */
  function Disguise(kvs: seq<Pair>, lib: Library): Metadata
    requires kvs != []
  {
    var n := |kvs| - 1;
    map[Fields(kvs[..n], lib) + kvs[n].key := kvs[n].value]
  }

  lemma SortOne(k: string, v: Value, lib: Library)
    requires Sound(lib)
    ensures lib.sort(map[k := v]) == [Pair(k, v)]
  {
    var m := map[k := v];
    SortedLength(m, lib);
    assert Lists(lib.sort(m), m);
    assert m.Keys == {k};
    assert lib.sort(m) == [lib.sort(m)[0]];
  }

  lemma FieldsOne(p: Pair, lib: Library)
    ensures Fields([p], lib) == Field(p, lib)
  {
    assert [p][..0] == [];
  }

  lemma FieldPrefix(a: string, p: Pair, lib: Library)
    ensures Field(Pair(a + p.key, p.value), lib) == a + Field(p, lib)
  {
    hide Encode;
    var e := Encode(p.value, lib);
    assert a + p.key + "=" + e + ";" == a + (p.key + "=" + e + ";");
  }

  lemma DisguiseKey(kvs: seq<Pair>, lib: Library)
    requires Sound(lib) && kvs != []
    ensures Key(Disguise(kvs, lib), lib) == Fields(kvs, lib)
  {
    hide Sound, Field;
    var n := |kvs| - 1;
    var a, p := Fields(kvs[..n], lib), kvs[n];
    SortOne(a + p.key, p.value, lib);
    FieldsOne(Pair(a + p.key, p.value), lib);
    FieldPrefix(a, p, lib);
  }

  /** No match with two or more keys, however plain, owns its key string: it shares it with another
      match, whose single key contains the delimiters. So a key names a match only among plain ones. */
  lemma DelimitersCollide(m: Metadata, lib: Library)
    requires Sound(lib) && |m| >= 2
    ensures var n := Disguise(lib.sort(m), lib); n != m && |n| == 1 && Key(n, lib) == Key(m, lib)
  {
    SortedLength(m, lib);
    DisguiseKey(lib.sort(m), lib);
    var n := Disguise(lib.sort(m), lib);
    assert n.Keys == {Fields(lib.sort(m)[..|lib.sort(m)| - 1], lib) + lib.sort(m)[|lib.sort(m)| - 1].key};
  }

  // ---------------------------------------------------------------------------
  // The index
  // ---------------------------------------------------------------------------

  type Index = map<string, seq<nat>>

  predicate HasAll(md: Metadata, keys: seq<string>) { forall i :: 0 <= i < |keys| ==> keys[i] in md }

  /** The metadata restricted to the selector's keys. */
  function Restrict(md: Metadata, keys: seq<string>): Metadata {
    map k | k in md && k in keys :: md[k]
  }

  /** scalarsForKeys. */
  method ScalarsForKeys(md: Metadata, keys: seq<string>) returns (out: Option<Metadata>)
    ensures out == if HasAll(md, keys) then Some(Restrict(md, keys)) else None
  {
    var vals: Metadata := map[];
    for i := 0 to |keys|
      invariant HasAll(md, keys[..i]) && vals == Restrict(md, keys[..i])
    {
      if keys[i] !in md {
        return None;
      }
      assert keys[..i + 1] == keys[..i] + [keys[i]];
      vals := vals[keys[i] := md[keys[i]]];
    }
    assert keys[..|keys|] == keys;
    return Some(vals);
  }

  /** The endpoint carries every key of the match with the same value. */
  predicate Matches(md: Metadata, m: Metadata) { forall k :: k in m ==> k in md && md[k] == m[k] }

  /** endpointMatches over a match listed as pairs. */
  method EndpointMatches(md: Metadata, kvs: seq<Pair>, ghost m: Metadata) returns (ok: bool)
    requires Lists(kvs, m)
    ensures ok <==> Matches(md, m)
  {
    for i := 0 to |kvs|
      invariant forall j :: 0 <= j < i ==> kvs[j].key in md && md[kvs[j].key] == kvs[j].value
    {
      if kvs[i].key !in md || md[kvs[i].key] != kvs[i].value {
        return false;
      }
    }
    return true;
  }

  /** The linear scan: the first n endpoints that match, in order. */
  function Scan(mds: seq<Metadata>, m: Metadata, n: nat): (r: seq<nat>)
    requires n <= |mds|
  {
    if n == 0 then [] else Scan(mds, m, n - 1) + if Matches(mds[n - 1], m) then [n - 1] else []
  }

  /** The scan lists exactly the endpoints that carry the whole match, in order. */
  lemma {:induction false} ScanExact(mds: seq<Metadata>, m: Metadata, n: nat)
    requires n <= |mds|
    ensures var r := Scan(mds, m, n);
            && (forall e: nat :: e in r <==> e < n && forall k :: k in m ==> k in mds[e] && mds[e][k] == m[k])
            && forall i, j :: 0 <= i < j < |r| ==> r[i] < r[j]
  {
    if n == 0 {
    } else {
      var front := Scan(mds, m, n - 1);
      ScanExact(mds, m, n - 1);
      forall i | 0 <= i < |front| ensures front[i] < n - 1 {
        assert front[i] in front;
      }
      assert Matches(mds[n - 1], m) <==> forall k :: k in m ==> k in mds[n - 1] && mds[n - 1][k] == m[k];
    }
  }

  /** For a full tuple of the selector, being in its group and matching it are the same. */
  lemma GroupIsMatch(md: Metadata, keys: seq<string>, m: Metadata, full: Metadata, lib: Library)
    requires Sound(lib) && Plain(md) && Plain(full) && HasAll(full, keys) && m == Restrict(full, keys)
    ensures HasAll(md, keys) && Key(Restrict(md, keys), lib) == Key(m, lib) <==> Matches(md, m)
  {
    var r := Restrict(md, keys);
    assert Plain(r) && Plain(m);
    if HasAll(md, keys) && Key(r, lib) == Key(m, lib) {
      KeyInjective(r, m, lib);
    }
    if Matches(md, m) {
      forall i | 0 <= i < |keys| ensures keys[i] in md {
        assert keys[i] in m;
      }
      assert r == m;
    }
  }

  ghost predicate InGroup(md: Metadata, keys: seq<string>, k: string, lib: Library) {
    HasAll(md, keys) && Key(Restrict(md, keys), lib) == k
  }

  /** The endpoints among the first n that a selector puts under k, in order. */
  ghost function Group(mds: seq<Metadata>, keys: seq<string>, k: string, n: nat, lib: Library): seq<nat>
    requires n <= |mds|
  {
    if n == 0 then []
    else Group(mds, keys, k, n - 1, lib) + if InGroup(mds[n - 1], keys, k, lib) then [n - 1] else []
  }

  function Get(groups: Index, k: string): seq<nat> { if k in groups then groups[k] else [] }

  ghost predicate GroupsAre(groups: Index, mds: seq<Metadata>, keys: seq<string>, n: nat, lib: Library)
    requires n <= |mds|
  {
    forall k :: Get(groups, k) == Group(mds, keys, k, n, lib) && (k in groups ==> groups[k] != [])
  }

  lemma GroupsAdd(groups: Index, mds: seq<Metadata>, keys: seq<string>, e: nat, lib: Library)
    requires e < |mds| && GroupsAre(groups, mds, keys, e, lib) && HasAll(mds[e], keys)
    ensures var k := Key(Restrict(mds[e], keys), lib);
            GroupsAre(groups[k := Get(groups, k) + [e]], mds, keys, e + 1, lib)
  {
    hide HasAll, Restrict, Key;
  }

  lemma GroupsEmpty(mds: seq<Metadata>, keys: seq<string>, lib: Library)
    ensures GroupsAre(map[], mds, keys, 0, lib)
  {
  }

  lemma GroupsSkip(groups: Index, mds: seq<Metadata>, keys: seq<string>, e: nat, lib: Library)
    requires e < |mds| && GroupsAre(groups, mds, keys, e, lib) && !HasAll(mds[e], keys)
    ensures GroupsAre(groups, mds, keys, e + 1, lib)
  {
    hide HasAll, Restrict, Key;
  }

  /** The group loop of newSubsetLB for one selector. */
  method GroupSelector(mds: seq<Metadata>, keys: seq<string>, lib: Library) returns (groups: Index)
    ensures GroupsAre(groups, mds, keys, |mds|, lib)
  {
    hide Restrict, HasAll, Fields, GroupsAre;
    groups := map[];
    GroupsEmpty(mds, keys, lib);
    for e := 0 to |mds|
      invariant GroupsAre(groups, mds, keys, e, lib)
    {
      var vals := ScalarsForKeys(mds[e], keys);
      if vals.Some? {
        var k := WriteKey(lib.sort(vals.value), lib);
        GroupsAdd(groups, mds, keys, e, lib);
        groups := groups[k := Get(groups, k) + [e]];
      } else {
        GroupsSkip(groups, mds, keys, e, lib);
      }
    }
  }

  lemma {:induction false} GroupWitness(mds: seq<Metadata>, keys: seq<string>, k: string, n: nat, lib: Library) returns (e: nat)
    requires n <= |mds| && Group(mds, keys, k, n, lib) != []
    ensures e < n && InGroup(mds[e], keys, k, lib)
  {
    hide InGroup;
    if InGroup(mds[n - 1], keys, k, lib) {
      e := n - 1;
    } else {
      e := GroupWitness(mds, keys, k, n - 1, lib);
    }
  }

  lemma {:induction false} GroupHolds(mds: seq<Metadata>, keys: seq<string>, k: string, n: nat, lib: Library, e: nat)
    requires e < n <= |mds| && InGroup(mds[e], keys, k, lib)
    ensures Group(mds, keys, k, n, lib) != []
  {
    hide InGroup;
    if e < n - 1 {
      GroupHolds(mds, keys, k, n - 1, lib, e);
    }
  }

  ghost predicate AllPlain(mds: seq<Metadata>) { forall e :: 0 <= e < |mds| ==> Plain(mds[e]) }

  /** A selector's group for one of its tuples is the scan for that tuple. */
  lemma {:induction false} GroupIsScan(mds: seq<Metadata>, keys: seq<string>, n: nat, lib: Library, full: Metadata)
    requires Sound(lib) && AllPlain(mds) && n <= |mds| && Plain(full) && HasAll(full, keys)
    ensures var m := Restrict(full, keys); Group(mds, keys, Key(m, lib), n, lib) == Scan(mds, m, n)
  {
    if n == 0 {
    } else {
      hide Sound, Plain, HasAll, Restrict, Key, Matches;
      GroupIsScan(mds, keys, n - 1, lib, full);
      GroupIsMatch(mds[n - 1], keys, Restrict(full, keys), full, lib);
    }
  }

  /** The index over the first j selectors names exactly their tuples, each with its scan. */
  ghost predicate Indexes(index: Index, mds: seq<Metadata>, selectors: seq<seq<string>>, j: nat, lib: Library)
    requires j <= |selectors|
  {
    && (forall i, e :: 0 <= i < j && 0 <= e < |mds| && HasAll(mds[e], selectors[i]) ==> Key(Restrict(mds[e], selectors[i]), lib) in index)
    && (forall k :: k in index ==> Named(index[k], mds, selectors, j, k, lib))
  }

  ghost predicate Named(members: seq<nat>, mds: seq<Metadata>, selectors: seq<seq<string>>, j: nat, k: string, lib: Library)
    requires j <= |selectors|
  {
    exists i, e :: 0 <= i < j && 0 <= e < |mds| && HasAll(mds[e], selectors[i]) && k == Key(Restrict(mds[e], selectors[i]), lib)
      && members == Scan(mds, Restrict(mds[e], selectors[i]), |mds|)
  }

  /** What an index built over the first j selectors holds under k: the group of the first selector
      that has one there. */
  ghost function FirstGroup(mds: seq<Metadata>, selectors: seq<seq<string>>, j: nat, k: string, lib: Library): seq<nat>
    requires j <= |selectors|
  {
    if j == 0 then []
    else
      var earlier := FirstGroup(mds, selectors, j - 1, k, lib);
      if earlier != [] then earlier else Group(mds, selectors[j - 1], k, |mds|, lib)
  }

  ghost predicate Files(index: Index, mds: seq<Metadata>, selectors: seq<seq<string>>, j: nat, lib: Library)
    requires j <= |selectors|
  {
    forall k :: Get(index, k) == FirstGroup(mds, selectors, j, k, lib) && (k in index ==> index[k] != [])
  }

  lemma FilesNone(mds: seq<Metadata>, selectors: seq<seq<string>>, lib: Library)
    ensures Files(map[], mds, selectors, 0, lib)
  {
  }

  lemma FilesMore(index: Index, groups: Index, mds: seq<Metadata>, selectors: seq<seq<string>>, j: nat, lib: Library)
    requires j < |selectors| && Files(index, mds, selectors, j, lib) && GroupsAre(groups, mds, selectors[j], |mds|, lib)
    ensures Files(groups + index, mds, selectors, j + 1, lib)
  {
    hide Group;
  }

  /** The enumeration of newSubsetLB; a tuple seen through an earlier selector keeps its first child.
      Over plain metadata the result names exactly the tuples, each with its scan. */
  method BuildIndex(mds: seq<Metadata>, selectors: seq<seq<string>>, lib: Library) returns (index: Index)
    requires Sound(lib)
    ensures Files(index, mds, selectors, |selectors|, lib)
    ensures AllPlain(mds) ==> Indexes(index, mds, selectors, |selectors|, lib)
  {
    hide Sound, AllPlain, Files, GroupsAre, Indexes;
    index := map[];
    FilesNone(mds, selectors, lib);
    for j := 0 to |selectors|
      invariant Files(index, mds, selectors, j, lib)
    {
      var groups := GroupSelector(mds, selectors[j], lib);
      FilesMore(index, groups, mds, selectors, j, lib);
      index := groups + index;
    }
    if AllPlain(mds) {
      PlainFilesIndex(index, mds, selectors, lib);
    }
  }

  lemma {:induction false} FirstGroupIs(mds: seq<Metadata>, selectors: seq<seq<string>>, j: nat, k: string, lib: Library) returns (i: nat)
    requires j <= |selectors| && FirstGroup(mds, selectors, j, k, lib) != []
    ensures i < j && FirstGroup(mds, selectors, j, k, lib) == Group(mds, selectors[i], k, |mds|, lib)
  {
    if FirstGroup(mds, selectors, j - 1, k, lib) == [] {
      i := j - 1;
    } else {
      i := FirstGroupIs(mds, selectors, j - 1, k, lib);
    }
  }

  lemma {:induction false} FirstGroupFinds(mds: seq<Metadata>, selectors: seq<seq<string>>, j: nat, k: string, lib: Library, i: nat)
    requires i < j <= |selectors| && Group(mds, selectors[i], k, |mds|, lib) != []
    ensures FirstGroup(mds, selectors, j, k, lib) != []
  {
    if i == j - 1 {
    } else {
      FirstGroupFinds(mds, selectors, j - 1, k, lib, i);
    }
  }

  lemma EntryNamed(index: Index, mds: seq<Metadata>, selectors: seq<seq<string>>, k: string, lib: Library)
    requires Sound(lib) && AllPlain(mds) && Files(index, mds, selectors, |selectors|, lib) && k in index
    ensures Named(index[k], mds, selectors, |selectors|, k, lib)
  {
    hide Sound, Plain, HasAll, Restrict, Key, Scan, Group, FirstGroup;
    assert Get(index, k) == index[k];
    var i := FirstGroupIs(mds, selectors, |selectors|, k, lib);
    var e := GroupWitness(mds, selectors[i], k, |mds|, lib);
    GroupIsScan(mds, selectors[i], |mds|, lib, mds[e]);
  }

  lemma TupleFiled(index: Index, mds: seq<Metadata>, selectors: seq<seq<string>>, i: nat, e: nat, lib: Library)
    requires Files(index, mds, selectors, |selectors|, lib) && i < |selectors| && e < |mds| && HasAll(mds[e], selectors[i])
    ensures Key(Restrict(mds[e], selectors[i]), lib) in index
  {
    hide HasAll, Restrict, Key, Group, FirstGroup;
    var k := Key(Restrict(mds[e], selectors[i]), lib);
    GroupHolds(mds, selectors[i], k, |mds|, lib, e);
    FirstGroupFinds(mds, selectors, |selectors|, k, lib, i);
    assert Get(index, k) != [];
  }

  lemma PlainFilesIndex(index: Index, mds: seq<Metadata>, selectors: seq<seq<string>>, lib: Library)
    requires Sound(lib) && AllPlain(mds) && Files(index, mds, selectors, |selectors|, lib)
    ensures Indexes(index, mds, selectors, |selectors|, lib)
  {
    hide Sound, AllPlain, HasAll, Restrict, Key, Files, Named;
    forall k | k in index ensures Named(index[k], mds, selectors, |selectors|, k, lib) {
      EntryNamed(index, mds, selectors, k, lib);
    }
    forall i, e | 0 <= i < |selectors| && 0 <= e < |mds| && HasAll(mds[e], selectors[i])
      ensures Key(Restrict(mds[e], selectors[i]), lib) in index
    {
      TupleFiled(index, mds, selectors, i, e, lib);
    }
  }

  /** The lookup theorem. For every non-empty match over plain strings the index has an entry exactly
      when the match's keys form a configured selector and some endpoint matches, and the entry then
      lists exactly the endpoints that a linear scan finds. */
  lemma LookupIsScan(index: Index, mds: seq<Metadata>, selectors: seq<seq<string>>, m: Metadata, lib: Library)
    requires Sound(lib) && AllPlain(mds) && Plain(m) && Indexes(index, mds, selectors, |selectors|, lib)
    ensures Key(m, lib) in index <==> Selected(selectors, m) && Scan(mds, m, |mds|) != []
    ensures Key(m, lib) in index ==> index[Key(m, lib)] == Scan(mds, m, |mds|)
  {
    hide Sound, Key;
    if Key(m, lib) in index {
      assert Named(index[Key(m, lib)], mds, selectors, |selectors|, Key(m, lib), lib);
      var i, e :| 0 <= i < |selectors| && 0 <= e < |mds| && HasAll(mds[e], selectors[i])
        && Key(m, lib) == Key(Restrict(mds[e], selectors[i]), lib)
        && index[Key(m, lib)] == Scan(mds, Restrict(mds[e], selectors[i]), |mds|);
      RestrictPlain(mds[e], selectors[i]);
      KeyInjective(m, Restrict(mds[e], selectors[i]), lib);
      KeysOfRestrict(mds[e], selectors[i]);
      ScanFinds(mds, m, |mds|, e);
    }
    if Selected(selectors, m) && Scan(mds, m, |mds|) != [] {
      var i :| 0 <= i < |selectors| && SameKeys(selectors[i], m);
      var e := ScanWitness(mds, m, |mds|);
      MatchRestricts(mds[e], selectors[i], m);
    }
  }

  /** The selector's keys are exactly the match's keys. */
  ghost predicate SameKeys(keys: seq<string>, m: Metadata) {
    forall k :: k in m <==> k in keys
  }

  ghost predicate Selected(selectors: seq<seq<string>>, m: Metadata) {
    exists i :: 0 <= i < |selectors| && SameKeys(selectors[i], m)
  }

  lemma RestrictPlain(md: Metadata, keys: seq<string>)
    requires Plain(md)
    ensures Plain(Restrict(md, keys))
  {
  }

  lemma KeysOfRestrict(md: Metadata, keys: seq<string>)
    requires HasAll(md, keys)
    ensures SameKeys(keys, Restrict(md, keys)) && Matches(md, Restrict(md, keys))
  {
  }

  lemma MatchRestricts(md: Metadata, keys: seq<string>, m: Metadata)
    requires Matches(md, m) && SameKeys(keys, m)
    ensures HasAll(md, keys) && Restrict(md, keys) == m
  {
  }

  lemma {:induction false} ScanFinds(mds: seq<Metadata>, m: Metadata, n: nat, e: nat)
    requires e < n <= |mds| && Matches(mds[e], m)
    ensures Scan(mds, m, n) != []
  {
    if e < n - 1 {
      ScanFinds(mds, m, n - 1, e);
    }
  }

  lemma {:induction false} ScanWitness(mds: seq<Metadata>, m: Metadata, n: nat) returns (e: nat)
    requires n <= |mds| && Scan(mds, m, n) != []
    ensures e < n && Matches(mds[e], m)
  {
    if Matches(mds[n - 1], m) {
      e := n - 1;
    } else {
      e := ScanWitness(mds, m, n - 1);
    }
  }

  /** And a lookup can be misled: in every index built over the one endpoint whose metadata is the
      disguise of m and a selector for its one key, looking m up finds that endpoint, although it does
      not match m and the keys of m are no selector. */
  lemma LookupMisled(m: Metadata, lib: Library)
    requires Sound(lib) && |m| >= 2
    ensures var n := Disguise(lib.sort(m), lib);
            exists k :: k in n && !Selected([[k]], m) && Scan([n], m, 1) == []
                        && forall index :: Files(index, [n], [[k]], 1, lib) ==> Key(m, lib) in index && index[Key(m, lib)] == [0]
  {
    hide Sound, Key, Disguise, Files, Group;
    SortedLength(m, lib);
    DelimitersCollide(m, lib);
    var n := Disguise(lib.sort(m), lib);
    var k :| k in n;
    FiledAlone(n, k, lib);
    TooFewKeys(n, m);
    assert Scan([n], m, 0) == [];
    OneKeySelects(k, m);
    forall index | Files(index, [n], [[k]], 1, lib) ensures Key(m, lib) in index && index[Key(m, lib)] == [0] {
      OneSelector(index, [n], [k], Key(m, lib), lib);
    }
  }

  lemma OneSelector(index: Index, mds: seq<Metadata>, keys: seq<string>, k: string, lib: Library)
    requires Files(index, mds, [keys], 1, lib) && Group(mds, keys, k, |mds|, lib) != []
    ensures k in index && index[k] == Group(mds, keys, k, |mds|, lib)
  {
    hide Group;
    assert FirstGroup(mds, [keys], 0, k, lib) == [];
    assert Get(index, k) == FirstGroup(mds, [keys], 1, k, lib);
  }

  lemma OneKeySelects(k: string, m: Metadata)
    requires |m| >= 2
    ensures !Selected([[k]], m)
  {
    if SameKeys([k], m) {
      OneKeyOnly(k, m);
      assert false;
    }
  }

  lemma OneKeyOnly(k: string, m: Metadata)
    requires SameKeys([k], m)
    ensures |m| == 1
  {
    assert m.Keys == {k};
  }

  lemma FiledAlone(n: Metadata, k: string, lib: Library)
    requires |n| == 1 && k in n
    ensures Group([n], [k], Key(n, lib), 1, lib) == [0]
  {
    hide Key;
    Single(n.Keys, k);
    assert Restrict(n, [k]) == n;
    assert Group([n], [k], Key(n, lib), 0, lib) == [];
  }

  lemma Single(a: set<string>, k: string)
    requires |a| == 1 && k in a
    ensures a == {k}
  {
    Contained({k}, a);
    assert |a - {k}| == 0;
  }

  lemma TooFewKeys(n: Metadata, m: Metadata)
    requires |n| < |m|
    ensures !Matches(n, m)
  {
    if Matches(n, m) {
      Contained(m.Keys, n.Keys);
      assert false;
    }
  }

  lemma Contained(a: set<string>, b: set<string>)
    requires a <= b
    ensures |a| <= |b|
  {
    assert b == a + (b - a);
  }

  /** The distinct metadata tuples of all selectors. */
  ghost function Tuples(mds: seq<Metadata>, selectors: seq<seq<string>>): set<Metadata> {
    set i, e | 0 <= i < |selectors| && 0 <= e < |mds| && HasAll(mds[e], selectors[i]) :: Restrict(mds[e], selectors[i])
  }

  ghost function Keys(ms: set<Metadata>, lib: Library): set<string> {
    set m | m in ms :: Key(m, lib)
  }

  lemma {:induction false} KeysCount(ms: set<Metadata>, lib: Library)
    requires Sound(lib) && forall m :: m in ms ==> Plain(m)
    ensures |Keys(ms, lib)| == |ms|
  {
    hide Sound, Plain, Key;
    if ms != {} {
      var m :| m in ms;
      var rest := ms - {m};
      KeysCount(rest, lib);
      if Key(m, lib) in Keys(rest, lib) {
        var n :| n in rest && Key(n, lib) == Key(m, lib);
        KeyInjective(m, n, lib);
        assert false;
      }
      assert Keys(ms, lib) == Keys(rest, lib) + {Key(m, lib)};
    } else {
      assert Keys(ms, lib) == {};
    }
  }

  lemma TuplesPlain(mds: seq<Metadata>, selectors: seq<seq<string>>, m: Metadata)
    requires AllPlain(mds) && m in Tuples(mds, selectors)
    ensures Plain(m)
  {
    hide HasAll, Restrict, Plain;
    var i, e :| 0 <= i < |selectors| && 0 <= e < |mds| && HasAll(mds[e], selectors[i]) && m == Restrict(mds[e], selectors[i]);
    RestrictPlain(mds[e], selectors[i]);
  }

  lemma EntryIsTuple(index: Index, mds: seq<Metadata>, selectors: seq<seq<string>>, lib: Library, k: string)
    requires Indexes(index, mds, selectors, |selectors|, lib) && k in index
    ensures k in Keys(Tuples(mds, selectors), lib)
  {
    hide HasAll, Restrict, Key, Scan;
    assert Named(index[k], mds, selectors, |selectors|, k, lib);
  }

  lemma TupleIsEntry(index: Index, mds: seq<Metadata>, selectors: seq<seq<string>>, lib: Library, k: string)
    requires Indexes(index, mds, selectors, |selectors|, lib) && k in Keys(Tuples(mds, selectors), lib)
    ensures k in index
  {
    hide HasAll, Restrict, Key, Named;
  }

  /** numSubsets is the number of distinct tuples. */
  lemma SubsetCount(index: Index, mds: seq<Metadata>, selectors: seq<seq<string>>, lib: Library)
    requires Sound(lib) && AllPlain(mds) && Indexes(index, mds, selectors, |selectors|, lib)
    ensures |index| == |Tuples(mds, selectors)|
  {
    hide Sound, AllPlain, Plain, Indexes, Tuples, Keys;
    var ms := Tuples(mds, selectors);
    forall m | m in ms ensures Plain(m) {
      TuplesPlain(mds, selectors, m);
    }
    KeysCount(ms, lib);
    forall k | k in index ensures k in Keys(ms, lib) {
      EntryIsTuple(index, mds, selectors, lib, k);
    }
    forall k | k in Keys(ms, lib) ensures k in index {
      TupleIsEntry(index, mds, selectors, lib, k);
    }
    assert index.Keys == Keys(ms, lib);
  }

  // ---------------------------------------------------------------------------
  // The balancer
  // ---------------------------------------------------------------------------

  datatype Fallback = NoFallback | AnyEndpoint | DefaultSubset(match_: Metadata)

  /** The endpoints behind the fallback child, if there is one. */
  function FallbackMembers(mds: seq<Metadata>, f: Fallback): (r: Option<seq<nat>>) {
    match f
    case NoFallback => None
    case AnyEndpoint => Some(seq(|mds|, i => i))
    case DefaultSubset(m) => var hit := Scan(mds, m, |mds|); if hit == [] then None else Some(hit)
  }

  /** The fallback: none, every endpoint, or those that carry the default subset if there are any. */
  lemma FallbackMeans(mds: seq<Metadata>, f: Fallback)
    ensures var r := FallbackMembers(mds, f);
            match f
            case NoFallback => r == None
            case AnyEndpoint => r.Some? && |r.value| == |mds| && forall e :: 0 <= e < |mds| ==> r.value[e] == e
            case DefaultSubset(m) =>
              && (r.None? <==> forall e :: 0 <= e < |mds| ==> !Matches(mds[e], m))
              && (r.Some? ==> forall e: nat :: e in r.value <==> e < |mds| && Matches(mds[e], m))
  {
    match f
    case NoFallback =>
    case AnyEndpoint =>
    case DefaultSubset(m) =>
      var r := Scan(mds, m, |mds|);
      ScanExact(mds, m, |mds|);
      if r != [] {
        assert r[0] in r;
      }
      assert forall e: nat :: e in r <==> e < |mds| && Matches(mds[e], m);
  }

  /** subsetLB; a child is named by the endpoints it was built over. */
  class SubsetLB {
    const index: Index
    const fallback: Option<seq<nat>>
    var selected: nat
    var fallbacks: nat

    constructor (index: Index, fallback: Option<seq<nat>>)
      ensures this.index == index && this.fallback == fallback && selected == 0 && fallbacks == 0
    {
      this.index, this.fallback := index, fallback;
      selected, fallbacks := 0, 0;
    }

    /** Pick: the child whose pick is returned. With a match that has a subset it is the balancer
        over exactly the scanned endpoints, and only selected rises; otherwise the fallback. */
    method Pick(m: Metadata, hasMatch: bool, lib: Library, ghost mds: seq<Metadata>, ghost selectors: seq<seq<string>>)
        returns (child: Option<seq<nat>>)
      requires Sound(lib) && AllPlain(mds) && Plain(m) && Indexes(index, mds, selectors, |selectors|, lib)
      modifies this`selected, this`fallbacks
      ensures var hit := hasMatch && m != map[] && Selected(selectors, m) && Scan(mds, m, |mds|) != [];
              && child == (if hit then Some(Scan(mds, m, |mds|)) else fallback)
              && selected == old(selected) + (if hit then 1 else 0)
              && fallbacks == old(fallbacks) + (if !hit && fallback.Some? then 1 else 0)
    {
      hide Sound, Plain, Indexes, Scan, Selected, Key;
      LookupIsScan(index, mds, selectors, m, lib);
      if hasMatch && m != map[] {
        var key := Key(m, lib);
        if key in index {
          selected := selected + 1;
          return Some(index[key]);
        }
      }
      if fallback.None? {
        return None;
      }
      fallbacks := fallbacks + 1;
      return fallback;
    }
  }

  /** The fallback switch of newSubsetLB. */
  method BuildFallback(mds: seq<Metadata>, f: Fallback, lib: Library) returns (members: Option<seq<nat>>)
    requires Sound(lib)
    ensures members == FallbackMembers(mds, f)
  {
    match f
    case NoFallback => return None;
    case AnyEndpoint => return Some(seq(|mds|, i => i));
    case DefaultSubset(m) =>
      assert Lists(lib.sort(m), m);
      var hit: seq<nat> := [];
      for e := 0 to |mds|
        invariant hit == Scan(mds, m, e)
      {
        var ok := EndpointMatches(mds[e], lib.sort(m), m);
        if ok {
          hit := hit + [e];
        }
      }
      return if |hit| > 0 then Some(hit) else None;
  }
}
