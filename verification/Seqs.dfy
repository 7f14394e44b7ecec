module Options {
  datatype Option<+T> = None | Some(value: T)
}

/** Facts about duplicate-free sequences, used for the FIFO queues and the pool slices. */
module Seqs {

  predicate NoDup<T(==)>(s: seq<T>) {
    forall i, j :: 0 <= i < j < |s| ==> s[i] != s[j]
  }

  /** s without its first occurrence of x: `append(q[:i], q[i+1:]...)` after a scan for x. */
  function Without<T(==)>(s: seq<T>, x: T): (r: seq<T>) {
    if s == [] then []
    else if s[0] == x then s[1..]
    else [s[0]] + Without(s[1..], x)
  }

  lemma {:induction false} WithoutMembers<T>(s: seq<T>, x: T)
    requires NoDup(s)
    ensures NoDup(Without(s, x))
    ensures forall y :: y in Without(s, x) <==> y in s && y != x
    ensures |Without(s, x)| == if x in s then |s| - 1 else |s|
  {
    if s == [] {
    } else {
      WithoutMembers(s[1..], x);
      assert s == [s[0]] + s[1..];
      var rest := Without(s[1..], x);
      if s[0] != x {
        forall i, j | 0 <= i < j < |[s[0]] + rest| ensures ([s[0]] + rest)[i] != ([s[0]] + rest)[j] {
          assert rest[j - 1] in rest;
        }
      }
    }
  }

  lemma {:induction false} WithoutAbsent<T>(s: seq<T>, x: T)
    requires x !in s
    ensures Without(s, x) == s
  {
    if s == [] {
    } else {
      WithoutAbsent(s[1..], x);
    }
  }

  lemma {:induction false} WithoutAt<T>(s: seq<T>, i: nat)
    requires i < |s|
    requires s[i] !in s[..i]
    ensures Without(s, s[i]) == s[..i] + s[i + 1..]
  {
    if i == 0 {
    } else {
      assert s[0] != s[i] by { assert s[..i][0] == s[0]; }
      var t := s[1..];
      assert t[i - 1] == s[i] && t[..i - 1] == s[..i][1..];
      WithoutAt(t, i - 1);
      calc {
        Without(s, s[i]);
        [s[0]] + (t[..i - 1] + t[i..]);
        { assert t[i..] == s[i + 1..]; assert [s[0]] + t[..i - 1] == s[..i]; }
        s[..i] + s[i + 1..];
      }
    }
  }

  /** A removal that skips a prefix without x happens in the suffix. */
  lemma {:induction false} WithoutSuffix<T>(a: seq<T>, b: seq<T>, x: T)
    requires x !in a
    ensures Without(a + b, x) == a + Without(b, x)
  {
    if a == [] {
      assert a + b == b;
    } else {
      assert (a + b)[1..] == a[1..] + b;
      WithoutSuffix(a[1..], b, x);
    }
  }

  lemma NoDupSplit<T>(a: seq<T>, b: seq<T>, x: T)
    requires NoDup(a + b) && x in b
    ensures x !in a
  {
    var j :| 0 <= j < |b| && b[j] == x;
    assert (a + b)[|a| + j] == x;
    forall i | 0 <= i < |a| ensures a[i] != x {
      assert (a + b)[i] == a[i];
    }
  }

  lemma NoDupAppend<T>(s: seq<T>, x: T)
    requires NoDup(s) && x !in s
    ensures NoDup(s + [x])
  {
  }

  /** The elements of s outside drop, in order. */
  function Keep<T(==)>(s: seq<T>, drop: set<T>): (r: seq<T>) {
    if s == [] then []
    else if s[0] in drop then Keep(s[1..], drop)
    else [s[0]] + Keep(s[1..], drop)
  }

  lemma {:induction false} KeepAppend<T>(s: seq<T>, x: T, drop: set<T>)
    ensures Keep(s + [x], drop) == Keep(s, drop) + (if x in drop then [] else [x])
  {
    if s == [] {
    } else {
      assert (s + [x])[1..] == s[1..] + [x];
      KeepAppend(s[1..], x, drop);
    }
  }

  lemma {:induction false} KeepMembers<T>(s: seq<T>, drop: set<T>)
    ensures forall y :: y in Keep(s, drop) <==> y in s && y !in drop
    ensures NoDup(s) ==> NoDup(Keep(s, drop))
  {
    if s == [] {
    } else {
      KeepMembers(s[1..], drop);
      assert s == [s[0]] + s[1..];
    }
  }

  /** Dropping one more element of a duplicate-free sequence removes exactly that element. */
  lemma {:induction false} KeepDrop<T>(s: seq<T>, drop: set<T>, x: T)
    requires NoDup(s) && x !in drop
    ensures Keep(s, drop + {x}) == Without(Keep(s, drop), x)
  {
    if s == [] {
    } else {
      KeepDrop(s[1..], drop, x);
      if s[0] == x {
        KeepMembers(s[1..], drop);
        WithoutAbsent(Keep(s[1..], drop), x);
        assert x !in s[1..];
      }
    }
  }
}
