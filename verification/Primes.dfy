/** Trial division over 64-bit words (internal/cluster/maglev.go) and the modular inverse that a
    prime modulus provides. */
module Primes {
  import opened Arith

  const WORD: nat := 0x1_0000_0000_0000_0000

  /** Unsigned 64-bit arithmetic keeps the low 64 bits. */
  function Wrap(x: nat): (r: nat) {
    x % WORD
  }

  ghost predicate Divides(d: nat, n: nat) {
    d > 0 && exists q: nat :: n == d * q
  }

  ghost predicate NoFactor(n: nat, bound: nat) {
    forall d :: 2 <= d < bound ==> !Divides(d, n)
  }

  ghost predicate Prime(n: nat) {
    n >= 2 && NoFactor(n, n)
  }

  lemma DividesIffMod(d: nat, n: nat)
    requires d > 0
    ensures Divides(d, n) <==> n % d == 0
  {
    if Divides(d, n) {
      var q: nat :| n == d * q;
      assert q * d == n && (q + 1) * d == n + d;
      DivIs(n, d, q);
    } else {
      assert n == d * (n / d) + n % d;
    }
  }

  /** A composite number below b squared has a factor below b. */
  lemma SmallFactorEnough(n: nat, b: nat)
    requires n >= 2 && n < b * b && NoFactor(n, b)
    ensures Prime(n)
  {
    forall d | 2 <= d < n ensures !Divides(d, n) {
      if Divides(d, n) {
        var q: nat :| n == d * q;
        if d >= b && q >= b {
          MulMono(b, d, b);
          MulMono(b, q, d);
          assert false;
        } else if q < b {
          assert q >= 2 by {
            assert q != 0 && q != 1;
          }
          assert n == q * d;
          assert Divides(q, n);
        }
      }
    }
  }

  // The largest odd root whose square fits in a word, and a larger odd number whose square wraps
  // round to seven below the word size.
  const LAST_EXACT: nat := 0xFFFF_FFFF
  const HIGH_ROOT: nat := 1852311383259529397

  lemma HighRootSquare()
    ensures Wrap(HIGH_ROOT * HIGH_ROOT) == WORD - 7
  {
  }

  /** The four odd words above the square of HIGH_ROOT are composite. */
  lemma TopOddsComposite(n: nat)
    requires WORD - 7 <= n < WORD && n % 2 == 1
    ensures Divides(3, n) || Divides(11, n) || Divides(13, n)
  {
    DividesIffMod(3, n);
    DividesIffMod(11, n);
    DividesIffMod(13, n);
  }

  /** The trial loop cannot run up to n itself, although the square wraps past 2^32: it would have
      stopped at LAST_EXACT or at HIGH_ROOT, or met a small factor. */
  lemma TrialStopsBelow(n: nat, d: nat)
    requires 3 <= d <= n < WORD && n % 2 == 1 && NoFactor(n, d) && Wrap(d * d) <= n
    requires d > LAST_EXACT ==> Wrap(LAST_EXACT * LAST_EXACT) <= n
    requires d > HIGH_ROOT ==> Wrap(HIGH_ROOT * HIGH_ROOT) <= n
    ensures d < n
  {
    if d == n {
      if d <= LAST_EXACT {
        SquareExact(d);
        MulMono(3, d, d);
        assert false;
      } else {
        HighRootSquare();
        TopOddsComposite(n);
        assert false;
      }
    }
  }

  lemma SquareExact(d: nat)
    requires d <= LAST_EXACT
    ensures Wrap(d * d) == d * d
  {
    MulMono(d, LAST_EXACT, d);
    MulMono(d, LAST_EXACT, LAST_EXACT);
  }

  /** When the loop stops, everything that could be a factor has been tried. */
  lemma TrialSuffices(n: nat, d: nat)
    requires 3 <= d <= n < WORD && NoFactor(n, d) && Wrap(d * d) > n
    ensures Prime(n)
  {
    if d <= LAST_EXACT {
      SquareExact(d);
      SmallFactorEnough(n, d);
    } else {
      SmallFactorEnough(n, LAST_EXACT + 1);
    }
  }

  lemma EvenFactor(x: nat, n: nat)
    requires x % 2 == 0 && Divides(x, n)
    ensures n % 2 == 0
  {
    var q: nat :| n == x * q;
    assert n == 2 * (x / 2 * q);
  }

  lemma NextOdd(n: nat, d: nat)
    requires n % 2 == 1 && d % 2 == 1 && d >= 3 && NoFactor(n, d) && n % d != 0
    ensures NoFactor(n, d + 2)
  {
    DividesIffMod(d, n);
    forall x | 2 <= x < d + 2 ensures !Divides(x, n) {
      if x == d + 1 && Divides(x, n) {
        EvenFactor(x, n);
        assert false;
      }
    }
  }

  lemma EvenCase(n: nat)
    requires n >= 2 && n % 2 == 0
    ensures Prime(n) <==> n == 2
  {
    DividesIffMod(2, n);
  }

  lemma OddStart(n: nat)
    requires n % 2 == 1
    ensures NoFactor(n, 3)
  {
    DividesIffMod(2, n);
  }

  lemma FactorFound(n: nat, d: nat)
    requires 2 <= d < n && n % d == 0
    ensures !Prime(n)
  {
    DividesIffMod(d, n);
  }

  /** isPrime decides primality of every 64-bit word, wrap-around of d*d included. */
  method IsPrime(n: nat) returns (r: bool)
    requires n < WORD
    ensures r <==> Prime(n)
  {
    hide NoFactor, Prime, Wrap;
    if n < 2 {
      NoneBelowTwo(n);
      return false;
    }
    if n % 2 == 0 {
      EvenCase(n);
      return n == 2;
    }
    var d := 3;
    OddStart(n);
    while Wrap(d * d) <= n
      invariant 3 <= d <= n && d % 2 == 1 && NoFactor(n, d)
      invariant d > LAST_EXACT ==> Wrap(LAST_EXACT * LAST_EXACT) <= n
      invariant d > HIGH_ROOT ==> Wrap(HIGH_ROOT * HIGH_ROOT) <= n
      decreases n - d
    {
      TrialStopsBelow(n, d);
      if n % d == 0 {
        FactorFound(n, d);
        return false;
      }
      NextOdd(n, d);
      StepFits(n, d);
      d := Wrap(d + 2);
    }
    TrialSuffices(n, d);
    return true;
  }

  lemma NoneBelowTwo(n: nat)
    requires n < 2
    ensures !Prime(n)
  {
  }

  lemma StepFits(n: nat, d: nat)
    requires d < n < WORD && d % 2 == 1 && n % 2 == 1
    ensures Wrap(d + 2) == d + 2 <= n
  {
  }

  // ---------------------------------------------------------------------------
  // Inverses modulo a prime
  // ---------------------------------------------------------------------------

  ghost predicate Combines(a: nat, b: nat, g: nat, x: int, y: int) {
    g == a * x + b * y && Divides(g, a) && Divides(g, b)
  }

  lemma CombineStep(a: nat, b: nat, g: nat, x: int, y: int)
    requires a >= b > 0 && Combines(a - b, b, g, x, y)
    ensures Combines(a, b, g, x, y - x)
  {
    var p: nat :| a - b == g * p;
    var q: nat :| b == g * q;
    assert a == g * (p + q);
    assert a * x + b * (y - x) == (a - b) * x + b * y;
  }

  lemma {:induction false} Bezout(a: nat, b: nat) returns (g: nat, x: int, y: int)
    requires a > 0 || b > 0
    ensures Combines(a, b, g, x, y)
    decreases a + b
  {
    if b == 0 {
      g, x, y := a, 1, 0;
      assert a == a * 1 && b == a * 0;
    } else if a == 0 {
      g, x, y := b, 0, 1;
      assert b == b * 1 && a == b * 0;
    } else if a >= b {
      g, x, y := Bezout(a - b, b);
      CombineStep(a, b, g, x, y);
      y := y - x;
    } else {
      g, y, x := Bezout(b - a, a);
      CombineStep(b, a, g, y, x);
      x := x - y;
    }
  }

  lemma PrimeInverse(m: nat, k: nat) returns (i: int)
    requires Prime(m) && 1 <= k < m
    ensures (k * i) % m == 1
  {
    var g, x, y := Bezout(k, m);
    var q: nat :| k == g * q;
    assert g == 1 by {
      MulMono(1, q, g);
      assert g <= k < m;
    }
    i := x;
    ModOfSum(1, -y, m);
    assert k * i == 1 + -y * m;
  }

  lemma ModOfSum(x: int, q: int, m: nat)
    requires m > 0
    ensures (x + q * m) % m == x % m
  {
    var r := x % m;
    assert x == m * (x / m) + r;
    var p := q + x / m;
    assert x + q * m == p * m + r;
    assert (p + 1) * m == p * m + m;
    DivIs(x + q * m, m, p);
    assert x + q * m == m * ((x + q * m) / m) + (x + q * m) % m;
  }
}
