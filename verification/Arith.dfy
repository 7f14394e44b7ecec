/** Integer division and multiplication facts that the solver needs spelled out. */
module Arith {

  lemma MulMono(x: int, y: int, c: int)
    requires x <= y && c >= 0
    ensures x * c <= y * c
  {
    assert (y - x) * c >= 0;
  }

  /** q is the quotient of x by c when x lies in the q-th row of c. */
  lemma DivIs(x: int, c: int, q: int)
    requires c > 0 && q * c <= x < (q + 1) * c
    ensures x / c == q
  {
    var d := x / c;
    assert d * c <= x < (d + 1) * c by {
      assert x == c * d + x % c;
      assert (d + 1) * c == d * c + c;
    }
    if d < q {
      MulMono(d + 1, q, c);
    } else if q < d {
      MulMono(q + 1, d, c);
    }
  }

  lemma DivMod(x: int, m: int)
    requires m > 0
    ensures x == m * (x / m) + x % m && 0 <= x % m < m
  {
  }
}
