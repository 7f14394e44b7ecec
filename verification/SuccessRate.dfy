/** The success-rate outlier test (internal/cluster/outlier.go) over exact reals, and the bound on
    how many hosts one sweep can flag. */
module SuccessRate {

  function Sum(s: seq<real>): real {
    if s == [] then 0.0 else Sum(s[..|s| - 1]) + s[|s| - 1]
  }

  /** The sum of squared deviations from m. */
  function Spread(s: seq<real>, m: real): real {
    if s == [] then 0.0
    else Spread(s[..|s| - 1], m) + Square(s[|s| - 1] - m)
  }

  function Square(x: real): (y: real) {
    x * x
  }

  function Below(s: seq<real>, t: real): (n: nat)
    ensures n <= |s|
  {
    if s == [] then 0 else Below(s[..|s| - 1], t) + if s[|s| - 1] < t then 1 else 0
  }

  function Mean(s: seq<real>): real
    requires s != []
  {
    Sum(s) / (|s| as real)
  }

  /** Population variance: the divisor is N, not N - 1. */
  function Variance(s: seq<real>): real
    requires s != []
  {
    Spread(s, Mean(s)) / (|s| as real)
  }

  // ---------------------------------------------------------------------------
  // One-sided Chebyshev
  // ---------------------------------------------------------------------------

  function Term(r: real, m: real, k: real, d: real): real {
    Square(k * (r - m) - d)
  }

  /** The sum of (k (r - m) - d)^2, whose two evaluations give the bound. */
  function Shifted(s: seq<real>, m: real, k: real, d: real): real {
    if s == [] then 0.0 else Shifted(s[..|s| - 1], m, k, d) + Term(s[|s| - 1], m, k, d)
  }

  /** The sum of the deviations themselves; zero at the mean. */
  function Excess(s: seq<real>, m: real): real {
    if s == [] then 0.0 else Excess(s[..|s| - 1], m) + (s[|s| - 1] - m)
  }

  lemma {:induction false} ExcessIs(s: seq<real>, m: real)
    ensures Excess(s, m) == Sum(s) - (|s| as real) * m
  {
    if s == [] {
    } else {
      var f := s[..|s| - 1];
      ExcessIs(f, m);
      assert (|s| as real) * m == (|f| as real) * m + m;
    }
  }

  function Row(a: real, b: real, c: real, p: real, q: real, n: real): real {
    a * p - b * q + n * c
  }

  lemma AddRow(a: real, b: real, c: real, p: real, q: real, n: real, u: real, x: real)
    ensures Row(a, b, c, p, q, n) + Row(a, b, c, u, x, 1.0) == Row(a, b, c, p + u, q + x, n + 1.0)
  {
  }

  lemma TermExpands(r: real, m: real, k: real, d: real)
    ensures Term(r, m, k, d) == Row(k * k, 2.0 * k * d, d * d, Square(r - m), r - m, 1.0)
  {
    var x := r - m;
    assert (k * x) * (k * x) == k * k * (x * x);
    assert (k * x) * d == k * d * x;
  }

  lemma {:induction false} ShiftedExpands(s: seq<real>, m: real, k: real, d: real)
    ensures Shifted(s, m, k, d) == Row(k * k, 2.0 * k * d, d * d, Spread(s, m), Excess(s, m), |s| as real)
  {
    if s == [] {
    } else {
      hide Square, Row, Term;
      var f, r := s[..|s| - 1], s[|s| - 1];
      ShiftedExpands(f, m, k, d);
      TermExpands(r, m, k, d);
      AddRow(k * k, 2.0 * k * d, d * d, Spread(f, m), Excess(f, m), |f| as real, Square(r - m), r - m);
      assert (|s| as real) == (|f| as real) + 1.0;
    }
  }

  lemma MulPos(x: real, y: real)
    requires x > 0.0 && y > 0.0
    ensures x * y > 0.0
  {
  }

  lemma SquareGrows(x: real, b: real)
    requires x < -b && b >= 0.0
    ensures Square(x) > Square(b)
  {
    var p, q := -x - b, -x + b;
    MulPos(p, q);
    assert p * q == x * x - b * b;
  }

  lemma SquareNonneg(x: real)
    ensures Square(x) >= 0.0 && (x != 0.0 ==> Square(x) > 0.0)
  {
    assert Square(0.0) == 0.0;
    if x > 0.0 {
      SquareNegates(x);
      SquareGrows(-x, 0.0);
    } else if x < 0.0 {
      SquareGrows(x, 0.0);
    }
  }

  lemma SquareNegates(x: real)
    ensures Square(-x) == Square(x)
  {
  }

  /** Every value below t contributes more than b. */
  lemma {:induction false} ShiftedBound(s: seq<real>, m: real, k: real, d: real, t: real, b: real)
    requires forall r :: Term(r, m, k, d) >= 0.0 && (r < t ==> Term(r, m, k, d) > b)
    ensures Exceeds(Shifted(s, m, k, d), Below(s, t), b)
  {
    if s == [] {
    } else {
      hide Term, Exceeds;
      var f, r := s[..|s| - 1], s[|s| - 1];
      ShiftedBound(f, m, k, d, t, b);
      ExceedsNext(Shifted(f, m, k, d), Below(f, t), b, Term(r, m, k, d), r < t);
    }
  }

  predicate Exceeds(total: real, n: nat, b: real) {
    if n > 0 then total > (n as real) * b else total >= 0.0
  }

  lemma ExceedsNext(total: real, n: nat, b: real, y: real, tail: bool)
    requires Exceeds(total, n, b) && y >= 0.0 && (tail ==> y > b)
    ensures Exceeds(total + y, n + if tail then 1 else 0, b)
  {
    Distribute(n, b);
  }

  lemma Distribute(n: nat, b: real)
    ensures ((n + 1) as real) * b == (n as real) * b + b
  {
  }

  /** Each value more than k d below m contributes more than (d (1 + k^2))^2. */
  lemma TailTerm(r: real, m: real, k: real, d: real)
    requires k > 0.0 && d > 0.0
    ensures Term(r, m, k, d) >= 0.0
    ensures r < m - k * d ==> Term(r, m, k, d) > Square(d * (1.0 + k * k))
  {
    var x := r - m;
    SquareNonneg(k * x - d);
    if x < -(k * d) {
      MulPos(k, k);
      MulPos(d, 1.0 + k * k);
      MulPos(k, -(k * d) - x);
      assert k * (-(k * d) - x) == -(d * (k * k)) - k * x;
      assert d * (1.0 + k * k) == d + d * (k * k);
      SquareGrows(k * x - d, d * (1.0 + k * k));
    }
  }

  lemma {:induction false} SpreadNonneg(s: seq<real>, m: real)
    ensures Spread(s, m) >= 0.0
    ensures Spread(s, m) == 0.0 ==> forall i :: 0 <= i < |s| ==> s[i] == m
  {
    if s == [] {
    } else {
      hide Square;
      SpreadNonneg(s[..|s| - 1], m);
      SquareNonneg(s[|s| - 1] - m);
      if Spread(s, m) == 0.0 {
        forall i | 0 <= i < |s| ensures s[i] == m {
          assert i < |s| - 1 ==> s[i] == s[..|s| - 1][i];
        }
      }
    }
  }

  lemma {:induction false} BelowNone(s: seq<real>, t: real)
    requires forall i :: 0 <= i < |s| ==> s[i] >= t
    ensures Below(s, t) == 0
  {
    if s == [] {
    } else {
      BelowNone(s[..|s| - 1], t);
    }
  }

  /** If all values lie below t, so does their mean. */
  lemma {:induction false} BelowAll(s: seq<real>, t: real)
    requires Below(s, t) == |s|
    ensures if s == [] then Sum(s) == 0.0 else Sum(s) < (|s| as real) * t
  {
    if s == [] {
    } else {
      var f := s[..|s| - 1];
      BelowAll(f, t);
      assert (|s| as real) * t == (|f| as real) * t + t;
    }
  }

  lemma MeanSums(s: seq<real>)
    requires s != []
    ensures Sum(s) == (|s| as real) * Mean(s) && Spread(s, Mean(s)) == (|s| as real) * Variance(s)
  {
    hide Sum, Spread;
    DivideBack(Sum(s), |s| as real);
    DivideBack(Spread(s, Mean(s)), |s| as real);
  }

  lemma DivideBack(x: real, n: real)
    requires n > 0.0
    ensures x == n * (x / n)
  {
  }

  /** f is less than n / (1 + k^2). */
  predicate Few(f: nat, k: real, n: nat) {
    (f as real) * (1.0 + k * k) < n as real
  }

  /** Fewer than N / (1 + k^2) of N values lie more than k standard deviations below the mean. */
  lemma OneSidedChebyshev(s: seq<real>, k: real, sd: real)
    requires s != [] && k >= 0.0 && sd >= 0.0 && Square(sd) == Variance(s)
    ensures Few(Below(s, Mean(s) - k * sd), k, |s|)
  {
    hide Below, Mean, Variance, Spread, Sum, Few;
    MeanSums(s);
    if sd == 0.0 {
      SpreadNonneg(s, Mean(s));
      NoSpreadFew(s, Mean(s), k);
      assert Mean(s) - k * sd == Mean(s);
    } else if k == 0.0 {
      NotAllBelow(s, Mean(s));
      FewerThanAll(Below(s, Mean(s)), |s|);
      assert Mean(s) - k * sd == Mean(s);
    } else {
      TailCount(s, Mean(s), k, sd);
    }
  }

  /** Equal values: none lies below the mean. */
  lemma NoSpreadFew(s: seq<real>, m: real, k: real)
    requires s != [] && forall i :: 0 <= i < |s| ==> s[i] == m
    ensures Few(Below(s, m), k, |s|)
  {
    BelowNone(s, m);
    assert (0 as real) * (1.0 + k * k) == 0.0;
  }

  lemma FewerThanAll(f: nat, n: nat)
    requires f < n
    ensures Few(f, 0.0, n)
  {
    assert (f as real) * (1.0 + 0.0 * 0.0) == f as real;
  }

  lemma NotAllBelow(s: seq<real>, m: real)
    requires s != [] && Sum(s) == (|s| as real) * m
    ensures Below(s, m) < |s|
  {
    if Below(s, m) == |s| {
      BelowAll(s, m);
      assert false;
    }
  }

  lemma TailCount(s: seq<real>, m: real, k: real, d: real)
    requires s != [] && k > 0.0 && d > 0.0
    requires Sum(s) == (|s| as real) * m && Spread(s, m) == (|s| as real) * Square(d)
    ensures Few(Below(s, m - k * d), k, |s|)
  {
    hide Below, Sum, Spread, Shifted, Excess, Term;
    var n, f, w := |s| as real, Below(s, m - k * d) as real, 1.0 + k * k;
    MulPos(k, k);
    ExcessIs(s, m);
    ShiftedExpands(s, m, k, d);
    forall r ensures Term(r, m, k, d) >= 0.0 && (r < m - k * d ==> Term(r, m, k, d) > Square(d * w)) {
      TailTerm(r, m, k, d);
    }
    ShiftedBound(s, m, k, d, m - k * d, Square(d * w));
    Total(n, k, d);
    if Below(s, m - k * d) > 0 {
      Cancel(f, n, d, w);
    }
  }

  lemma Total(n: real, k: real, d: real)
    ensures k * k * (n * Square(d)) - 2.0 * k * d * 0.0 + n * (d * d) == n * (d * d) * (1.0 + k * k)
  {
    assert k * k * (n * (d * d)) == n * (d * d) * (k * k);
  }

  lemma Cancel(f: real, n: real, d: real, w: real)
    requires d > 0.0 && w > 0.0 && n * (d * d) * w > f * Square(d * w)
    ensures f * w < n
  {
    var c := d * d * w;
    MulPos(d, d);
    MulPos(d * d, w);
    assert f * Square(d * w) == f * w * c;
    assert n * (d * d) * w == n * c;
    if f * w > n {
      MulPos(f * w - n, c);
    }
  }

  // ---------------------------------------------------------------------------
  // The detector
  // ---------------------------------------------------------------------------

  /** One host's row of the interval snapshot. */
  datatype Window = Window(total: nat, success: nat)

  predicate Eligible(w: Window, volume: nat) {
    w.total != 0 && w.total >= volume
  }

  /** The positions of the rows with enough traffic. */
  function EligibleIn(snap: seq<Window>, volume: nat): (es: seq<nat>)
    ensures forall i :: 0 <= i < |es| ==> es[i] < |snap| && Eligible(snap[es[i]], volume)
  {
    if snap == [] then []
    else
      var front := EligibleIn(snap[..|snap| - 1], volume);
      if Eligible(snap[|snap| - 1], volume) then front + [|snap| - 1] else front
  }

  function Rate(w: Window): (r: real)
    requires w.total != 0
  {
    (w.success as real) / (w.total as real)
  }

  function Rates(snap: seq<Window>, es: seq<nat>): (rs: seq<real>)
    requires forall i :: 0 <= i < |es| ==> es[i] < |snap| && snap[es[i]].total != 0
    ensures |rs| == |es| && forall i :: 0 <= i < |rs| ==> rs[i] == Rate(snap[es[i]])
  {
    seq(|es|, i requires 0 <= i < |es| => Rate(snap[es[i]]))
  }

  /** math.Sqrt, exact. */
  ghost predicate IsSqrt(sqrt: real -> real) {
    forall v :: v >= 0.0 ==> sqrt(v) >= 0.0 && Square(sqrt(v)) == v
  }

  function Factor(stdevFactor: nat): real {
    (stdevFactor as real) / 1000.0
  }

  function Threshold(rs: seq<real>, k: real, sqrt: real -> real): real
    requires rs != []
  {
    Mean(rs) - k * sqrt(Variance(rs))
  }

  /** The entries of es whose rate lies below t, in order. */
  function Flagged(es: seq<nat>, rs: seq<real>, t: real): (fs: seq<nat>)
    requires |es| == |rs|
    ensures |fs| == Below(rs, t)
    ensures forall x :: x in fs <==> exists i :: 0 <= i < |es| && es[i] == x && rs[i] < t
  {
    if es == [] then []
    else
      var n := |es| - 1;
      var front := Flagged(es[..n], rs[..n], t);
      assert forall x :: x in front <==> exists i :: 0 <= i < n && es[i] == x && rs[i] < t by {
        assert forall i :: 0 <= i < n ==> es[..n][i] == es[i] && rs[..n][i] == rs[i];
      }
      if rs[n] < t then front + [es[n]] else front
  }

  lemma VarianceNonneg(rs: seq<real>)
    requires rs != []
    ensures Variance(rs) >= 0.0
  {
    SpreadNonneg(rs, Mean(rs));
  }

  /** The rows below mean - k * sd, when enough hosts are eligible and that threshold is positive. */
  function Outliers(snap: seq<Window>, volume: nat, minHosts: nat, stdevFactor: nat, sqrt: real -> real): (fs: seq<nat>)
    ensures forall j :: 0 <= j < |fs| ==> fs[j] < |snap|
  {
    var es := EligibleIn(snap, volume);
    if |es| < minHosts || es == [] then []
    else
      var t := Threshold(Rates(snap, es), Factor(stdevFactor), sqrt);
      if t <= 0.0 then [] else
        var fs := Flagged(es, Rates(snap, es), t);
        assert forall j :: 0 <= j < |fs| ==> fs[j] in fs;
        fs
  }

  // ---------------------------------------------------------------------------
  // Which rows are flagged
  // ---------------------------------------------------------------------------

  ghost predicate Ascending(q: seq<nat>) {
    forall a, b :: 0 <= a < b < |q| ==> q[a] < q[b]
  }

  lemma {:induction false} EligibleExact(snap: seq<Window>, volume: nat)
    ensures Ascending(EligibleIn(snap, volume))
    ensures forall x: nat :: x in EligibleIn(snap, volume) <==> x < |snap| && snap[x].total > 0 && snap[x].total >= volume
  {
    if snap == [] {
    } else {
      var n := |snap| - 1;
      var front := EligibleIn(snap[..n], volume);
      EligibleExact(snap[..n], volume);
      forall a | 0 <= a < |front| ensures front[a] < n {
        assert front[a] in front;
      }
      assert forall x :: 0 <= x < n ==> snap[..n][x] == snap[x];
    }
  }

  lemma {:induction false} FlaggedAscending(es: seq<nat>, rs: seq<real>, t: real)
    requires |es| == |rs| && Ascending(es)
    ensures Ascending(Flagged(es, rs, t))
  {
    if es == [] {
    } else {
      var n := |es| - 1;
      var front := Flagged(es[..n], rs[..n], t);
      FlaggedAscending(es[..n], rs[..n], t);
      forall a | 0 <= a < |front| ensures front[a] < es[n] {
        assert front[a] in front;
      }
    }
  }

  function Squares(rs: seq<real>, m: real): (qs: seq<real>) {
    seq(|rs|, i requires 0 <= i < |rs| => Square(rs[i] - m))
  }

  lemma {:induction false} SpreadSums(rs: seq<real>, m: real)
    ensures Spread(rs, m) == Sum(Squares(rs, m))
  {
    hide Square;
    if rs == [] {
    } else {
      var n := |rs| - 1;
      SpreadSums(rs[..n], m);
      assert Squares(rs, m)[..n] == Squares(rs[..n], m);
    }
  }

  /** The threshold lies stdevFactor thousandths of the population deviation under the mean. */
  lemma ThresholdMeans(rs: seq<real>, stdevFactor: nat, sqrt: real -> real, m: real, v: real)
    requires rs != [] && m * (|rs| as real) == Sum(rs) && v * (|rs| as real) == Sum(Squares(rs, m))
    ensures 1000.0 * (m - Threshold(rs, Factor(stdevFactor), sqrt)) == (stdevFactor as real) * sqrt(v)
  {
    hide Square, Sum, Spread, Squares;
    var n := |rs| as real;
    QuotientIs(Sum(rs), n, m);
    SpreadSums(rs, m);
    QuotientIs(Spread(rs, m), n, v);
    Thousandths(m, stdevFactor as real, sqrt(v));
  }

  lemma Thousandths(m: real, f: real, d: real)
    ensures 1000.0 * (m - (m - f / 1000.0 * d)) == f * d
  {
    var g := f / 1000.0;
    assert 1000.0 * (g * d) == (1000.0 * g) * d;
  }

  lemma QuotientIs(x: real, n: real, q: real)
    requires n > 0.0 && q * n == x
    ensures x / n == q
  {
    DivideBack(x, n);
    SameFactor(x / n, q, n);
  }

  lemma SameFactor(x: real, y: real, n: real)
    requires n > 0.0 && x * n == y * n
    ensures x == y
  {
    assert (x - y) * n == 0.0;
  }

  /** The success-rate detector flags exactly the hosts with enough traffic whose rate lies below a
      positive threshold, if enough hosts have such traffic; in ascending order. */
  lemma OutliersExact(snap: seq<Window>, volume: nat, minHosts: nat, stdevFactor: nat, sqrt: real -> real)
    ensures var fs, es := Outliers(snap, volume, minHosts, stdevFactor, sqrt), EligibleIn(snap, volume);
            && Ascending(fs)
            && forall x :: x in fs <==>
                 && minHosts <= |es| && x in es
                 && var t := Threshold(Rates(snap, es), Factor(stdevFactor), sqrt);
                    t > 0.0 && (snap[x].success as real) / (snap[x].total as real) < t
  {
    hide Threshold, Factor;
    var es := EligibleIn(snap, volume);
    EligibleExact(snap, volume);
    if minHosts <= |es| && es != [] {
      var rs, t := Rates(snap, es), Threshold(Rates(snap, es), Factor(stdevFactor), sqrt);
      FlaggedAscending(es, rs, t);
      forall x ensures x in Flagged(es, rs, t) <==> x in es && Rate(snap[x]) < t {
        if x in es {
          var i :| 0 <= i < |es| && es[i] == x;
          assert rs[i] == Rate(snap[x]);
        }
      }
    }
  }

  lemma FactorNonneg(stdevFactor: nat)
    ensures Factor(stdevFactor) >= 0.0
  {
  }

  /** The rows with enough traffic, as both statistical detectors collect them. */
  method SelectEligible(snap: seq<Window>, volume: nat) returns (eligible: seq<nat>)
    ensures eligible == EligibleIn(snap, volume)
  {
    eligible := [];
    for i := 0 to |snap|
      invariant eligible == EligibleIn(snap[..i], volume)
    {
      assert snap[..i + 1][..i] == snap[..i];
      if snap[i].total == 0 {
        continue;
      }
      if snap[i].total >= volume {
        eligible := eligible + [i];
      }
    }
    assert snap[..|snap|] == snap;
  }

  /** evalSuccessRate up to its calls of tryEject: the rows it flags, in order. Whatever the traffic
      was, fewer than N / (1 + k^2) of the N eligible hosts are flagged, so one always stays. */
  method EvalSuccessRate(snap: seq<Window>, volume: nat, minHosts: nat, stdevFactor: nat, sqrt: real -> real)
      returns (flagged: seq<nat>)
    requires IsSqrt(sqrt)
    ensures flagged == Outliers(snap, volume, minHosts, stdevFactor, sqrt)
    ensures flagged != [] ==> Few(|flagged|, Factor(stdevFactor), |EligibleIn(snap, volume)|)
    ensures flagged != [] ==> |flagged| < |EligibleIn(snap, volume)|
  {
    hide Flagged, Rates, Threshold, IsSqrt, Factor, Few;
    FactorNonneg(stdevFactor);
    var eligible := SelectEligible(snap, volume);
    flagged := [];
    // With no eligible row the mean is 0/0 and no comparison with it holds.
    if |eligible| < minHosts || |eligible| == 0 {
      return;
    }
    flagged := FlagRates(snap, eligible, Factor(stdevFactor), sqrt);
  }

  /** The first loop: the rates and their mean. */
  method AverageRates(snap: seq<Window>, eligible: seq<nat>) returns (rates: seq<real>, mean: real)
    requires eligible != []
    requires forall i :: 0 <= i < |eligible| ==> eligible[i] < |snap| && snap[eligible[i]].total != 0
    ensures rates == Rates(snap, eligible) && mean == Mean(rates)
  {
    ghost var spec := Rates(snap, eligible);
    rates := [];
    var sum := 0.0;
    for i := 0 to |eligible|
      invariant rates == spec[..i] && sum == Sum(rates)
    {
      var w := snap[eligible[i]];
      var r := (w.success as real) / (w.total as real);
      assert (rates + [r])[..i] == rates;
      rates := rates + [r];
      sum := sum + r;
    }
    mean := sum / (|eligible| as real);
  }

  /** The second loop: the population variance. */
  method RateVariance(rates: seq<real>, mean: real) returns (variance: real)
    requires rates != [] && mean == Mean(rates)
    ensures variance == Variance(rates)
  {
    hide Mean;
    variance := 0.0;
    for i := 0 to |rates|
      invariant variance == Spread(rates[..i], mean)
    {
      var diff := rates[i] - mean;
      assert rates[..i + 1][..i] == rates[..i];
      variance := variance + diff * diff;
    }
    assert rates[..|rates|] == rates;
    variance := variance / (|rates| as real);
  }

  /** The last loop: one tryEject call for each entry below the threshold. */
  method FlagBelow(eligible: seq<nat>, rates: seq<real>, threshold: real) returns (flagged: seq<nat>)
    requires |eligible| == |rates|
    ensures flagged == Flagged(eligible, rates, threshold)
  {
    flagged := [];
    for i := 0 to |eligible|
      invariant flagged == Flagged(eligible[..i], rates[..i], threshold)
    {
      assert eligible[..i + 1][..i] == eligible[..i] && rates[..i + 1][..i] == rates[..i];
      if rates[i] < threshold {
        flagged := flagged + [eligible[i]];
      }
    }
    assert eligible[..|eligible|] == eligible && rates[..|eligible|] == rates;
  }

  method FlagRates(snap: seq<Window>, eligible: seq<nat>, k: real, sqrt: real -> real) returns (flagged: seq<nat>)
    requires IsSqrt(sqrt) && eligible != [] && k >= 0.0
    requires forall i :: 0 <= i < |eligible| ==> eligible[i] < |snap| && snap[eligible[i]].total != 0
    ensures var rs := Rates(snap, eligible);
            var t := Threshold(rs, k, sqrt);
            flagged == if t <= 0.0 then [] else Flagged(eligible, rs, t)
    ensures flagged != [] ==> Few(|flagged|, k, |eligible|)
    ensures flagged != [] ==> |flagged| < |eligible|
  {
    hide Below, Mean, Variance, Square, Flagged, Rates, Few;
    var rates, mean := AverageRates(snap, eligible);
    var variance := RateVariance(rates, mean);
    var sd := sqrt(variance);
    var threshold := mean - k * sd;
    if threshold <= 0.0 {
      return [];
    }
    flagged := FlagBelow(eligible, rates, threshold);
    VarianceNonneg(rates);
    FewFlagged(rates, k, sd, threshold);
  }

  lemma FewFlagged(rates: seq<real>, k: real, sd: real, t: real)
    requires rates != [] && k >= 0.0 && sd >= 0.0 && Square(sd) == Variance(rates) && t == Mean(rates) - k * sd
    ensures Few(Below(rates, t), k, |rates|) && Below(rates, t) < |rates|
  {
    hide Below, Mean, Variance, Square, Few;
    OneSidedChebyshev(rates, k, sd);
    AtLeastOneStays(Below(rates, t), k, |rates|);
  }

  lemma AtLeastOneStays(f: nat, k: real, n: nat)
    requires Few(f, k, n) && k >= 0.0
    ensures f < n
  {
    assert k * k >= 0.0 by {
      SquareNonneg(k);
    }
    assert (f as real) * (k * k) >= 0.0;
    assert (f as real) * (1.0 + k * k) == (f as real) + (f as real) * (k * k);
  }
}
