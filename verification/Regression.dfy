/**
  The regression test of the eval gate (`_statistically_regressed`, axis/eval_harness.py): a
  one-tailed pooled two-proportion z-test. Floats are reals and `z > critical` is compared in squares.
 */
module Regression {
  import opened Reals
  import opened Statistics

  /** `_statistically_regressed`, with `critical` 1.645 or 1.96. */
  predicate Regressed(baseline: seq<real>, candidate: seq<real>, critical: real) {
    if baseline == [] || candidate == [] then false
    else if Mean(candidate) >= Mean(baseline) then false
    else if PooledVariance(baseline, candidate) <= 0.0 then Mean(baseline) != Mean(candidate)
    else Exceeds(Mean(baseline) - Mean(candidate), PooledVariance(baseline, candidate), critical)
  }

  /** `critical` for a significance level. */
  function Critical(alpha: real): (c: real)
    ensures c > 0.0
  {
    if alpha == 0.05 then 1.645 else 1.96
  }

  // ---------------------------------------------------------------- the test in counts

  /** Successes k1 of n1 and k2 of n2, cross-multiplied: positive when the second rate is lower. */
  function Gap(n1: real, n2: real, k1: real, k2: real): real {
    k1 * n2 - k2 * n1
  }

  /** z squared above critical squared, cleared of denominators. */
  predicate GapExceeds(n1: real, n2: real, k1: real, k2: real, critical: real) {
    var d, k := Gap(n1, n2, k1, k2), k1 + k2;
    d > 0.0 && d * d * (n1 + n2) > critical * critical * (n1 * n2 * (k * (n1 + n2 - k)))
  }

  ghost predicate Counts(n1: real, n2: real, k1: real, k2: real) {
    n1 > 0.0 && n2 > 0.0 && 0.0 <= k1 <= n1 && 0.0 <= k2 <= n2
  }

  /** A positive gap needs a success and a failure somewhere. */
  lemma GapMeansSpread(n1: real, n2: real, k1: real, k2: real)
    requires Counts(n1, n2, k1, k2) && Gap(n1, n2, k1, k2) > 0.0
    ensures k1 + k2 > 0.0 && n1 + n2 - (k1 + k2) > 0.0
  {
    MulNonNegative(k2, n1);
    PositiveFactor(k1, n2);
    MulNonNegative(n1 - k1, n2);
    assert (n2 - k2) * n1 == Gap(n1, n2, k1, k2) + (n1 - k1) * n2;
    PositiveFactor(n2 - k2, n1);
  }

  lemma GapIsRateDifference(n1: real, n2: real, k1: real, k2: real)
    requires n1 > 0.0 && n2 > 0.0
    ensures n1 * n2 > 0.0
    ensures (k1 / n1 - k2 / n2) * (n1 * n2) == Gap(n1, n2, k1, k2)
    ensures k2 / n2 < k1 / n1 <==> Gap(n1, n2, k1, k2) > 0.0
  {
    MulPositive(n1, n2);
    var p1, p2 := k1 / n1, k2 / n2;
    DivMul(k1, n1);
    DivMul(k2, n2);
    assert (p1 - p2) * (n1 * n2) == (p1 * n1) * n2 - (p2 * n2) * n1;
    SignOfProduct(p1 - p2, n1 * n2);
  }

  lemma SignOfProduct(d: real, m: real)
    requires m > 0.0
    ensures d > 0.0 <==> d * m > 0.0
  {
    if d > 0.0 { MulPositive(d, m); } else { MulMonotone(d, 0.0, m); }
  }

  lemma SpreadIsVariance(n1: real, n2: real, k: real)
    requires n1 > 0.0 && n2 > 0.0
    ensures n1 * n2 * (n1 + n2) > 0.0
    ensures var n := n1 + n2; (k / n) * (1.0 - k / n) * (1.0 / n1 + 1.0 / n2) * (n1 * n2 * n) == k * (n - k)
  {
    var n := n1 + n2;
    MulPositive(n1, n2);
    MulPositive(n1 * n2, n);
    var p, a, b := k / n, 1.0 / n1, 1.0 / n2;
    DivMul(k, n);
    DivMul(1.0, n1);
    DivMul(1.0, n2);
    assert (a + b) * (n1 * n2) == (a * n1) * n2 + (b * n2) * n1 == n;
    assert (1.0 - p) * n == n - p * n;
    Regroup(p, 1.0 - p, a + b, n1 * n2, n);
  }

  lemma Regroup(p: real, q: real, w: real, m: real, n: real)
    requires w * m == n
    ensures p * q * w * (m * n) == (p * n) * (q * n)
  {
    assert p * q * w * (m * n) == p * q * (w * m) * n;
  }

  lemma ScaledComparison(d: real, v: real, c: real, m: real, n: real)
    requires m > 0.0 && n > 0.0
    ensures d * d > c * c * v <==> (d * m) * (d * m) * n > c * c * (m * (v * (m * n)))
  {
    var x, y, mn := d * d, c * c * v, m * n;
    MulPositive(m, n);
    MulPositive(m, mn);
    var s := m * mn;
    assert (d * m) * (d * m) * n == x * s;
    assert c * c * (m * (v * (m * n))) == y * s;
    if x > y { MulStrict(y, x, s); } else { MulMonotone(x, y, s); }
  }

  /**
    The verdict in counts. A lower candidate rate always leaves some pooled variance, so the
    code's zero-variance branch is never reached.
   */
  lemma RegressedInCounts(baseline: seq<real>, candidate: seq<real>, critical: real)
    requires Proportions(baseline) && Proportions(candidate) && baseline != [] && candidate != [] && critical >= 0.0
    ensures var n1, n2, k1, k2 := |baseline| as real, |candidate| as real, Sum(baseline), Sum(candidate);
      && Counts(n1, n2, k1, k2)
      && (Mean(candidate) < Mean(baseline) <==> Gap(n1, n2, k1, k2) > 0.0)
      && (Regressed(baseline, candidate, critical) <==> GapExceeds(n1, n2, k1, k2, critical))
    ensures Mean(candidate) < Mean(baseline) ==> PooledVariance(baseline, candidate) > 0.0
  {
    hide Exceeds, Gap, Sum, Pooled;
    SumBounds(baseline, 0.0, 1.0);
    SumBounds(candidate, 0.0, 1.0);
    PooledIsMean(baseline, candidate);
    var n1, n2, k1, k2 := |baseline| as real, |candidate| as real, Sum(baseline), Sum(candidate);
    assert n1 + n2 == (|baseline| + |candidate|) as real;
    GapIsRateDifference(n1, n2, k1, k2);
    if Gap(n1, n2, k1, k2) > 0.0 {
      GapMeansSpread(n1, n2, k1, k2);
      VerdictInCounts(n1, n2, k1, k2, Mean(baseline) - Mean(candidate), PooledVariance(baseline, candidate), critical);
    }
  }

  lemma VerdictInCounts(n1: real, n2: real, k1: real, k2: real, d: real, v: real, critical: real)
    requires Counts(n1, n2, k1, k2) && Gap(n1, n2, k1, k2) > 0.0 && critical >= 0.0
    requires d * (n1 * n2) == Gap(n1, n2, k1, k2)
    requires var n, k := n1 + n2, k1 + k2; v == (k / n) * (1.0 - k / n) * (1.0 / n1 + 1.0 / n2)
    ensures v > 0.0
    ensures Exceeds(d, v, critical) <==> GapExceeds(n1, n2, k1, k2, critical)
  {
    hide Gap, Counts;
    var n, k, m := n1 + n2, k1 + k2, n1 * n2;
    assert n1 > 0.0 && n2 > 0.0 by { CountsPositive(n1, n2, k1, k2); }
    MulPositive(n1, n2);
    SpreadIsVariance(n1, n2, k);
    GapMeansSpread(n1, n2, k1, k2);
    MulPositive(k, n - k);
    assert v * (m * n) == k * (n - k);
    if v <= 0.0 { MulMonotone(v, 0.0, m * n); }
    ScaledComparison(d, v, critical, m, n);
  }

  lemma CountsPositive(n1: real, n2: real, k1: real, k2: real)
    requires Counts(n1, n2, k1, k2)
    ensures n1 > 0.0 && n2 > 0.0
  {
  }

  /** Three failures in ten after none in ten: a regression at the five percent level, and at no other. */
  lemma ThreeInTen(baseline: seq<real>, candidate: seq<real>, alpha: real)
    requires Proportions(baseline) && |baseline| == 10 && Sum(baseline) == 10.0
    requires Proportions(candidate) && |candidate| == 10 && Sum(candidate) == 7.0
    ensures Regressed(baseline, candidate, Critical(alpha)) <==> alpha == 0.05
  {
    hide Regressed;
    RegressedInCounts(baseline, candidate, Critical(alpha));
    assert Gap(10.0, 10.0, 10.0, 7.0) == 30.0;
    var c := Critical(alpha);
    assert GapExceeds(10.0, 10.0, 10.0, 7.0, c) <==> 18000.0 > c * c * 5100.0;
  }

  // ---------------------------------------------------------------- monotonicity

  /** With k' the better baseline and worse candidate, both cross products of gap and spread only grow. */
  lemma CrossProducts(n1: real, n2: real, k1: real, k2: real, k1': real, k2': real)
    ensures Gap(n1, n2, k1', k2') * (k1 + k2) - Gap(n1, n2, k1, k2) * (k1' + k2')
         == (n1 + n2) * (k1' * k2 - k1 * k2')
    ensures Gap(n1, n2, k1', k2') * (n1 + n2 - (k1 + k2)) - Gap(n1, n2, k1, k2) * (n1 + n2 - (k1' + k2'))
         == (n1 + n2) * ((n2 - k2') * (n1 - k1) - (n2 - k2) * (n1 - k1'))
  {
  }

  lemma ProductsOrdered(a: real, b: real, c: real, d: real)
    requires 0.0 <= a <= c && 0.0 <= b <= d
    ensures a * b <= c * d
  {
    MulMonotone(a, c, b);
    MulMonotone(b, d, c);
  }

  lemma GapGrows(n1: real, n2: real, k1: real, k2: real, k1': real, k2': real)
    requires Counts(n1, n2, k1, k2) && Counts(n1, n2, k1', k2') && k1 <= k1' && k2' <= k2
    ensures Gap(n1, n2, k1, k2) <= Gap(n1, n2, k1', k2')
    ensures Gap(n1, n2, k1, k2) * (k1' + k2') <= Gap(n1, n2, k1', k2') * (k1 + k2)
    ensures Gap(n1, n2, k1, k2) * (n1 + n2 - (k1' + k2')) <= Gap(n1, n2, k1', k2') * (n1 + n2 - (k1 + k2))
  {
    MulMonotone(k1, k1', n2);
    MulMonotone(k2', k2, n1);
    CrossProducts(n1, n2, k1, k2, k1', k2');
    ProductsOrdered(k1, k2', k1', k2);
    MulNonNegative(n1 + n2, k1' * k2 - k1 * k2');
    ProductsOrdered(n2 - k2, n1 - k1', n2 - k2', n1 - k1);
    MulNonNegative(n1 + n2, (n2 - k2') * (n1 - k1) - (n2 - k2) * (n1 - k1'));
  }

  /** d squared over k times f, compared by cross multiplication. */
  lemma VerdictCarries(d: real, k: real, f: real, d': real, k': real, f': real, n: real, c: real)
    requires d > 0.0 && k > 0.0 && f > 0.0 && d' > 0.0 && k' > 0.0 && f' > 0.0 && n > 0.0
    requires d * k' <= d' * k && d * f' <= d' * f
    requires d * d * n > c * (k * f)
    ensures d' * d' * n > c * (k' * f')
  {
    MulPositive(k, f);
    MulPositive(k', f');
    MulPositive(d, k');
    MulPositive(d, f');
    var s, s' := k * f, k' * f';
    ProductsOrdered(d * k', d * f', d' * k, d' * f);
    assert (d * k') * (d * f') == (d * d) * s' && (d' * k) * (d' * f) == (d' * d') * s;
    MulMonotone((d * d) * s', (d' * d') * s, n);
    MulStrict(c * s, d * d * n, s');
    var x, y := d' * d' * n, c * s';
    assert x * s == ((d' * d') * s) * n && y * s == (c * s) * s' && ((d * d) * s') * n == (d * d * n) * s';
    if x <= y { MulMonotone(x, y, s); }
  }

  /** At fixed sample sizes, baseline passes and candidate failures never clear a regression. */
  lemma GapExceedsMonotone(n1: real, n2: real, k1: real, k2: real, k1': real, k2': real, critical: real)
    requires Counts(n1, n2, k1, k2) && Counts(n1, n2, k1', k2') && k1 <= k1' && k2' <= k2
    requires GapExceeds(n1, n2, k1, k2, critical)
    ensures GapExceeds(n1, n2, k1', k2', critical)
  {
    hide Gap, Counts;
    GapGrows(n1, n2, k1, k2, k1', k2');
    GapMeansSpread(n1, n2, k1, k2);
    GapMeansSpread(n1, n2, k1', k2');
    CountsPositive(n1, n2, k1, k2);
    var d, d' := Gap(n1, n2, k1, k2), Gap(n1, n2, k1', k2');
    var n, m, c, k, k' := n1 + n2, n1 * n2, critical * critical, k1 + k2, k1' + k2';
    MulAssociates(c, m, k * (n - k));
    MulAssociates(c, m, k' * (n - k'));
    VerdictCarries(d, k, n - k, d', k', n - k', n, c * m);
  }

  ghost predicate AtMost(s: seq<real>, t: seq<real>) {
    |s| == |t| && forall i :: 0 <= i < |s| ==> s[i] <= t[i]
  }

  lemma {:induction false} SumMonotone(s: seq<real>, t: seq<real>)
    requires AtMost(s, t)
    ensures Sum(s) <= Sum(t)
  {
    if s != [] { SumMonotone(s[..|s| - 1], t[..|t| - 1]); }
  }

  /** The same for series: a better baseline and a worse candidate keep every regression. */
  lemma RegressionMonotone(b: seq<real>, c: seq<real>, b': seq<real>, c': seq<real>, critical: real)
    requires Proportions(b) && Proportions(c) && Proportions(b') && Proportions(c') && critical > 0.0
    requires AtMost(b, b') && AtMost(c', c)
    requires Regressed(b, c, critical)
    ensures Regressed(b', c', critical)
  {
    hide GapExceeds, Counts, Gap;
    RegressedInCounts(b, c, critical);
    RegressedInCounts(b', c', critical);
    SumMonotone(b, b');
    SumMonotone(c', c);
    GapExceedsMonotone(|b| as real, |c| as real, Sum(b), Sum(c), Sum(b'), Sum(c'), critical);
  }
}
