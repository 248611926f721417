/**
  The two-proportion drift test of axis/telemetry.py in counts: it is the regression test read in
  both directions, and against a baseline without variance its verdict has a closed form.
 */
module Drift {
  import opened Reals
  import opened Statistics
  import opened Regression

  /** Drift is a regression one way or the other. */
  lemma DriftIsRegression(baseline: seq<real>, recent: seq<real>, z: real)
    requires Proportions(baseline) && Proportions(recent) && z >= 0.0
    ensures TwoProportionDrift(baseline, recent, z) <==>
      Regressed(baseline, recent, z) || Regressed(recent, baseline, z)
  {
    hide Mean, PooledVariance;
    if baseline != [] && recent != [] {
      RegressedInCounts(baseline, recent, z);
      RegressedInCounts(recent, baseline, z);
      SameVariance(baseline, recent);
      SquareOfOpposite(Mean(recent) - Mean(baseline));
      if Mean(baseline) == Mean(recent) { MulNonNegative(z, z); NoExcess(PooledVariance(baseline, recent), z); }
    }
  }

  lemma SameVariance(s: seq<real>, t: seq<real>)
    requires s != [] && t != []
    ensures PooledVariance(s, t) == PooledVariance(t, s)
  {
    PooledIsMean(s, t);
    PooledIsMean(t, s);
  }

  lemma NoExcess(v: real, z: real)
    requires z * z >= 0.0
    ensures v > 0.0 ==> z * z * v >= 0.0
  {
    if v > 0.0 { MulNonNegative(z * z, v); }
  }

  // ---------------------------------------------------------------- a baseline without variance

  ghost predicate Binary(s: seq<real>) {
    forall i :: 0 <= i < |s| ==> s[i] == 0.0 || s[i] == 1.0
  }

  /** How many samples are not `x`. */
  function Differing(s: seq<real>, x: real): (d: nat)
    ensures d <= |s|
  {
    if s == [] then 0 else Differing(s[..|s| - 1], x) + if s[|s| - 1] != x then 1 else 0
  }

  /** `d` of `n2` recent samples differ from a baseline of `n1` equal ones: when is that flagged? */
  predicate Flagged(n1: nat, n2: nat, d: nat, z: real)
    requires d <= n2
  {
    d > 0 && (z < 0.0 || d as real * n1 as real * (n1 + n2) as real > z * z * (n2 as real * (n1 + n2 - d) as real))
  }

  lemma {:induction false} SumOfBinary(s: seq<real>)
    requires Binary(s)
    ensures Sum(s) == (|s| - Differing(s, 1.0)) as real
  {
    if s != [] { SumOfBinary(s[..|s| - 1]); }
  }

  lemma {:induction false} DifferingFlipped(s: seq<real>)
    requires Binary(s)
    ensures Differing(Flipped(s), 1.0) == Differing(s, 0.0)
  {
    if s != [] {
      DifferingFlipped(s[..|s| - 1]);
      assert Flipped(s)[..|s| - 1] == Flipped(s[..|s| - 1]);
    }
  }

  lemma ScaleSign(a: real, b: real)
    ensures a == 0.0 ==> Scale(a, b) == 0.0
    ensures (a > 0.0 && b > 0.0) || (a < 0.0 && b < 0.0) ==> Scale(a, b) > 0.0
  {
  }

  lemma SquareVanishes(d: real)
    ensures Square(d) >= 0.0 && (Square(d) == 0.0 <==> d == 0.0)
  {
    hide Scale;
    ScaleSign(d, d);
  }

  lemma {:induction false} DeviationsVanish(s: seq<real>, m: real)
    ensures SquaredDeviations(s, m) >= 0.0
    ensures SquaredDeviations(s, m) == 0.0 <==> forall i :: 0 <= i < |s| ==> s[i] == m
  {
    hide Square;
    if s != [] {
      var n := |s| - 1;
      DeviationsVanish(s[..n], m);
      SquareVanishes(s[n] - m);
      assert (forall i :: 0 <= i < |s| ==> s[i] == m) <==> s[n] == m && forall i :: 0 <= i < n ==> s[..n][i] == m;
    }
  }

  /** No variance means one value throughout. */
  lemma NoVarianceMeansConstant(s: seq<real>)
    requires s != []
    ensures Variance(s) == 0.0 <==> forall i :: 0 <= i < |s| ==> s[i] == s[0]
  {
    hide SquaredDeviations;
    var n, d := |s| as real, SquaredDeviations(s, Mean(s));
    DeviationsVanish(s, Mean(s));
    DivMul(d, n);
    if forall i :: 0 <= i < |s| ==> s[i] == s[0] {
      SumBounds(s, s[0], s[0]);
      DivUnique(Sum(s), n, s[0]);
    }
  }

  /** With k1 = n1 and k2 = n2 - d the test's two sides share the factor d * n1. */
  lemma PureGap(n1: real, n2: real, d: real, z: real)
    requires n1 > 0.0 && n2 > 0.0 && 0.0 < d <= n2
    ensures Gap(n1, n2, n1, n2 - d) == d * n1
    ensures GapExceeds(n1, n2, n1, n2 - d, z) <==> d * n1 * (n1 + n2) > z * z * (n2 * (n1 + n2 - d))
  {
    var c, n := d * n1, n1 + n2;
    MulPositive(d, n1);
    var x, y := c * n, z * z * (n2 * (n - d));
    assert Gap(n1, n2, n1, n2 - d) == c;
    assert c * c * n == x * c;
    assert z * z * (n1 * n2 * ((n - d) * (n - (n - d)))) == y * c;
    if x > y { MulStrict(y, x, c); } else { MulMonotone(x, y, c); }
  }

  lemma OnlySuccesses(baseline: seq<real>, recent: seq<real>)
    requires baseline != [] && recent != []
    requires Sum(baseline) == |baseline| as real && Sum(recent) == |recent| as real
    ensures Mean(baseline) == 1.0 == Mean(recent) && PooledVariance(baseline, recent) == 0.0
  {
    hide Sum;
    PooledIsMean(baseline, recent);
    DivSelf(|baseline| as real);
    DivSelf(|recent| as real);
    DivSelf((|baseline| + |recent|) as real);
  }

  lemma AllSuccessBaseline(baseline: seq<real>, recent: seq<real>, z: real)
    requires baseline != [] && recent != [] && Binary(recent) && forall i :: 0 <= i < |baseline| ==> baseline[i] == 1.0
    ensures TwoProportionDrift(baseline, recent, z) <==> Flagged(|baseline|, |recent|, Differing(recent, 1.0), z)
    ensures Mean(baseline) != Mean(recent) <==> Differing(recent, 1.0) > 0
  {
    hide Gap, GapExceeds, Mean, Sum, PooledVariance, Counts, Differing;
    var n1, n2, d := |baseline| as real, |recent| as real, Differing(recent, 1.0) as real;
    SumBounds(baseline, 1.0, 1.0);
    SumOfBinary(recent);
    if Differing(recent, 1.0) == 0 {
      OnlySuccesses(baseline, recent);
    } else {
      PureGap(n1, n2, d, z);
      MulPositive(d, n1);
      RegressedInCounts(baseline, recent, 0.0);
      if z >= 0.0 {
        DriftIsRegression(baseline, recent, z);
        RegressedInCounts(baseline, recent, z);
      }
    }
  }

  /**
    Documented as drift whenever the recent samples differ at all from a baseline without variance,
    the test asks for more: exactly when enough of them differ.
   */
  lemma PureBaselineDrift(baseline: seq<real>, recent: seq<real>, z: real)
    requires Binary(baseline) && Binary(recent) && baseline != [] && recent != [] && Variance(baseline) == 0.0
    ensures Mean(baseline) != Mean(recent) <==> Differing(recent, baseline[0]) > 0
    ensures TwoProportionDrift(baseline, recent, z) <==>
      Flagged(|baseline|, |recent|, Differing(recent, baseline[0]), z)
  {
    hide Mean, Variance, TwoProportionDrift, Flagged, Differing;
    NoVarianceMeansConstant(baseline);
    if baseline[0] == 1.0 {
      AllSuccessBaseline(baseline, recent, z);
    } else {
      AllSuccessBaseline(Flipped(baseline), Flipped(recent), z);
      DriftLabelInvariant(baseline, recent, z);
      DifferingFlipped(recent);
      MeanFlipped(baseline);
      MeanFlipped(recent);
    }
  }

  /** An input where the documented claim fails: 20 successes, then 9 successes and a failure, at two standard errors. */
  lemma OneFailureInTenIsNoDrift()
    ensures var baseline, recent := Repeat(1.0, 20), Repeat(1.0, 9) + [0.0];
      && Variance(baseline) == 0.0 && Mean(baseline) != Mean(recent)
      && !TwoProportionDrift(baseline, recent, 2.0)
  {
    hide Mean, Variance, TwoProportionDrift;
    var baseline, recent := Repeat(1.0, 20), Repeat(1.0, 9) + [0.0];
    NoVarianceMeansConstant(baseline);
    PureBaselineDrift(baseline, recent, 2.0);
    assert recent[..|recent| - 1] == Repeat(1.0, 9);
    NoneDiffer(Repeat(1.0, 9), 1.0);
    assert Differing(recent, 1.0) == 1;
  }

  lemma {:induction false} NoneDiffer(s: seq<real>, x: real)
    requires forall i :: 0 <= i < |s| ==> s[i] == x
    ensures Differing(s, x) == 0
  {
    if s != [] { NoneDiffer(s[..|s| - 1], x); }
  }

  lemma {:induction false} AllDiffer(s: seq<real>, x: real)
    requires forall i :: 0 <= i < |s| ==> s[i] != x
    ensures Differing(s, x) == |s|
  {
    if s != [] { AllDiffer(s[..|s| - 1], x); }
  }

  /** Only successes, then only failures: flagged just when z squared is below the number of samples. */
  lemma CollapseIsFlagged(n1: nat, n2: nat, z: real)
    requires n1 >= 1 && n2 >= 1
    ensures TwoProportionDrift(Repeat(1.0, n1), Repeat(0.0, n2), z) <==> z < 0.0 || z * z < (n1 + n2) as real
  {
    hide TwoProportionDrift, Mean, Differing;
    AllSuccessBaseline(Repeat(1.0, n1), Repeat(0.0, n2), z);
    AllDiffer(Repeat(0.0, n2), 1.0);
    var c, n, t := n2 as real * n1 as real, (n1 + n2) as real, z * z;
    MulPositive(n2 as real, n1 as real);
    assert n2 as real * n1 as real * n == n * c;
    assert t * (n2 as real * (n1 + n2 - n2) as real) == t * c;
    if t < n { MulStrict(t, n, c); } else { MulMonotone(n, t, c); }
  }

  // ---------------------------------------------------------------- two means, in sums

  function SumSquares(s: seq<real>): real {
    if s == [] then 0.0 else SumSquares(s[..|s| - 1]) + Square(s[|s| - 1])
  }

  /** n squared times the variance, in sums. */
  function Spread(s: seq<real>): real {
    |s| as real * SumSquares(s) - Square(Sum(s))
  }

  lemma {:induction false} DeviationsExpand(s: seq<real>, m: real)
    ensures SquaredDeviations(s, m) == SumSquares(s) - 2.0 * m * Sum(s) + m * m * |s| as real
  {
    hide Square;
    if s != [] {
      var n := |s| - 1;
      DeviationsExpand(s[..n], m);
      OneMoreDeviation(SumSquares(s[..n]), Sum(s[..n]), n as real, m, s[n]);
    }
  }

  lemma OneMoreDeviation(q: real, t: real, n: real, m: real, x: real)
    ensures (q - 2.0 * m * t + m * m * n) + Square(x - m) == (q + Square(x)) - 2.0 * m * (t + x) + m * m * (n + 1.0)
  {
    SquareOfDifference(x, m);
    assert 2.0 * m * (t + x) == 2.0 * m * t + 2.0 * m * x;
    assert m * m * (n + 1.0) == m * m * n + m * m;
  }

  lemma SquareOfDifference(x: real, m: real)
    ensures Square(x - m) == Square(x) - 2.0 * m * x + m * m
  {
  }

  lemma VarianceInSums(s: seq<real>)
    requires s != []
    ensures Variance(s) * (|s| as real * |s| as real) == Spread(s) && Variance(s) >= 0.0
  {
    hide SquaredDeviations, Sum, SumSquares, Scale;
    var n, m, t, q := |s| as real, Mean(s), Sum(s), SumSquares(s);
    var d := SquaredDeviations(s, m);
    DeviationsExpand(s, m);
    DeviationsVanish(s, m);
    DivMul(t, n);
    DivMul(d, n);
    DivCompare(0.0, d, n);
    SpreadOf(n, m, t, q, d, Variance(s));
    assert Square(t) == t * t by { SquareIs(t); }
  }

  lemma SquareIs(x: real)
    ensures Square(x) == x * x
  {
  }

  lemma SpreadOf(n: real, m: real, t: real, q: real, d: real, v: real)
    requires m * n == t && v * n == d && d == q - 2.0 * m * t + m * m * n
    ensures v * (n * n) == n * q - t * t
  {
    assert m * m * n == m * t;
    assert d == q - m * t;
    assert v * (n * n) == d * n;
    assert d * n == q * n - (m * n) * t;
  }

  function Cube(n: real): real { n * n * n }

  /** The difference of the means and the variance of that difference, cleared of denominators. */
  function MeanGap(b: seq<real>, r: seq<real>): real {
    Sum(r) * |b| as real - Sum(b) * |r| as real
  }

  function MeanSpread(b: seq<real>, r: seq<real>): real {
    Spread(b) * Cube(|r| as real) + Spread(r) * Cube(|b| as real)
  }

  predicate GapTooWide(b: seq<real>, r: seq<real>, z: real) {
    Square(MeanGap(b, r)) * (|b| as real * |r| as real) > Square(z) * MeanSpread(b, r)
  }

  lemma MeansInSums(b: seq<real>, r: seq<real>)
    requires b != [] && r != []
    ensures (Mean(r) - Mean(b)) * (|b| as real * |r| as real) == MeanGap(b, r)
    ensures Mean(r) == Mean(b) <==> MeanGap(b, r) == 0.0
  {
    hide Sum;
    var n1, n2, x, y := |b| as real, |r| as real, Mean(b), Mean(r);
    DivMul(Sum(b), n1);
    DivMul(Sum(r), n2);
    GapOf(n1, n2, x, y, Sum(b), Sum(r));
  }

  lemma GapOf(n1: real, n2: real, x: real, y: real, s: real, t: real)
    requires n1 > 0.0 && n2 > 0.0 && x * n1 == s && y * n2 == t
    ensures (y - x) * (n1 * n2) == t * n1 - s * n2
    ensures y == x <==> t * n1 - s * n2 == 0.0
  {
    assert (y - x) * (n1 * n2) == (y * n2) * n1 - (x * n1) * n2;
    MulPositive(n1, n2);
    if y > x { MulPositive(y - x, n1 * n2); }
    if y < x { MulPositive(x - y, n1 * n2); assert (x - y) * (n1 * n2) == -((y - x) * (n1 * n2)); }
  }

  lemma VariancesInSums(n1: real, n2: real, v1: real, v2: real, d1: real, d2: real)
    requires n1 > 0.0 && n2 > 0.0 && v1 >= 0.0 && v2 >= 0.0
    requires v1 * (n1 * n1) == d1 && v2 * (n2 * n2) == d2
    ensures var k, w := Cube(n1) * Cube(n2), v1 / n1 + v2 / n2;
      k > 0.0 && w >= 0.0 && w * k == d1 * Cube(n2) + d2 * Cube(n1)
  {
    var p, q, c1, c2 := v1 / n1, v2 / n2, Cube(n1), Cube(n2);
    MulPositive(n1, n1);
    MulPositive(n1 * n1, n1);
    MulPositive(n2, n2);
    MulPositive(n2 * n2, n2);
    MulPositive(c1, c2);
    DivCompare(0.0, v1, n1);
    DivCompare(0.0, v2, n2);
    DivMul(v1, n1);
    DivMul(v2, n2);
    assert p * c1 == (p * n1) * (n1 * n1) == d1;
    assert q * c2 == (q * n2) * (n2 * n2) == d2;
    assert (p + q) * (c1 * c2) == (p * c1) * c2 + (q * c2) * c1;
  }

  lemma ScaledTest(d: real, w: real, z: real, m: real, k: real, g: real)
    requires m > 0.0 && k > 0.0 && d * m == g && k == m * m * m
    ensures d * d > z * z * w <==> (g * g) * m > z * z * (w * k)
  {
    assert (d * d) * k == (g * g) * m;
    assert (z * z * w) * k == z * z * (w * k);
    var x, y := d * d, z * z * w;
    if x > y { MulStrict(y, x, k); } else { MulMonotone(x, y, k); }
  }

  /** The verdict of the mean test in sums and sums of squares, for every pair of samples the test compares. */
  lemma MeanDriftInSums(b: seq<real>, r: seq<real>, z: real)
    requires |b| >= 2 && |r| >= 2 && z >= 0.0
    ensures MeanDrift(b, r, z) <==> GapTooWide(b, r, z)
  {
    hide Mean, Variance, Spread, Sum, Cube, MeanGap;
    var n1, n2 := |b| as real, |r| as real;
    var w, m, k, g := Variance(b) / n1 + Variance(r) / n2, n1 * n2, Cube(n1) * Cube(n2), MeanGap(b, r);
    VarianceInSums(b);
    VarianceInSums(r);
    VariancesInSums(n1, n2, Variance(b), Variance(r), Spread(b), Spread(r));
    MeansInSums(b, r);
    MulPositive(n1, n2);
    CubesOfProduct(n1, n2);
    ScaledTest(Mean(r) - Mean(b), w, z, m, k, g);
    SquareIs(g);
    SquareIs(z);
    if w <= 0.0 { NoSpread(g, m, w, k, z); }
  }

  lemma CubesOfProduct(n1: real, n2: real)
    ensures Cube(n1) * Cube(n2) == (n1 * n2) * (n1 * n2) * (n1 * n2)
  {
  }

  lemma NoSpread(g: real, m: real, w: real, k: real, z: real)
    requires m > 0.0 && w == 0.0
    ensures (g * g) * m > z * z * (w * k) <==> g != 0.0
  {
    assert z * z * (w * k) == 0.0;
    SquareVanishes(g);
    SquareIs(g);
    if g != 0.0 { MulPositive(Square(g), m); }
  }

  // ---------------------------------------------------------------- two means, read off the samples

  /** Samples with the same mean are never flagged. */
  lemma EqualMeansNoDrift(b: seq<real>, r: seq<real>, z: real)
    requires z >= 0.0 && b != [] && r != [] && Mean(b) == Mean(r)
    ensures !MeanDrift(b, r, z)
  {
    hide Mean, Variance;
    MulNonNegative(z, z);
    if |b| >= 2 && |r| >= 2 { NoExcess(Variance(b) / |b| as real + Variance(r) / |r| as real, z); }
  }

  function Apart(x: real, y: real): real {
    if x >= y then x - y else y - x
  }

  lemma SquaresGrow(d: real, e: real)
    requires Apart(d, 0.0) <= Apart(e, 0.0)
    ensures d * d <= e * e
  {
    var x, y := Apart(d, 0.0), Apart(e, 0.0);
    var xx, xy, yy := x * x, x * y, y * y;
    assert xx <= xy by { MulMonotone(x, y, x); }
    assert xy <= yy by { MulMonotone(x, y, y); }
    assert d * d == xx by { SquareOfOpposite(d); }
    assert e * e == yy by { SquareOfOpposite(e); }
  }

  /** Means further apart, at the same variance, keep every flag. */
  lemma WiderGapKeepsDrift(b: seq<real>, r: seq<real>, r': seq<real>, z: real)
    requires b != [] && r != [] && |r'| == |r| && Variance(r') == Variance(r)
    requires Apart(Mean(r), Mean(b)) <= Apart(Mean(r'), Mean(b))
    requires MeanDrift(b, r, z)
    ensures MeanDrift(b, r', z)
  {
    hide Mean, Variance;
    SquaresGrow(Mean(r) - Mean(b), Mean(r') - Mean(b));
  }

  /** A smaller threshold keeps every flag, a larger one only clears flags. */
  lemma SmallerThresholdKeepsDrift(b: seq<real>, r: seq<real>, z: real, z': real)
    requires 0.0 <= z <= z' && MeanDrift(b, r, z')
    ensures MeanDrift(b, r, z)
  {
    hide Mean, Variance;
    var v := Variance(b) / |b| as real + Variance(r) / |r| as real;
    if v > 0.0 {
      SquaresGrow(z, z');
      MulMonotone(z * z, z' * z', v);
    }
  }

  /** Against themselves moved by c, n samples are flagged just when c squared times n exceeds 2 z squared times their variance. */
  lemma ShiftedSamplesDrift(b: seq<real>, c: real, z: real)
    requires |b| >= 2 && z >= 0.0
    ensures MeanDrift(b, Shifted(b, c), z) <==> c * c * |b| as real > 2.0 * (z * z * Variance(b))
  {
    hide Mean, Variance;
    var n, v := |b| as real, Variance(b);
    MomentsShifted(b, c);
    VarianceInSums(b);
    DivCompare(0.0, v, n);
    DivMul(v, n);
    ShiftTest(c, n, v, v / n, z);
  }

  lemma ShiftTest(c: real, n: real, v: real, q: real, z: real)
    requires n > 0.0 && v >= 0.0 && q * n == v && q >= 0.0
    ensures var w := q + q;
      (if w <= 0.0 then c != 0.0 else c * c > z * z * w) <==> c * c * n > 2.0 * (z * z * v)
  {
    var w, x, y := q + q, c * c, z * z * (q + q);
    assert y * n == 2.0 * (z * z * v) by { assert z * z * (q + q) * n == z * z * (q * n) + z * z * (q * n); }
    if w > 0.0 {
      if x > y { MulStrict(y, x, n); } else { MulMonotone(x, y, n); }
    } else {
      assert q == 0.0 && v == 0.0;
      SquareVanishes(c);
      SquareIs(c);
      if c != 0.0 { MulPositive(x, n); }
    }
  }

  lemma ConstantMoments(s: seq<real>, x: real)
    requires s != [] && forall i :: 0 <= i < |s| ==> s[i] == x
    ensures Mean(s) == x && Variance(s) == 0.0
  {
    hide Variance;
    SumBounds(s, x, x);
    DivUnique(Sum(s), |s| as real, x);
    NoVarianceMeansConstant(s);
  }

  /** Two constant samples are flagged just when they differ, whatever the threshold. */
  lemma ConstantSamplesDrift(b: seq<real>, r: seq<real>, x: real, y: real, z: real)
    requires |b| >= 2 && |r| >= 2
    requires (forall i :: 0 <= i < |b| ==> b[i] == x) && forall i :: 0 <= i < |r| ==> r[i] == y
    ensures MeanDrift(b, r, z) <==> x != y
  {
    hide Mean, Variance;
    ConstantMoments(b, x);
    ConstantMoments(r, y);
  }
}
