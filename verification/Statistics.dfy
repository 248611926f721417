/**
  The numeric helpers of axis/telemetry.py: interpolated percentiles and the two drift tests.
  Floats are reals; `|d| / sqrt(v) > z` is compared in squares, so no square root is needed.
 */
module Statistics {
  import opened Wrappers
  import opened Reals

  // ---------------------------------------------------------------- sums

  function Sum(s: seq<real>): real {
    if s == [] then 0.0 else Sum(s[..|s| - 1]) + s[|s| - 1]
  }

  function Mean(s: seq<real>): real
    requires s != []
  {
    Sum(s) / |s| as real
  }

  lemma {:induction false} SumBounds(s: seq<real>, lo: real, hi: real)
    requires forall i :: 0 <= i < |s| ==> lo <= s[i] <= hi
    ensures lo * |s| as real <= Sum(s) <= hi * |s| as real
  {
    if s != [] {
      SumBounds(s[..|s| - 1], lo, hi);
    }
  }

  // ---------------------------------------------------------------- percentiles

  ghost predicate Sorted(s: seq<real>) {
    forall i, j :: 0 <= i <= j < |s| ==> s[i] <= s[j]
  }

  /** Linear interpolation. */
  function Between(a: real, b: real, f: real): real {
    a + (b - a) * f
  }

  /** The value at a fractional index, between the two closest ranks. */
  function AtPosition(s: seq<real>, pos: real): real
    requires s != [] && 0.0 <= pos <= (|s| - 1) as real
  {
    var lo := pos.Floor;
    if pos == lo as real then s[lo] else Between(s[lo], s[lo + 1], pos - lo as real)
  }

  function Position(n: nat, q: real): (pos: real)
    requires 0.0 <= q <= 1.0
    ensures 0.0 <= pos <= n as real
  {
    ScaleInside(n as real, q);
    Scale(n as real, q)
  }

  function Scale(n: real, q: real): real {
    q * n
  }

  lemma ScaleInside(n: real, q: real)
    requires n >= 0.0 && 0.0 <= q <= 1.0
    ensures 0.0 <= Scale(n, q) <= n
  {
    MulNonNegative(q, n);
    MulMonotone(q, 1.0, n);
  }

  lemma ScaleMonotone(n: real, p: real, q: real)
    requires n >= 0.0 && p <= q
    ensures Scale(n, p) <= Scale(n, q)
  {
    MulMonotone(p, q, n);
  }

  /** `_percentile`: the q-quantile of an already sorted list; an empty list is an error. */
  function Percentile(s: seq<real>, q: real): Result<real, string>
    requires 0.0 <= q <= 1.0
  {
    if s == [] then Err("empty input")
    else if |s| == 1 then Ok(s[0])
    else Ok(AtPosition(s, Position(|s| - 1, q)))
  }

  lemma BetweenInside(a: real, b: real, f: real)
    requires a <= b && 0.0 <= f <= 1.0
    ensures a <= Between(a, b, f) <= b
  {
    MulNonNegative(b - a, f);
    MulNonNegative(b - a, 1.0 - f);
    assert (b - a) * (1.0 - f) == (b - a) - (b - a) * f;
  }

  lemma BetweenMonotone(a: real, b: real, f: real, g: real)
    requires a <= b && f <= g
    ensures Between(a, b, f) <= Between(a, b, g)
  {
    MulNonNegative(b - a, g - f);
    assert (b - a) * (g - f) == (b - a) * g - (b - a) * f;
  }

  lemma BetweenPointwise(a: real, b: real, a': real, b': real, f: real)
    requires a <= a' && b <= b' && 0.0 <= f <= 1.0
    ensures Between(a, b, f) <= Between(a', b', f)
  {
    MulNonNegative(a' - a, 1.0 - f);
    MulNonNegative(b' - b, f);
    assert Between(a', b', f) - Between(a, b, f) == (a' - a) * (1.0 - f) + (b' - b) * f;
  }

  lemma PositionMonotone(n: nat, p: real, q: real)
    requires 0.0 <= p <= q <= 1.0
    ensures Position(n, p) <= Position(n, q)
  {
    hide Scale;
    ScaleMonotone(n as real, p, q);
  }

  lemma InCell(s: seq<real>, pos: real)
    requires s != [] && 0.0 <= pos <= (|s| - 1) as real && Sorted(s)
    ensures s[0] <= s[pos.Floor] <= AtPosition(s, pos) <= s[|s| - 1]
    ensures pos.Floor + 1 < |s| ==> AtPosition(s, pos) <= s[pos.Floor + 1]
  {
    hide Between;
    var lo := pos.Floor;
    if pos != lo as real { BetweenInside(s[lo], s[lo + 1], pos - lo as real); }
  }

  lemma AtPositionMonotone(s: seq<real>, p: real, q: real)
    requires s != [] && 0.0 <= p <= q <= (|s| - 1) as real && Sorted(s)
    ensures AtPosition(s, p) <= AtPosition(s, q)
  {
    hide Between;
    var lo, hi := p.Floor, q.Floor;
    InCell(s, p);
    InCell(s, q);
    if lo == hi && p != lo as real {
      BetweenMonotone(s[lo], s[lo + 1], p - lo as real, q - lo as real);
    }
  }

  /** On sorted input the quantile lies between the extremes and never falls as q rises, across ranks too. */
  lemma PercentileMonotone(s: seq<real>, p: real, q: real)
    requires s != [] && Sorted(s) && 0.0 <= p <= q <= 1.0
    ensures Percentile(s, p).Ok? && Percentile(s, q).Ok?
    ensures s[0] <= Percentile(s, p).value <= Percentile(s, q).value <= s[|s| - 1]
  {
    hide AtPosition, Position;
    if |s| > 1 {
      var n := |s| - 1;
      PositionMonotone(n, p, q);
      AtPositionMonotone(s, Position(n, p), Position(n, q));
      InCell(s, Position(n, p));
      InCell(s, Position(n, q));
    }
  }

  /** At the k-th of the evenly spaced ranks the quantile is exactly the k-th value. */
  lemma PercentileAtRank(s: seq<real>, k: nat)
    requires |s| >= 2 && k < |s|
    ensures var q := k as real / (|s| - 1) as real;
      0.0 <= q <= 1.0 && Percentile(s, q) == Ok(s[k])
  {
    var n := |s| - 1;
    var d, r := n as real, k as real;
    DivCompare(0.0, r, d);
    DivCompare(r, d, d);
    DivSelf(d);
    DivMul(r, d);
    assert Position(n, r / d) == r;
  }

  /** On evenly spaced values the quantile moves along the line, between ranks as well as on them. */
  lemma PercentileOfLine(s: seq<real>, a: real, d: real, q: real, pos: real)
    requires s != [] && 0.0 <= q <= 1.0 && pos == q * (|s| - 1) as real
    requires forall i :: 0 <= i < |s| ==> s[i] == a + d * i as real
    ensures Percentile(s, q) == Ok(a + d * pos)
  {
    hide Between;
    var n := |s| - 1;
    assert Position(n, q) == pos;
    if n == 0 {
      assert pos == 0.0;
      assert s[0] == a + d * (0 as real) == a;
    } else {
      AtLine(s, a, d, pos);
    }
  }

  lemma AtLine(s: seq<real>, a: real, d: real, pos: real)
    requires s != [] && 0.0 <= pos <= (|s| - 1) as real
    requires forall i :: 0 <= i < |s| ==> s[i] == a + d * i as real
    ensures AtPosition(s, pos) == a + d * pos
  {
    hide Between;
    var k := pos.Floor;
    if pos == k as real {
      assert s[k] == a + d * k as real;
    } else {
      var r, next := k as real, (k + 1) as real;
      assert next == r + 1.0;
      assert s[k] == a + d * r && s[k + 1] == a + d * next;
      OnLine(a, d, r, next, pos);
    }
  }

  lemma OnLine(a: real, d: real, r: real, next: real, pos: real)
    requires next == r + 1.0
    ensures Between(a + d * r, a + d * next, pos - r) == a + d * pos
  {
    assert (a + d * next) - (a + d * r) == d;
    assert d * (pos - r) == d * pos - d * r;
  }

  /** Pointwise larger input has a larger quantile. */
  lemma PercentilePointwise(s: seq<real>, t: seq<real>, q: real)
    requires s != [] && |s| == |t| && 0.0 <= q <= 1.0
    requires forall i :: 0 <= i < |s| ==> s[i] <= t[i]
    ensures Percentile(s, q).value <= Percentile(t, q).value
  {
    hide Between, Position;
    if |s| > 1 {
      var pos := Position(|s| - 1, q);
      var lo := pos.Floor;
      if pos != lo as real { BetweenPointwise(s[lo], s[lo + 1], t[lo], t[lo + 1], pos - lo as real); }
    }
  }

  // ---------------------------------------------------------------- |d| / sqrt(v) > z

  /** `abs(d) / sqrt(v) > z` for v > 0, in squares. */
  predicate Exceeds(d: real, v: real, z: real) {
    z < 0.0 || d * d > z * z * v
  }

  // ---------------------------------------------------------------- two proportions

  function Pooled(baseline: seq<real>, recent: seq<real>): real
    requires baseline != [] && recent != []
  {
    var n1, n2 := |baseline| as real, |recent| as real;
    (Mean(baseline) * n1 + Mean(recent) * n2) / (n1 + n2)
  }

  function PooledVariance(baseline: seq<real>, recent: seq<real>): real
    requires baseline != [] && recent != []
  {
    var p := Pooled(baseline, recent);
    p * (1.0 - p) * (1.0 / |baseline| as real + 1.0 / |recent| as real)
  }

  /** `_two_proportion_drift` */
  predicate TwoProportionDrift(baseline: seq<real>, recent: seq<real>, z: real) {
    if baseline == [] || recent == [] then false
    else if PooledVariance(baseline, recent) <= 0.0 then Mean(baseline) != Mean(recent)
    else Exceeds(Mean(recent) - Mean(baseline), PooledVariance(baseline, recent), z)
  }

  function Flipped(s: seq<real>): (r: seq<real>)
    ensures |r| == |s| && forall i :: 0 <= i < |s| ==> r[i] == 1.0 - s[i]
  {
    seq(|s|, i requires 0 <= i < |s| => 1.0 - s[i])
  }

  lemma {:induction false} SumFlipped(s: seq<real>)
    ensures Sum(Flipped(s)) == |s| as real - Sum(s)
  {
    if s != [] {
      SumFlipped(s[..|s| - 1]);
      assert Flipped(s)[..|s| - 1] == Flipped(s[..|s| - 1]);
    }
  }

  lemma MeanFlipped(s: seq<real>)
    requires s != []
    ensures Mean(Flipped(s)) == 1.0 - Mean(s)
  {
    SumFlipped(s);
    DivMul(Sum(s), |s| as real);
    DivUnique(|s| as real - Sum(s), |s| as real, 1.0 - Mean(s));
  }

  /** A pool is the mean of everything seen. */
  lemma PooledIsMean(baseline: seq<real>, recent: seq<real>)
    requires baseline != [] && recent != []
    ensures Pooled(baseline, recent) == (Sum(baseline) + Sum(recent)) / (|baseline| + |recent|) as real
  {
    hide Sum;
    var n1, n2 := |baseline| as real, |recent| as real;
    DivMul(Sum(baseline), n1);
    DivMul(Sum(recent), n2);
    assert Mean(baseline) * n1 + Mean(recent) * n2 == Sum(baseline) + Sum(recent);
  }

  lemma SquareOfOpposite(d: real)
    ensures (-d) * (-d) == d * d
  {
  }

  /** The verdict does not depend on which sample is called the baseline. */
  lemma DriftSymmetric(baseline: seq<real>, recent: seq<real>, z: real)
    ensures TwoProportionDrift(recent, baseline, z) == TwoProportionDrift(baseline, recent, z)
  {
    if baseline != [] && recent != [] {
      PooledIsMean(baseline, recent);
      PooledIsMean(recent, baseline);
      SquareOfOpposite(Mean(recent) - Mean(baseline));
    }
  }

  /** Nor on whether successes or failures are counted. */
  lemma DriftLabelInvariant(baseline: seq<real>, recent: seq<real>, z: real)
    ensures TwoProportionDrift(Flipped(baseline), Flipped(recent), z) == TwoProportionDrift(baseline, recent, z)
  {
    if baseline != [] && recent != [] {
      MeanFlipped(baseline);
      MeanFlipped(recent);
      PooledFlipped(baseline, recent);
      SquareOfOpposite(Mean(recent) - Mean(baseline));
    }
  }

  lemma PooledFlipped(baseline: seq<real>, recent: seq<real>)
    requires baseline != [] && recent != []
    ensures PooledVariance(Flipped(baseline), Flipped(recent)) == PooledVariance(baseline, recent)
  {
    hide Sum, Mean, Pooled;
    PooledIsMean(baseline, recent);
    PooledIsMean(Flipped(baseline), Flipped(recent));
    SumFlipped(baseline);
    SumFlipped(recent);
    var n, s := (|baseline| + |recent|) as real, Sum(baseline) + Sum(recent);
    DivMul(s, n);
    DivUnique(n - s, n, 1.0 - s / n);
  }

  ghost predicate Proportions(s: seq<real>) {
    forall i :: 0 <= i < |s| ==> 0.0 <= s[i] <= 1.0
  }

  /** The zero-variance branch never reports drift: without pooled variance the two samples have the same mean. */
  lemma NoVarianceNoDrift(baseline: seq<real>, recent: seq<real>, z: real)
    requires Proportions(baseline) && Proportions(recent)
    requires baseline != [] && recent != [] && PooledVariance(baseline, recent) <= 0.0
    ensures !TwoProportionDrift(baseline, recent, z)
  {
    SumBounds(baseline, 0.0, 1.0);
    SumBounds(recent, 0.0, 1.0);
    PooledIsMean(baseline, recent);
    var n1, n2, s1, s2 := |baseline| as real, |recent| as real, Sum(baseline), Sum(recent);
    DegeneratePool(n1, n2, s1, s2);
  }

  lemma DegeneratePool(n1: real, n2: real, s1: real, s2: real)
    requires n1 > 0.0 && n2 > 0.0 && 0.0 <= s1 <= n1 && 0.0 <= s2 <= n2
    requires var p := (s1 + s2) / (n1 + n2); p * (1.0 - p) * (1.0 / n1 + 1.0 / n2) <= 0.0
    ensures s1 / n1 == s2 / n2
  {
    var n, s := n1 + n2, s1 + s2;
    var p, w := s / n, 1.0 / n1 + 1.0 / n2;
    DivMul(s, n);
    DivCompare(0.0, s, n);
    DivCompare(s, n, n);
    DivSelf(n);
    ZeroSpread(p, w);
    if p == 0.0 {
      assert s1 == 0.0 && s2 == 0.0;
    } else {
      assert s1 == n1 && s2 == n2;
    }
  }

  lemma ZeroSpread(p: real, w: real)
    requires 0.0 <= p <= 1.0 && w > 0.0 && p * (1.0 - p) * w <= 0.0
    ensures p == 0.0 || p == 1.0
  {
    if 0.0 < p < 1.0 {
      MulPositive(p, 1.0 - p);
      MulPositive(p * (1.0 - p), w);
    }
  }

  function Repeat(x: real, n: nat): (r: seq<real>)
    ensures |r| == n && forall i :: 0 <= i < n ==> r[i] == x
  {
    seq(n, _ => x)
  }

  // ---------------------------------------------------------------- two means

  function Square(d: real): real {
    Scale(d, d)
  }

  function SquaredDeviations(s: seq<real>, m: real): real {
    if s == [] then 0.0 else SquaredDeviations(s[..|s| - 1], m) + Square(s[|s| - 1] - m)
  }

  /** `statistics.pvariance` */
  function Variance(s: seq<real>): real
    requires s != []
  {
    SquaredDeviations(s, Mean(s)) / |s| as real
  }

  /** `_two_sample_mean_drift` */
  predicate MeanDrift(baseline: seq<real>, recent: seq<real>, z: real) {
    if |baseline| < 2 || |recent| < 2 then false
    else
      var v := Variance(baseline) / |baseline| as real + Variance(recent) / |recent| as real;
      if v <= 0.0 then Mean(baseline) != Mean(recent)
      else Exceeds(Mean(recent) - Mean(baseline), v, z)
  }

  function Shifted(s: seq<real>, c: real): (r: seq<real>)
    ensures |r| == |s| && forall i :: 0 <= i < |s| ==> r[i] == s[i] + c
  {
    seq(|s|, i requires 0 <= i < |s| => s[i] + c)
  }

  lemma {:induction false} SumShifted(s: seq<real>, c: real)
    ensures Sum(Shifted(s, c)) == Sum(s) + c * |s| as real
  {
    if s != [] {
      SumShifted(s[..|s| - 1], c);
      assert Shifted(s, c)[..|s| - 1] == Shifted(s[..|s| - 1], c);
    }
  }

  lemma {:induction false} DeviationsShifted(s: seq<real>, m: real, c: real)
    ensures SquaredDeviations(Shifted(s, c), m + c) == SquaredDeviations(s, m)
  {
    if s != [] {
      DeviationsShifted(s[..|s| - 1], m, c);
      assert Shifted(s, c)[..|s| - 1] == Shifted(s[..|s| - 1], c);
    }
  }

  lemma MomentsShifted(s: seq<real>, c: real)
    requires s != []
    ensures Mean(Shifted(s, c)) == Mean(s) + c && Variance(Shifted(s, c)) == Variance(s)
  {
    SumShifted(s, c);
    DivMul(Sum(s), |s| as real);
    DivUnique(Sum(s) + c * |s| as real, |s| as real, Mean(s) + c);
    DeviationsShifted(s, Mean(s), c);
  }

  /** Adding the same delay to every latency changes no verdict. */
  lemma MeanDriftShiftInvariant(baseline: seq<real>, recent: seq<real>, c: real, z: real)
    ensures MeanDrift(Shifted(baseline, c), Shifted(recent, c), z) == MeanDrift(baseline, recent, z)
  {
    if |baseline| >= 2 && |recent| >= 2 {
      MomentsShifted(baseline, c);
      MomentsShifted(recent, c);
    }
  }
}
