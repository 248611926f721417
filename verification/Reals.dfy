/** The few facts of real arithmetic the solver is better told than asked. */
module Reals {

  lemma MulNonNegative(a: real, b: real)
    requires a >= 0.0 && b >= 0.0
    ensures a * b >= 0.0
  {
  }

  lemma MulPositive(a: real, b: real)
    requires a > 0.0 && b > 0.0
    ensures a * b > 0.0
  {
  }

  lemma PositiveFactor(a: real, b: real)
    requires a * b > 0.0 && b > 0.0
    ensures a > 0.0
  {
    if a <= 0.0 { MulNonNegative(-a, b); }
  }

  lemma MulAssociates(a: real, b: real, c: real)
    ensures a * (b * c) == (a * b) * c
  {
  }

  lemma MulMonotone(a: real, b: real, c: real)
    requires a <= b && c >= 0.0
    ensures a * c <= b * c
  {
    MulNonNegative(b - a, c);
  }

  lemma MulStrict(a: real, b: real, c: real)
    requires a < b && c > 0.0
    ensures a * c < b * c
  {
    MulPositive(b - a, c);
  }

  lemma DivMul(a: real, n: real)
    requires n != 0.0
    ensures (a / n) * n == a
  {
  }

  /** A quotient is what multiplies back to the dividend. */
  lemma DivUnique(a: real, n: real, q: real)
    requires n > 0.0 && q * n == a
    ensures a / n == q
  {
    DivMul(a, n);
    if a / n < q { MulStrict(a / n, q, n); }
    if a / n > q { MulStrict(q, a / n, n); }
  }

  lemma DivCompare(a: real, b: real, n: real)
    requires n > 0.0
    ensures a / n <= b / n <==> a <= b
    ensures a / n < b / n <==> a < b
  {
    DivMul(a, n);
    DivMul(b, n);
    if a / n < b / n { MulStrict(a / n, b / n, n); }
    if a / n > b / n { MulStrict(b / n, a / n, n); }
  }

  lemma DivSelf(n: real)
    requires n != 0.0
    ensures n / n == 1.0
  {
  }
}
