/** Go's numeric conversions, over exact reals and unbounded integers. */
module Numbers {
  /** Go's `int(x)` for a float64: truncation toward zero. */
  function Trunc(x: real): int {
    if x >= 0.0 then x.Floor else -((-x).Floor)
  }

  function MinReal(a: real, b: real): real { if a < b then a else b }

  function MinInt(a: int, b: int): int { if a < b then a else b }

  function MaxInt(a: int, b: int): int { if a > b then a else b }

  lemma TruncMonotone(x: real, y: real)
    requires x <= y
    ensures Trunc(x) <= Trunc(y)
  {
    if x < 0.0 {
      if y < 0.0 {
        assert (-y).Floor <= (-x).Floor;
      } else {
        assert (-x).Floor >= 0 && y.Floor >= 0;
      }
    }
  }

  lemma TruncBounds(x: real, lo: int, hi: int)
    requires lo as real <= x <= hi as real
    ensures lo <= Trunc(x) <= hi
  {
    TruncMonotone(lo as real, x);
    TruncMonotone(x, hi as real);
    TruncInt(lo);
    TruncInt(hi);
  }

  // Facts about products and quotients of reals, each proved on its own.

  lemma TimesSum(a: real, b: real, k: real)
    ensures (a + b) * k == a * k + b * k
  {
  }

  lemma Commute(a: real, b: real, c: real)
    ensures a * b * c == a * c * b
  {
  }

  lemma SumOfThree(k: real, a: real, b: real, c: real)
    ensures k * a + k * b + k * c == k * (a + b + c)
  {
    TimesSum(a, b, k);
    TimesSum(a + b, c, k);
  }

  lemma Regroup(a: real, b: real, c: real)
    ensures a * (b * c) == a * c * b
  {
  }

  /** Dividing first or multiplying first. */
  lemma ScaledQuotient(a: real, k: real, p: real)
    requires k != 0.0
    ensures a / k * p == a * (p / k)
  {
    var q, r := a / k, p / k;
    assert q * k == a && r * k == p;
    Regroup(q, r, k);
    assert q * (r * k) == q * k * r;
  }

  lemma ScaledBack(k: real, p: real)
    requires k != 0.0
    ensures k * (p / k) == p
  {
  }

  lemma CancelFactor(a: real, b: real, k: real)
    requires k != 0.0 && a * k == b * k
    ensures a == b
  {
    TimesSum(a, -b, k);
    assert (a - b) * k == 0.0;
  }

  /** `a / k` is the number that times `k` gives `a`. */
  lemma QuotientIs(a: real, k: real, q: real)
    requires k != 0.0 && q * k == a
    ensures a / k == q
  {
    assert a / k * k == a;
    CancelFactor(a / k, q, k);
  }

  lemma AddQuotients(a: real, b: real, k: real)
    requires k != 0.0
    ensures a / k + b / k == (a + b) / k
  {
    assert a / k * k == a && b / k * k == b;
    TimesSum(a / k, b / k, k);
    QuotientIs(a + b, k, a / k + b / k);
  }

  lemma SelfQuotient(k: real)
    requires k != 0.0
    ensures k / k == 1.0
  {
    QuotientIs(k, k, 1.0);
  }

  lemma ProductSign(a: real, b: real)
    ensures a > 0.0 && b > 0.0 ==> a * b > 0.0
    ensures a >= 0.0 && b >= 0.0 ==> a * b >= 0.0
  {
  }

  lemma ProductMonotone(a: real, b: real, k: real)
    requires a <= b && k >= 0.0
    ensures a * k <= b * k
  {
    TimesSum(a, b - a, k);
    ProductSign(b - a, k);
  }

  lemma CrossProduct(a: real, b: real, k: real)
    ensures a * k * b == b * k * a
  {
  }

  lemma QuotientSign(a: real, b: real)
    requires b > 0.0
    ensures a >= 0.0 ==> a / b >= 0.0
    ensures a > 0.0 ==> a / b > 0.0
    ensures a <= 0.0 ==> a / b <= 0.0
  {
  }

  lemma QuotientMonotone(a: real, b: real, k: real)
    requires k > 0.0 && a <= b
    ensures a / k <= b / k
  {
    AddQuotients(a, b - a, k);
    QuotientSign(b - a, k);
  }

  /** Comparing a quotient, or its numerator. */
  lemma QuotientAtLeast(a: real, n: real, q: real)
    requires n > 0.0
    ensures a / n >= q <==> a >= q * n
    ensures a / n > q <==> a > q * n
  {
    assert a / n * n == a;
    if a / n >= q {
      ProductMonotone(q, a / n, n);
    } else {
      ProductMonotone(a / n, q, n);
    }
    if a == q * n {
      QuotientIs(a, n, q);
    }
  }

  /** Comparing a ratio with tenths, in integers. */
  lemma TenthsCompare(part: int, whole: int, tenths: int)
    requires whole > 0
    ensures part as real / whole as real > tenths as real / 10.0 <==> 10 * part > tenths * whole
  {
    QuotientAtLeast(part as real, whole as real, tenths as real / 10.0);
    assert tenths as real / 10.0 * whole as real == (tenths * whole) as real / 10.0;
  }

  lemma TruncInt(n: int)
    ensures Trunc(n as real) == n
  {
    if n < 0 {
      assert -(n as real) == (-n) as real;
    }
  }
}
