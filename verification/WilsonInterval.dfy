/** The 95% Wilson score interval in parts per million, over the reals. */
module WilsonInterval {

  const Z := 1.959963984540054

  const PPM := 1000000.0

  /** The square root, wherever there is one. */
  ghost predicate IsSquareRoot(sqrt: real -> real) {
    forall x | x >= 0.0 :: sqrt(x) >= 0.0 && sqrt(x) * sqrt(x) == x
  }

  /** Rounding to the nearest integer, halves up. */
  function Round(x: real): int {
    (x + 0.5).Floor
  }

  datatype Interval = Interval(lower: int, upper: int)

  function Denominator(n: real): real
    requires n > 0.0
  {
    1.0 + Z * Z / n
  }

  function Center(n: real, p: real): real
    requires n > 0.0 && Denominator(n) > 0.0
  {
    (p + Z * Z / (2.0 * n)) / Denominator(n)
  }

  function Radicand(n: real, p: real): real
    requires n > 0.0
  {
    (p * (1.0 - p) + Z * Z / (4.0 * n)) / n
  }

  function Margin(sqrt: real -> real, n: real, p: real): real
    requires n > 0.0 && Denominator(n) > 0.0
  {
    Z * sqrt(Radicand(n, p)) / Denominator(n)
  }

  function Wilson95(sqrt: real -> real, successes: nat, total: nat): Interval {
    if total == 0 then Interval(0, 1000000)
    else
      var n := total as real;
      var p := successes as real / n;
      DenominatorPositive(n);
      var low, high := Center(n, p) - Margin(sqrt, n, p), Center(n, p) + Margin(sqrt, n, p);
      Interval(Round((if low > 0.0 then low else 0.0) * PPM), Round((if high < 1.0 then high else 1.0) * PPM))
  }

  lemma DenominatorPositive(n: real)
    requires n > 0.0
    ensures Denominator(n) > 1.0
  {
    QuotientPositive(Z * Z, n);
  }

  lemma QuotientPositive(q: real, n: real)
    requires q > 0.0 && n > 0.0
    ensures q / n > 0.0
  {
    assert (q / n) * n == q;
    if q / n <= 0.0 {
      ProductNonNegative(-(q / n), n);
    }
  }

  /** The success rate in parts per million. */
  function RatePpm(successes: nat, total: nat): int {
    if total == 0 then 0 else Round(successes as real * PPM / total as real)
  }

  lemma RoundMonotone(x: real, y: real)
    requires x <= y
    ensures Round(x) <= Round(y)
  {}

  lemma ProductNonNegative(x: real, y: real)
    requires x >= 0.0 && y >= 0.0
    ensures x * y >= 0.0
  {}

  lemma ProductPositive(x: real, y: real)
    requires x > 0.0 && y > 0.0
    ensures x * y > 0.0
  {}

  /** A nonnegative number is at least every number whose square is not larger. */
  lemma SquaresBound(d: real, w: real)
    requires w >= 0.0 && d * d <= w * w
    ensures -w <= d <= w
  {
    assert (d - w) * (d + w) == d * d - w * w;
    assert (-d - w) * (-d + w) == d * d - w * w;
    if d > w {
      ProductPositive(d - w, d + w);
    }
    if d < -w {
      ProductPositive(-d - w, -d + w);
    }
  }

  /** The heart of it: the distance from the rate to the centre is at most the margin. */
  lemma RateWithin(p: real, a: real, w: real)
    requires 0.0 <= p <= 1.0 && a >= 0.0 && w >= 0.0
    requires w * w == a * (p * (1.0 - p) + a / 4.0)
    ensures -w <= a * (p - 0.5) <= w
  {
    var d := a * (p - 0.5);
    var spread := p * (1.0 - p);
    ProductNonNegative(p, 1.0 - p);
    ProductNonNegative(a, spread);
    ProductNonNegative(a * spread, 1.0 + a);
    assert w * w - d * d == a * spread * (1.0 + a) by {
      assert (p - 0.5) * (p - 0.5) == 0.25 - spread;
      assert d * d == a * a * (0.25 - spread) by {
        assert d * d == (a * a) * ((p - 0.5) * (p - 0.5));
      }
      assert w * w == a * spread + a * a / 4.0;
    }
    SquaresBound(d, w);
  }

  lemma DivideBounds(q: real, w: real, d: real, p: real)
    requires d > 0.0 && q - w <= p * d <= q + w
    ensures q / d - w / d <= p <= q / d + w / d
  {
    var low, high := q / d - w / d, q / d + w / d;
    assert (q / d) * d == q && (w / d) * d == w;
    assert low * d == q - w by {
      assert low * d == (q / d) * d - (w / d) * d;
    }
    assert high * d == q + w by {
      assert high * d == (q / d) * d + (w / d) * d;
    }
    assert (low - p) * d == low * d - p * d;
    assert (p - high) * d == p * d - high * d;
    if low > p {
      ProductPositive(low - p, d);
    }
    if high < p {
      ProductPositive(p - high, d);
    }
  }

  lemma QuotientOfProduct(q: real, n: real, k: real)
    requires n > 0.0 && k > 0.0
    ensures n * k > 0.0 && k * n > 0.0 && q / (k * n) == (q / n) / k
  {
    ProductPositive(n, k);
    assert (q / (k * n)) * (k * n) == q;
    assert ((q / n) / k) * k == q / n;
    assert (q / n) * n == q;
  }

  lemma MoveDivision(q: real, b: real, n: real)
    requires n > 0.0
    ensures q * (b / n) == (q / n) * b
  {
    assert q * (b / n) == q * b / n;
  }

  lemma SquareOfProduct(z: real, r: real, x: real)
    requires r * r == x
    ensures (z * r) * (z * r) == (z * z) * x
  {
    assert (z * r) * (z * r) == (z * z) * (r * r);
  }

  lemma Distribute(p: real, a: real)
    ensures p * (1.0 + a) == p + a * p
    ensures a * (p - 0.5) == a * p - a / 2.0
  {}

  /** The square of the margin's numerator, in terms of a = z squared over n. */
  lemma MarginSquared(n: real, p: real, r: real, a: real)
    requires n > 0.0 && r * r == Radicand(n, p) && a == Z * Z / n
    ensures (Z * r) * (Z * r) == a * (p * (1.0 - p) + a / 4.0)
  {
    SquareOfProduct(Z, r, Radicand(n, p));
    QuotientOfProduct(Z * Z, n, 4.0);
    MoveDivision(Z * Z, p * (1.0 - p) + a / 4.0, n);
  }

  lemma RadicandNonNegative(n: real, p: real)
    requires n > 0.0 && 0.0 <= p <= 1.0
    ensures Radicand(n, p) >= 0.0
  {
    ProductNonNegative(p, 1.0 - p);
    QuotientPositive(Z * Z, 4.0 * n);
    QuotientPositive(p * (1.0 - p) + Z * Z / (4.0 * n), n);
  }

  lemma SameQuotient(x: real, y: real, d: real)
    requires x == y && d != 0.0
    ensures x / d == y / d
  {}

  /** The observed rate lies between the unrounded bounds. */
  lemma RateBetween(sqrt: real -> real, n: real, p: real)
    requires IsSquareRoot(sqrt) && n > 0.0 && 0.0 <= p <= 1.0 && Denominator(n) > 0.0
    ensures Center(n, p) - Margin(sqrt, n, p) <= p <= Center(n, p) + Margin(sqrt, n, p)
  {
    var a := Z * Z / n;
    var r := sqrt(Radicand(n, p));
    RadicandNonNegative(n, p);
    QuotientPositive(Z * Z, n);
    MarginSquared(n, p, r, a);
    RateWithin(p, a, Z * r);
    QuotientOfProduct(Z * Z, n, 2.0);
    Distribute(p, a);
    SameQuotient(p + Z * Z / (2.0 * n), p + a / 2.0, 1.0 + a);
    DivideBounds(p + a / 2.0, Z * r, 1.0 + a, p);
  }

  lemma RateIsFraction(successes: nat, total: nat)
    requires successes <= total && total > 0
    ensures var p := successes as real / total as real;
      0.0 <= p <= 1.0 && RatePpm(successes, total) == Round(p * PPM)
  {
    var n, s := total as real, successes as real;
    var p := s / n;
    assert p * n == s;
    assert (p - 1.0) * n == p * n - n;
    assert (-p) * n == -(p * n);
    if p > 1.0 {
      ProductPositive(p - 1.0, n);
    }
    if p < 0.0 {
      ProductPositive(-p, n);
    }
    MoveDivision(PPM, s, n);
    MoveDivision(s, PPM, n);
  }

  /** After rounding, the bounds still enclose the rounded rate, and stay between none and all. */
  lemma WilsonEncloses(sqrt: real -> real, successes: nat, total: nat)
    requires IsSquareRoot(sqrt) && successes <= total
    ensures var i := Wilson95(sqrt, successes, total);
      0 <= i.lower <= RatePpm(successes, total) <= i.upper <= 1000000
  {
    if total > 0 {
      var n := total as real;
      var p := successes as real / n;
      RateIsFraction(successes, total);
      DenominatorPositive(n);
      RateBetween(sqrt, n, p);
      var low, high := Center(n, p) - Margin(sqrt, n, p), Center(n, p) + Margin(sqrt, n, p);
      RoundEncloses(if low > 0.0 then low else 0.0, p, if high < 1.0 then high else 1.0);
    }
  }

  lemma RoundEncloses(low: real, p: real, high: real)
    requires 0.0 <= low <= p <= high <= 1.0
    ensures 0 <= Round(low * PPM) <= Round(p * PPM) <= Round(high * PPM) <= 1000000
  {
    RoundMonotone(low * PPM, p * PPM);
    RoundMonotone(p * PPM, high * PPM);
    assert Round(PPM) == 1000000;
    RoundMonotone(high * PPM, PPM);
  }
}
