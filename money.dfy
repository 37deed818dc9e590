/** Exact money arithmetic for the retrofit.
    Amounts are integers in ten-thousandths of the currency unit, so that a
    line total with sub-cent digits (as WooCommerce may store) is representable
    and the per-line rounding check can fire. A tax rate is a natural number of
    millionths (20 % is 200000), which is also WooCommerce's four-decimal
    percentage (20.0000) scaled by 10000. */
module Money {

  /** Amount in ten-thousandths of the currency unit. */
  type Amount = int

  /** Tax rate in millionths (0.20 is 200000). */
  type Rate = nat

  const UnitsPerCent: int := 100
  const UnitsPerEuro: int := 10000
  const RateScale: int := 1000000

  function Abs(x: int): (r: nat)
    ensures r == x || r == -x
  {
    if x < 0 then -x else x
  }

  /** The integer nearest to a / b, halves rounded away from zero
      (PHP's round() with the default mode). */
  function RoundHalfAway(a: int, b: int): (r: int)
    requires b > 0
    ensures a >= 0 ==> r >= 0 && -b <= 2 * (a - b * r) < b
    ensures a < 0 ==> r <= 0 && -b < 2 * (a - b * r) <= b
  {
    if a >= 0 then DivBounds(2 * a + b, 2 * b); (2 * a + b) / (2 * b)
    else DivBounds(-2 * a + b, 2 * b); -((-2 * a + b) / (2 * b))
  }

  lemma DivBounds(n: int, d: int)
    requires n >= 0 && d > 0
    ensures n / d >= 0 && d * (n / d) <= n < d * (n / d) + d
  {
  }

  lemma MulAtLeast(d: int, k: int)
    requires d > 0 && k >= 1
    ensures d * k >= d
    decreases k
  {
    if k > 1 { MulAtLeast(d, k - 1); assert d * k == d * (k - 1) + d; }
  }

  /** Euclidean division is determined by n == d * q + r with 0 <= r < d. */
  lemma DivBy(n: int, d: int, q: int, r: int)
    requires d > 0 && n == d * q + r && 0 <= r < d
    ensures n / d == q && n % d == r
  {
    var q', r' := n / d, n % d;
    assert n == d * q' + r';
    var k := q - q';
    assert d * k == r' - r by { assert d * q - d * q' == d * k; }
    if k >= 1 { MulAtLeast(d, k); }
    if k <= -1 { MulAtLeast(d, -k); }
  }

  /** round(x, 2) where x = a / b currency units, result in Amount units. */
  function Round2(a: int, b: int): (r: Amount)
    requires b > 0
    ensures r % UnitsPerCent == 0
    ensures a >= 0 ==> r >= 0
  {
    var q := RoundHalfAway(a * UnitsPerEuro, b * UnitsPerCent);
    assert a >= 0 ==> q >= 0;
    assert (UnitsPerCent * q) % UnitsPerCent == 0;
    UnitsPerCent * q
  }

  /** round(ttc / (1 + rate), 2): the pre-tax part of an inclusive amount. */
  function PreTax(ttc: Amount, rate: Rate): (ht: Amount)
    ensures ht % UnitsPerCent == 0
    ensures ttc >= 0 ==> 0 <= ht
  {
    Round2(ttc * RateScale, (RateScale + rate) * UnitsPerEuro)
  }

  /** round(ttc - ht, 2): the tax part once the pre-tax part is known. */
  function TaxPart(ttc: Amount, ht: Amount): (tax: Amount)
    ensures tax % UnitsPerCent == 0
  {
    Round2(ttc - ht, UnitsPerEuro)
  }

  /** |ht + tax - ttc|, the rounding drift of one line split. */
  function Drift(ttc: Amount, rate: Rate): (d: nat)
  {
    var ht := PreTax(ttc, rate);
    Abs(ht + TaxPart(ttc, ht) - ttc)
  }

  /** A tax part recomputed as round2(ttc - ht) never drifts more than half a cent. */
  lemma TaxPartNearDifference(ttc: Amount, ht: Amount)
    ensures 2 * Abs(ht + TaxPart(ttc, ht) - ttc) <= UnitsPerCent
  {
    var a := (ttc - ht) * UnitsPerEuro;
    var b := UnitsPerEuro * UnitsPerCent;
    var q := RoundHalfAway(a, b);
    assert TaxPart(ttc, ht) == UnitsPerCent * q;
    assert a == (ttc - ht) * 10000;
    assert b == 10000 * 100;
  }

  /** The drift of a line split is at most half a cent. */
  lemma DriftAtMostHalfCent(ttc: Amount, rate: Rate)
    ensures 2 * Drift(ttc, rate) <= UnitsPerCent
  {
    TaxPartNearDifference(ttc, PreTax(ttc, rate));
  }

  /** A whole-cent amount splits with no drift at all: ht + tax == ttc. */
  lemma WholeCentsSplitExactly(ttc: Amount, rate: Rate)
    requires ttc % UnitsPerCent == 0
    ensures PreTax(ttc, rate) + TaxPart(ttc, PreTax(ttc, rate)) == ttc
    ensures Drift(ttc, rate) == 0
  {
    var ht := PreTax(ttc, rate);
    var diff := ttc - ht;
    assert diff % UnitsPerCent == 0;
    var c := diff / UnitsPerCent;
    assert diff == 100 * c;
    var q := RoundHalfAway(diff * UnitsPerEuro, UnitsPerEuro * UnitsPerCent);
    assert diff * UnitsPerEuro == 1000000 * c;
    RoundExactMultiple(c);
    assert q == c;
  }

  lemma RoundExactMultiple(c: int)
    ensures RoundHalfAway(1000000 * c, 1000000) == c
  {
  }

  /** An exact decimal m / 10^e, as PHP reads "0.0125" (without float error). */
  datatype Dec = Dec(mantissa: int, exponent: nat)

  function Pow10(e: nat): (p: nat)
    ensures p >= 1
  {
    if e == 0 then 1 else 10 * Pow10(e - 1)
  }

  /** x <= y on the values of two decimals. */
  predicate DecLeq(x: Dec, y: Dec)
  {
    x.mantissa * Pow10(y.exponent) <= y.mantissa * Pow10(x.exponent)
  }

  /** amount >= tol, an Amount compared with a decimal number of currency
      units, exactly: amount / 10000 >= m / 10^e. */
  predicate ReachesExactly(amount: Amount, tol: Dec)
  {
    amount * Pow10(tol.exponent) >= tol.mantissa * UnitsPerEuro
  }

  /** ceil(x / 10^e), by e ceiling divisions by ten. */
  function CeilShift(x: int, e: nat): int
    decreases e
  {
    if e == 0 then x else CeilShift(-((-x) / 10), e - 1)
  }

  /** The least amount that reaches a tolerance. */
  function Threshold(tol: Dec): int
  {
    CeilShift(tol.mantissa * UnitsPerEuro, tol.exponent)
  }

  /** amount >= tol, as the batch processor compares a drift with the tolerance. */
  predicate AtLeast(amount: Amount, tol: Dec)
  {
    amount >= Threshold(tol)
  }

  lemma {:induction false} CeilShiftExact(a: int, x: int, e: nat)
    ensures a * Pow10(e) >= x <==> a >= CeilShift(x, e)
    decreases e
  {
    if e > 0 {
      var c := -((-x) / 10);
      assert a * 10 >= x <==> a >= c;
      var p := Pow10(e - 1);
      assert a * Pow10(e) == (a * p) * 10;
      assert (a * p) * 10 >= x <==> a * p >= c;
      CeilShiftExact(a, c, e - 1);
    }
  }

  /** Comparing with the threshold is comparing with the exact decimal. */
  lemma AtLeastExact(amount: Amount, tol: Dec)
    ensures AtLeast(amount, tol) <==> ReachesExactly(amount, tol)
  {
    CeilShiftExact(amount, tol.mantissa * UnitsPerEuro, tol.exponent);
  }

  lemma {:induction false} CeilShiftPositive(x: int, e: nat)
    requires x > 0
    ensures CeilShift(x, e) > 0
    decreases e
  {
    if e > 0 { CeilShiftPositive(-((-x) / 10), e - 1); }
  }

  /** A positive tolerance is never reached by a zero drift. */
  lemma ZeroBelowPositive(tol: Dec)
    requires tol.mantissa > 0
    ensures !AtLeast(0, tol)
  {
    CeilShiftPositive(tol.mantissa * UnitsPerEuro, tol.exponent);
  }

  /** The smallest tolerance the validators admit, 0.001, is reached by a
      drift of ten units and by no smaller one. */
  lemma MinimumToleranceThreshold(d: Amount)
    ensures AtLeast(d, Dec(1, 3)) <==> d >= 10
  {
    assert CeilShift(10000, 3) == 10;
  }

  /// Worked examples (the admin page shows 30 -> 25.00 + 5.00 at 20 %).

  lemma ExampleThirtyAtTwenty()
    ensures PreTax(300000, 200000) == 250000
    ensures TaxPart(300000, 250000) == 50000
  {
  }

  lemma ExampleTenAtTwenty()
    ensures PreTax(100000, 200000) == 83300
    ensures TaxPart(100000, 83300) == 16700
  {
  }

  lemma ExampleTenOneAtTwenty()
    ensures PreTax(100100, 200000) == 83400
    ensures TaxPart(100100, 83400) == 16700
  {
  }

  lemma ExampleTenOneAtFivePointFive()
    ensures PreTax(100100, 55000) == 94900
    ensures TaxPart(100100, 94900) == 5200
    ensures Drift(100100, 55000) == 0
  {
  }

  /** A line total with sub-cent digits drifts: 0.0050 at 0 % becomes
      0.01 + (-0.01), off by half a cent, which reaches the tolerance 0.001. */
  lemma ExampleSubCentDrift()
    ensures PreTax(50, 0) == 100
    ensures TaxPart(50, 100) == -100
    ensures Drift(50, 0) == 50
    ensures AtLeast(Drift(50, 0), Dec(1, 3))
  {
  }
}
