/** Prices as arbitrary-precision decimals: conversion to minor units and discounts, whatever the trailing zeros. */
module Pricing {

  /** coef times ten to the power exp, as the decimal library keeps it. */
  datatype Decimal = Decimal(coef: int, exp: int)

  datatype Result = Ok(value: int) | Err

  const MAX_INT64 := 0x7fff_ffff_ffff_ffff

  function Pow10(n: nat): (p: nat)
    ensures p >= 1
  {
    if n == 0 then 1 else 10 * Pow10(n - 1)
  }

  /** Division that rounds toward zero. */
  function Quo(a: int, b: nat): int
    requires b > 0
  {
    if a >= 0 then a / b else -((-a) / b)
  }

  /** The same number at another exponent; digits below it are cut off. */
  function Rescale(d: Decimal, exp: int): Decimal {
    if exp <= d.exp then Decimal(d.coef * Pow10(d.exp - exp), exp) else Decimal(Quo(d.coef, Pow10(exp - d.exp)), exp)
  }

  function Min(a: int, b: int): int {
    if a <= b then a else b
  }

  /** Comparison at the smaller exponent, where nothing is cut off. */
  predicate Equal(a: Decimal, b: Decimal) {
    Rescale(a, Min(a.exp, b.exp)).coef == Rescale(b, Min(a.exp, b.exp)).coef
  }

  predicate Greater(a: Decimal, b: Decimal) {
    Rescale(a, Min(a.exp, b.exp)).coef > Rescale(b, Min(a.exp, b.exp)).coef
  }

  function Shift(d: Decimal, n: int): Decimal {
    d.(exp := d.exp + n)
  }

  function Truncate(d: Decimal): Decimal {
    if d.exp < 0 then Rescale(d, 0) else d
  }

  /** One digit more than wanted, five added away from zero, and that digit dropped again. */
  function Round(d: Decimal, places: int): Decimal {
    if d.exp == -places then d
    else
      var c := Rescale(d, -places - 1).coef;
      Decimal(if c < 0 then -((-c + 5) / 10) else (c + 5) / 10, -places)
  }

  function IntPart(d: Decimal): int {
    Rescale(d, 0).coef
  }

  function Whole(n: int): Decimal {
    Decimal(n, 0)
  }

  // --------------------------------------------------------------- operations

  function ProductPriceMinor(price: Decimal): Result {
    var minor := Shift(price, 2);
    if minor.coef < 0 || !Equal(minor, Truncate(minor)) || Greater(minor, Whole(MAX_INT64)) then Err
    else Ok(IntPart(minor))
  }

  predicate DiscountAccepted(discount: Decimal) {
    discount.coef > 0 && !Greater(discount, Whole(1)) && Equal(discount, Round(discount, 2))
  }

  function EffectivePriceMinor(priceMinor: int, discount: Decimal): Result {
    if priceMinor < 0 || !DiscountAccepted(discount) then Err
    else Ok(IntPart(Round(Decimal(priceMinor * discount.coef, discount.exp), 0)))
  }

  // ------------------------------------------------------------------- powers

  lemma {:induction false} Pow10Adds(a: nat, b: nat)
    ensures Pow10(a + b) == Pow10(a) * Pow10(b)
  {
    if a > 0 {
      Pow10Adds(a - 1, b);
      assert 10 * Pow10(a - 1) * Pow10(b) == 10 * (Pow10(a - 1) * Pow10(b));
    }
  }

  lemma MulDiv(n: int, p: nat)
    requires p > 0
    ensures (n * p) / p == n && (n * p) % p == 0
  {
    DivUnique(n * p, p, n, 0);
  }

  lemma DivUnique(x: int, p: nat, q: int, r: int)
    requires p > 0 && x == q * p + r && 0 <= r < p
    ensures x / p == q && x % p == r
  {
    var d := x / p - q;
    assert x == x / p * p + x % p;
    assert d * p == r - x % p;
  }

  lemma {:induction false} MulLess(a: int, b: int, p: nat)
    requires a < b && p > 0
    ensures a * p < b * p
  {
    if p > 1 {
      MulLess(a, b, p - 1);
      assert a * p == a * (p - 1) + a && b * p == b * (p - 1) + b;
    }
  }

  lemma MulLeq(a: int, b: int, p: nat)
    requires a <= b
    ensures a * p <= b * p
  {
    if a < b && p > 0 { MulLess(a, b, p); }
  }

  lemma DivNonNegative(a: nat, p: nat)
    requires p > 0
    ensures a / p >= 0
  {
  }

  lemma CancelPow(a: int, b: int, p: nat)
    requires p > 0
    ensures a * p == b * p <==> a == b
    ensures a * p > b * p <==> a > b
  {
    if a < b { MulLess(a, b, p); } else if b < a { MulLess(b, a, p); }
  }

  /** Comparing at any smaller exponent gives the same answer. */
  lemma CompareAt(a: Decimal, b: Decimal, exp: int)
    requires exp <= a.exp && exp <= b.exp
    ensures Equal(a, b) <==> Rescale(a, exp).coef == Rescale(b, exp).coef
    ensures Greater(a, b) <==> Rescale(a, exp).coef > Rescale(b, exp).coef
  {
    var m := Min(a.exp, b.exp);
    RescaleTwice(a, m, exp);
    RescaleTwice(b, m, exp);
    CancelPow(Rescale(a, m).coef, Rescale(b, m).coef, Pow10(m - exp));
  }

  lemma RescaleTwice(a: Decimal, m: int, exp: int)
    requires exp <= m <= a.exp
    ensures Rescale(a, exp).coef == Rescale(a, m).coef * Pow10(m - exp)
  {
    Pow10Adds(a.exp - m, m - exp);
    assert a.coef * (Pow10(a.exp - m) * Pow10(m - exp)) == a.coef * Pow10(a.exp - m) * Pow10(m - exp);
  }

  // ------------------------------------------------------------- minor prices

  /** A whole number equals a decimal exactly when the coefficients agree at the decimal's exponent. */
  lemma WholeEquals(n: int, d: Decimal)
    ensures Equal(d, Whole(n)) <==> if d.exp >= 0 then n == d.coef * Pow10(d.exp) else d.coef == n * Pow10(-d.exp)
    ensures Greater(d, Whole(n)) <==> if d.exp >= 0 then d.coef * Pow10(d.exp) > n else d.coef > n * Pow10(-d.exp)
  {
    assert Pow10(0) == 1;
  }

  lemma TruncateWhole(d: Decimal)
    requires d.coef >= 0
    ensures d.exp < 0 ==> Truncate(d) == Whole(d.coef / Pow10(-d.exp))
    ensures Equal(d, Truncate(d)) <==> d.exp >= 0 || d.coef % Pow10(-d.exp) == 0
  {
    if d.exp < 0 {
      var p := Pow10(-d.exp);
      WholeEquals(d.coef / p, d);
      assert d.coef == d.coef / p * p + d.coef % p;
    }
  }

  /**
   * The price is accepted exactly when a hundred times it is a whole number that fits, and then that number is the
   * result.
   */
  lemma MinorPriceIsExact(price: Decimal, m: int)
    ensures ProductPriceMinor(price) == Ok(m) <==> 0 <= m <= MAX_INT64 && Equal(Shift(price, 2), Whole(m))
  {
    var d := Shift(price, 2);
    WholeEquals(m, d);
    WholeEquals(MAX_INT64, d);
    assert Pow10(0) == 1;
    if d.coef < 0 {
      if m >= 0 { NegativeIsNotWhole(d, m); }
    } else {
      TruncateWhole(d);
      if d.exp < 0 {
        FractionIsExact(d, m);
      } else {
        assert d.coef * Pow10(d.exp) >= 0;
      }
    }
  }

  lemma NegativeIsNotWhole(d: Decimal, m: int)
    requires d.coef < 0 && m >= 0
    ensures !Equal(d, Whole(m))
  {
    WholeEquals(m, d);
    if d.exp >= 0 {
      CancelPow(d.coef, 0, Pow10(d.exp));
    } else {
      assert m * Pow10(-d.exp) >= 0;
    }
  }

  lemma FractionIsExact(d: Decimal, m: int)
    requires d.coef >= 0 && d.exp < 0
    ensures var p := Pow10(-d.exp);
            && IntPart(d) == d.coef / p
            && (d.coef == m * p <==> d.coef % p == 0 && m == d.coef / p)
            && (d.coef % p == 0 ==> (d.coef > MAX_INT64 * p <==> d.coef / p > MAX_INT64)) && d.coef / p >= 0
  {
    var p := Pow10(-d.exp);
    assert d.coef == d.coef / p * p + d.coef % p;
    DivNonNegative(d.coef, p);
    if d.coef == m * p { MulDiv(m, p); }
    if d.coef % p == 0 { CancelPow(d.coef / p, MAX_INT64, p); }
  }

  // ----------------------------------------------------------------- discounts

  /** A discount of h hundredths, in whatever notation. */
  predicate Hundredths(discount: Decimal, h: int) {
    Equal(discount, Decimal(h, -2))
  }

  lemma HundredthsShape(d: Decimal, h: int)
    ensures Hundredths(d, h) <==>
            if d.exp >= -2 then h == d.coef * Pow10(d.exp + 2) else d.coef == h * Pow10(-2 - d.exp)
  {
    assert Pow10(0) == 1;
  }

  lemma SmallPowers()
    ensures Pow10(0) == 1 && Pow10(1) == 10 && Pow10(2) == 100
  {
    assert Pow10(1) == 10 * Pow10(0);
    assert Pow10(2) == 10 * Pow10(1);
  }

  lemma {:induction false} Pow10Grows(n: nat)
    requires n >= 3
    ensures Pow10(n) >= 1000
  {
    SmallPowers();
    if n > 3 { Pow10Grows(n - 1); }
  }

  lemma RoundedFiner(d: Decimal)
    requires d.coef > 0 && d.exp > -2
    ensures Round(d, 2) == Decimal(d.coef * Pow10(d.exp + 2), -2)
  {
    SmallPowers();
    Pow10Adds(d.exp + 2, 1);
    assert d.coef * Pow10(d.exp + 3) == 10 * (d.coef * Pow10(d.exp + 2));
    assert d.coef * Pow10(d.exp + 2) > 0;
  }

  lemma RoundedCoarser(d: Decimal)
    requires d.coef > 0 && d.exp < -2
    ensures Round(d, 2) == Decimal((Quo(d.coef, Pow10(-3 - d.exp)) + 5) / 10, -2)
  {
    SmallPowers();
  }

  /** Rounding to hundredths is exact exactly on hundredths. */
  lemma RoundedIffHundredths(d: Decimal)
    requires d.coef > 0
    ensures Equal(d, Round(d, 2)) <==> Hundredths(d, Round(d, 2).coef)
    ensures d.exp >= -2 ==> Round(d, 2).coef == d.coef * Pow10(d.exp + 2)
    ensures d.exp < -2 ==> Round(d, 2).coef == (Quo(d.coef, Pow10(-3 - d.exp)) + 5) / 10
  {
    if d.exp > -2 {
      RoundedFiner(d);
    } else if d.exp < -2 {
      RoundedCoarser(d);
    } else {
      SmallPowers();
    }
  }

  lemma HundredthsRounds(d: Decimal, h: int)
    requires d.coef > 0 && Hundredths(d, h)
    ensures Round(d, 2).coef == h
  {
    HundredthsShape(d, h);
    RoundedIffHundredths(d);
    if d.exp < -2 {
      var n := -3 - d.exp;
      Pow10Adds(1, n);
      SmallPowers();
      assert d.coef == h * 10 * Pow10(n);
      MulDiv(h * 10, Pow10(n));
    }
  }

  lemma AtMostOne(d: Decimal, h: int)
    requires d.coef > 0 && Hundredths(d, h)
    ensures Greater(d, Whole(1)) <==> h > 100
  {
    var m := Min(d.exp, -2);
    CompareAt(d, Decimal(h, -2), m);
    CompareAt(d, Whole(1), m);
    Pow10Adds(2, -2 - m);
    SmallPowers();
    assert Rescale(Whole(1), m).coef == 100 * Pow10(-2 - m);
    CancelPow(h, 100, Pow10(-2 - m));
  }

  lemma PositiveHundredths(d: Decimal, h: int)
    requires Hundredths(d, h)
    ensures d.coef > 0 <==> h > 0
  {
    HundredthsShape(d, h);
    if d.exp >= -2 { CancelPow(d.coef, 0, Pow10(d.exp + 2)); } else { CancelPow(h, 0, Pow10(-2 - d.exp)); }
  }

  /** A discount is accepted exactly when it is one of the hundred rates 0.01 to 1.00, in any notation. */
  lemma DiscountAcceptedIff(d: Decimal)
    ensures DiscountAccepted(d) <==> exists h :: 1 <= h <= 100 && Hundredths(d, h)
  {
    if DiscountAccepted(d) {
      var h := Round(d, 2).coef;
      RoundedIffHundredths(d);
      AtMostOne(d, h);
      PositiveHundredths(d, h);
      assert Hundredths(d, h);
    }
    if h :| 1 <= h <= 100 && Hundredths(d, h) {
      PositiveHundredths(d, h);
      HundredthsRounds(d, h);
      RoundedIffHundredths(d);
      AtMostOne(d, h);
    }
  }

  // ---------------------------------------------------------- effective prices

  lemma HalfUp(x: nat)
    ensures (x / 10 + 5) / 10 == (x + 50) / 100
  {
  }

  lemma RateExponent(d: Decimal, h: nat)
    requires Hundredths(d, h) && d.coef > 0 && h <= 100
    ensures d.exp <= 0
  {
    if d.exp > 0 {
      HundredthsShape(d, h);
      Pow10Grows(d.exp + 2);
      MulLeq(1, d.coef, Pow10(d.exp + 2));
    }
  }

  /** The product at one decimal, with the rest cut off, is that of the hundredths. */
  lemma ProductDigits(price: nat, d: Decimal, h: nat)
    requires Hundredths(d, h) && d.coef > 0 && h <= 100 && d.exp < 0
    ensures Rescale(Decimal(price * d.coef, d.exp), -1).coef == price * h / 10
  {
    HundredthsShape(d, h);
    SmallPowers();
    if d.exp == -1 {
      TenTimes(price, d.coef);
    } else if d.exp == -2 {
      assert price * d.coef == price * h;
      assert price * h >= 0;
    } else {
      var p := Pow10(-2 - d.exp);
      assert price * (h * p) == price * h * p;
      LongProduct(price, h, -2 - d.exp);
    }
  }

  lemma TenTimes(a: nat, b: nat)
    ensures a * (b * 10) / 10 == a * b
  {
    assert a * (b * 10) == a * b * 10;
    MulDiv(a * b, 10);
  }

  lemma LongProduct(price: nat, h: nat, n: nat)
    ensures Quo(price * h * Pow10(n), Pow10(n + 1)) == price * h / 10
  {
    var x, p := price * h, Pow10(n);
    Pow10Adds(1, n);
    SmallPowers();
    assert Pow10(n + 1) == 10 * p;
    assert x * p == (x / 10) * (10 * p) + (x % 10) * p by {
      assert x == 10 * (x / 10) + x % 10;
      assert (10 * (x / 10) + x % 10) * p == (x / 10) * (10 * p) + (x % 10) * p;
    }
    assert 0 <= (x % 10) * p < 10 * p by {
      MulLess(x % 10, 10, p);
    }
    DivUnique(x * p, 10 * p, x / 10, (x % 10) * p);
  }

  /**
   * The effective price is the discounted price rounded half up, in any notation of the discount: it depends only on
   * the hundredths, is off by at most half a minor unit, and lies between zero and the list price.
   */
  lemma EffectivePriceIsHalfUp(price: int, d: Decimal, h: int)
    requires price >= 0 && 1 <= h <= 100 && Hundredths(d, h)
    ensures EffectivePriceMinor(price, d) == Ok((price * h + 50) / 100)
    ensures var r := (price * h + 50) / 100; -50 <= 100 * r - price * h <= 50 && 0 <= r <= price
  {
    DiscountAcceptedIff(d);
    PositiveHundredths(d, h);
    SmallPowers();
    EffectiveBounds(price, h);
    RateExponent(d, h);
    if d.exp == 0 {
      HundredthsShape(d, h);
      assert d.coef == 1;
    } else {
      ProductDigits(price, d, h);
      HalfUp(price * h);
      assert price * h / 10 >= 0;
    }
  }

  lemma EffectiveBounds(price: nat, h: nat)
    requires 1 <= h <= 100
    ensures 0 <= price * h <= price * 100
    ensures var r := (price * h + 50) / 100; -50 <= 100 * r - price * h <= 50 && 0 <= r <= price
  {
    assert price * 100 - price * h == price * (100 - h);
    assert price * (100 - h) >= 0;
  }

  /** A higher price or a higher rate never lowers the effective price, and a price that fits still fits. */
  lemma EffectivePriceMonotone(p: int, d: Decimal, h: int, q: int, e: Decimal, k: int)
    requires 0 <= p <= q <= MAX_INT64 && 1 <= h <= k <= 100 && Hundredths(d, h) && Hundredths(e, k)
    ensures EffectivePriceMinor(p, d).Ok? && EffectivePriceMinor(q, e).Ok?
    ensures 0 <= EffectivePriceMinor(p, d).value <= EffectivePriceMinor(q, e).value <= MAX_INT64
  {
    EffectivePriceIsHalfUp(p, d, h);
    EffectivePriceIsHalfUp(q, e, k);
    MulLeq(p, q, h);
    MulLeq(h, k, q);
    HalfUpMonotone(p * h, q * k);
  }

  lemma HalfUpMonotone(x: int, y: int)
    requires x <= y
    ensures (x + 50) / 100 <= (y + 50) / 100
  {
  }
}
