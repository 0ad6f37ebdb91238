/** BigDecimals: the decimal value kind. Its assertEqual is the shared one from
    Comparables; what is particular to decimals is that standard equality sees
    the scale while the numeric comparator does not. */
module BigDecimals {
  import opened Outcomes
  import opened ComparisonStrategies
  import opened ErrorDescriptors
  import opened Comparables

  /** A BigDecimal: the number unscaled / 10^scale. Two decimals are equal as
      values of this datatype exactly when both parts are, so 1.000 and 1 differ. */
  datatype Decimal = Decimal(unscaled: int, scale: nat)

  const One := Decimal(1, 0)
  const Ten := Decimal(10, 0)
  const OneWith3Decimals := Decimal(1000, 3)

  function Pow10(n: nat): (r: nat)
    ensures r >= 1
  {
    if n == 0 then 1 else 10 * Pow10(n - 1)
  }

  lemma {:induction false} Pow10Add(m: nat, n: nat)
    ensures Pow10(m + n) == Pow10(m) * Pow10(n)
  {
    if n > 0 {
      Pow10Add(m, n - 1);
      calc {
        Pow10(m + n);
        10 * Pow10(m + n - 1);
        10 * (Pow10(m) * Pow10(n - 1));
        Pow10(m) * (10 * Pow10(n - 1));
        Pow10(m) * Pow10(n);
      }
    }
  }

  /** The number a decimal stands for. */
  function Value(d: Decimal): real {
    d.unscaled as real / Pow10(d.scale) as real
  }

  /** compareTo of BigDecimal: the sign of a - b as numbers, whatever the scales.
      Both sides are brought to the common scale a.scale + b.scale. */
  function CompareTo(a: Decimal, b: Decimal): (r: int)
    ensures -1 <= r <= 1
    ensures r < 0 <==> Value(a) < Value(b)
    ensures r == 0 <==> Value(a) == Value(b)
    ensures r > 0 <==> Value(a) > Value(b)
  {
    CrossMultiplied(a, b);
    Compare(a.unscaled * Pow10(b.scale), b.unscaled * Pow10(a.scale))
  }

  /** Comparing two decimals at their common scale is comparing their values. */
  lemma CrossMultiplied(a: Decimal, b: Decimal)
    ensures a.unscaled * Pow10(b.scale) < b.unscaled * Pow10(a.scale) <==> Value(a) < Value(b)
    ensures a.unscaled * Pow10(b.scale) == b.unscaled * Pow10(a.scale) <==> Value(a) == Value(b)
  {
    var x, y := a.unscaled as real, b.unscaled as real;
    var p, q := Pow10(a.scale) as real, Pow10(b.scale) as real;
    assert (a.unscaled * Pow10(b.scale)) as real == x * q;
    assert (b.unscaled * Pow10(a.scale)) as real == y * p;
    DivCompare(x, y, p, q);
  }

  lemma DivCompare(x: real, y: real, p: real, q: real)
    requires p > 0.0 && q > 0.0
    ensures x / p < y / q <==> x * q < y * p
    ensures x / p == y / q <==> x * q == y * p
  {
    var u, v := x / p, y / q;
    assert x * q == u * (p * q) && y * p == v * (p * q);
    if u < v {
      assert u * (p * q) < v * (p * q);
    } else if v < u {
      assert v * (p * q) < u * (p * q);
    }
  }

  /** The comparator-based strategy the decimal tests are configured with. */
  const NumericValueStrategy: Strategy<Decimal> := ComparatorBased("BigDecimalComparator", CompareTo)

  /** The same number written with k more trailing zeros (setScale upwards). */
  function Rescale(d: Decimal, k: nat): (r: Decimal)
    ensures r.scale == d.scale + k
    ensures Value(r) == Value(d)
  {
    ZerosAppendedKeepValue(d.unscaled, d.scale, k);
    Decimal(d.unscaled * Pow10(k), d.scale + k)
  }

  lemma ZerosAppendedKeepValue(u: int, s: nat, k: nat)
    ensures (u * Pow10(k)) as real / Pow10(s + k) as real == u as real / Pow10(s) as real
  {
    var ps, pk, psk := Pow10(s), Pow10(k), Pow10(s + k);
    Pow10Add(s, k);
    CastMul(u, pk);
    CastMul(ps, pk);
    CancelCommonFactor(u as real, ps as real, pk as real);
  }

  lemma CastMul(m: int, n: int)
    ensures (m * n) as real == m as real * n as real
  {
  }

  lemma CancelCommonFactor(x: real, p: real, q: real)
    requires p > 0.0 && q > 0.0
    ensures (x * q) / (p * q) == x / p
  {
    var v := x / p;
    assert x * q == v * (p * q);
  }

  /** A decimal with no trailing zero left to strip. */
  predicate Canonical(d: Decimal) {
    d.scale == 0 || d.unscaled % 10 != 0
  }

  /** The canonical writing of a decimal: trailing zeros of the fraction
      removed, down to scale 0. Every decimal is its canonical form rescaled. */
  function StripTrailingZeros(d: Decimal): (r: Decimal)
    ensures Canonical(r) && r.scale <= d.scale
    ensures Rescale(r, d.scale - r.scale) == d
    decreases d.scale
  {
    if d.scale > 0 && d.unscaled % 10 == 0 then
      var r := StripTrailingZeros(Decimal(d.unscaled / 10, d.scale - 1));
      assert Pow10(d.scale - r.scale) == 10 * Pow10(d.scale - 1 - r.scale);
      r
    else
      d
  }

  /** Multiplying both sides by a positive factor keeps the comparison. */
  lemma CompareScaled(x: int, y: int, c: int)
    requires c > 0
    ensures Compare(x * c, y * c) == Compare(x, y)
  {
    if x < y {
      assert x * c < y * c;
    } else if x > y {
      assert x * c > y * c;
    }
  }

  /** Appending trailing zeros to the left operand does not change compareTo. */
  lemma RescaleKeepsComparison(d: Decimal, e: Decimal, k: nat)
    ensures CompareTo(Rescale(d, k), e) == CompareTo(d, e)
  {
    var pd, pe, pk := Pow10(d.scale), Pow10(e.scale), Pow10(k);
    Pow10Add(d.scale, k);
    MulSwap(d.unscaled, pk, pe);
    MulAssoc(e.unscaled, pd, pk);
    CompareScaled(d.unscaled * pe, e.unscaled * pd, pk);
  }

  lemma MulSwap(x: int, p: int, q: int)
    ensures (x * p) * q == (x * q) * p
  {
  }

  /** compareTo is antisymmetric: swapping the operands negates the answer. */
  lemma CompareToAntisymmetric(a: Decimal, b: Decimal)
    ensures CompareTo(a, b) == -CompareTo(b, a)
  {
  }

  /** Two canonical decimals of the same value are the same decimal. */
  lemma CanonicalIsUnique(a: Decimal, b: Decimal)
    requires Canonical(a) && Canonical(b)
    requires CompareTo(a, b) == 0
    ensures a == b
  {
    if a.scale <= b.scale {
      CanonicalIsUniqueOrdered(a, b);
    } else {
      CompareToAntisymmetric(a, b);
      CanonicalIsUniqueOrdered(b, a);
    }
  }

  lemma CanonicalIsUniqueOrdered(a: Decimal, b: Decimal)
    requires Canonical(a) && Canonical(b)
    requires a.scale <= b.scale && CompareTo(a, b) == 0
    ensures a == b
  {
    var k := b.scale - a.scale;
    SameValueAtLargerScale(a, b);
    if k == 0 {
      assert Pow10(k) == 1;
    } else {
      var m := a.unscaled * Pow10(k - 1);
      assert b.unscaled == m * 10 by {
        MulAssoc(a.unscaled, Pow10(k - 1), 10);
      }
      TimesTenEndsInZero(m);
      assert false;
    }
  }

  /** Of two decimals with the same value, the one with the larger scale has
      the other's unscaled value with zeros appended. */
  lemma SameValueAtLargerScale(a: Decimal, b: Decimal)
    requires a.scale <= b.scale && CompareTo(a, b) == 0
    ensures b.unscaled == a.unscaled * Pow10(b.scale - a.scale)
  {
    var k := b.scale - a.scale;
    var pa, pk := Pow10(a.scale), Pow10(k);
    Pow10Add(a.scale, k);
    assert a.unscaled * (pa * pk) == b.unscaled * pa;
    MulAssoc(a.unscaled, pk, pa);
    CancelPositive(a.unscaled * pk, b.unscaled, pa);
  }

  lemma MulAssoc(x: int, p: int, q: int)
    ensures x * (p * q) == (x * p) * q
  {
  }

  lemma TimesTenEndsInZero(m: int)
    ensures (m * 10) % 10 == 0
  {
  }

  lemma CancelPositive(x: int, y: int, c: int)
    requires c > 0 && x * c == y * c
    ensures x == y
  {
    CompareScaled(x, y, c);
  }

  /** Numeric equality of decimals, as the comparator judges it, is exactly
      having the same canonical form: the scale is ignored, nothing else is. */
  lemma NumericEqualityIsSameCanonicalForm(a: Decimal, b: Decimal)
    ensures CompareTo(a, b) == 0 <==> StripTrailingZeros(a) == StripTrailingZeros(b)
  {
    var ra, rb := StripTrailingZeros(a), StripTrailingZeros(b);
    RescaleKeepsComparison(ra, b, a.scale - ra.scale);
    RescaleKeepsComparison(rb, ra, b.scale - rb.scale);
    CompareToAntisymmetric(ra, b);
    CompareToAntisymmetric(rb, ra);
    assert CompareTo(a, b) == CompareTo(ra, rb);
    if CompareTo(ra, rb) == 0 {
      CanonicalIsUnique(ra, rb);
    }
  }

  /** Under the standard strategy assertEqual on decimals is scale-sensitive:
      it passes exactly when both the unscaled value and the scale agree. */
  lemma StandardEqualityIsScaleSensitive(actual: Decimal, expected: Decimal)
    ensures AssertEqual(Standard, Some(actual), expected).Pass? <==>
            actual.unscaled == expected.unscaled && actual.scale == expected.scale
  {
  }

  /** Under the numeric comparator assertEqual passes exactly when the two
      decimals are the same number, that is, have the same canonical form. */
  lemma ComparatorEqualityIgnoresScale(actual: Decimal, expected: Decimal)
    ensures AssertEqual(NumericValueStrategy, Some(actual), expected).Pass? <==>
            StripTrailingZeros(actual) == StripTrailingZeros(expected)
  {
    NumericEqualityIsSameCanonicalForm(actual, expected);
  }

  /** Writing a decimal with extra trailing zeros separates the two strategies:
      the standard one reports ShouldBeEqual with no strategy, the comparator
      passes. */
  lemma TrailingZerosSeparateStrategies(d: Decimal, k: nat)
    requires k > 0
    ensures AssertEqual(Standard, Some(Rescale(d, k)), d) ==
            Fail(ShouldBeEqual(Rescale(d, k), d, None))
    ensures AssertEqual(NumericValueStrategy, Some(Rescale(d, k)), d) == Pass
  {
    RescaleKeepsComparison(d, d, k);
  }

  // The scenarios of BigDecimals_assertEqual_Test.

  lemma ShouldFailIfActualIsNull()
    ensures AssertEqual(Standard, None, One) == Fail(ActualIsNull)
  {
  }

  lemma ShouldPassIfBigDecimalsAreEqual()
    ensures AssertEqual(Standard, Some(One), One) == Pass
  {
  }

  lemma ShouldFailIfBigDecimalsAreNotEqual()
    ensures AssertEqual(Standard, Some(OneWith3Decimals), One) ==
            Fail(ShouldBeEqual(OneWith3Decimals, One, None))
  {
  }

  lemma ShouldFailIfActualIsNullWhateverCustomComparisonStrategyIs()
    ensures AssertEqual(NumericValueStrategy, None, One) == Fail(ActualIsNull)
  {
  }

  lemma ShouldPassIfEqualAccordingToCustomComparisonStrategy()
    ensures AssertEqual(NumericValueStrategy, Some(OneWith3Decimals), One) == Pass
  {
  }

  lemma ShouldFailIfNotEqualAccordingToCustomComparisonStrategy()
    ensures AssertEqual(NumericValueStrategy, Some(Ten), One) ==
            Fail(ShouldBeEqual(Ten, One, Some("BigDecimalComparator")))
  {
  }
}
