/** Floats: the floating-point value kind, with its assertNotEqual (shared from
    Comparables) under the standard strategy and under an absolute-value
    comparator. Only integral operands are modelled. */
module Floats {
  import opened Outcomes
  import opened ComparisonStrategies
  import opened ErrorDescriptors
  import opened Comparables

  /** A float operand, restricted to integral values. */
  type Float = int

  function Abs(x: Float): (r: nat)
    ensures r == x || r == -x
  {
    if x < 0 then -x else x
  }

  /** The absolute-value comparator: compares magnitudes, ignoring signs. */
  function AbsValueCompare(a: Float, b: Float): (r: int)
    ensures -1 <= r <= 1
    ensures r == 0 <==> a == b || a == -b
    ensures r < 0 <==> Abs(a) < Abs(b)
  {
    Compare(Abs(a), Abs(b))
  }

  /** The comparator-based strategy the float tests are configured with. */
  const AbsValueStrategy: Strategy<Float> := ComparatorBased("AbsValueComparator", AbsValueCompare)

  /** Under the standard strategy assertNotEqual fails exactly on equal floats. */
  lemma StandardNotEqualFailsOnEqualValues(actual: Float, other: Float)
    ensures AssertNotEqual(Standard, Some(actual), other).Fail? <==> actual == other
    ensures actual == other ==>
              AssertNotEqual(Standard, Some(actual), other) ==
              Fail(ShouldNotBeEqual(actual, other, None))
  {
  }

  /** Under the absolute-value strategy assertNotEqual fails exactly when the
      operands are equal or opposite, and then names that strategy. */
  lemma AbsValueNotEqualFailsOnSameMagnitude(actual: Float, other: Float)
    ensures AssertNotEqual(AbsValueStrategy, Some(actual), other).Fail? <==>
            actual == other || actual == -other
    ensures (actual == other || actual == -other) ==>
              AssertNotEqual(AbsValueStrategy, Some(actual), other) ==
              Fail(ShouldNotBeEqual(actual, other, Some("AbsValueComparator")))
  {
  }

  /** The absolute-value strategy is coarser than the standard one: whenever
      assertNotEqual fails under the standard strategy it fails under the
      absolute-value strategy too, and some pair fails only there. */
  lemma AbsValueStrategyIsCoarser(actual: Float, other: Float)
    ensures AssertNotEqual(Standard, Some(actual), other).Fail? ==>
            AssertNotEqual(AbsValueStrategy, Some(actual), other).Fail?
    ensures AssertNotEqual(Standard, Some(6), -6).Pass? &&
            AssertNotEqual(AbsValueStrategy, Some(6), -6).Fail?
  {
  }

  // The scenarios of Floats_assertNotEqual_Test.

  lemma ShouldFailIfActualIsNull()
    ensures AssertNotEqual(Standard, None, 8) == Fail(ActualIsNull)
  {
  }

  lemma ShouldPassIfFloatsAreNotEqual()
    ensures AssertNotEqual(Standard, Some(8), 6) == Pass
  {
  }

  lemma ShouldFailIfFloatsAreEqual()
    ensures AssertNotEqual(Standard, Some(6), 6) == Fail(ShouldNotBeEqual(6, 6, None))
  {
  }

  lemma ShouldFailIfActualIsNullWhateverCustomComparisonStrategyIs()
    ensures AssertNotEqual(AbsValueStrategy, None, 8) == Fail(ActualIsNull)
  {
  }

  lemma ShouldPassIfNotEqualAccordingToCustomComparisonStrategy()
    ensures AssertNotEqual(AbsValueStrategy, Some(8), 6) == Pass
  {
  }

  lemma ShouldFailIfEqualAccordingToCustomComparisonStrategy()
    ensures AssertNotEqual(AbsValueStrategy, Some(6), -6) ==
            Fail(ShouldNotBeEqual(6, -6, Some("AbsValueComparator")))
  {
  }
}
