/** The equality verbs every comparable value kind shares: a null-guard on the
    actual value, then the comparison strategy's equality. */
module Comparables {
  import opened Outcomes
  import opened ComparisonStrategies
  import opened ErrorDescriptors

  /** assertEqual: fails when the actual value is null, whatever the strategy;
      otherwise passes exactly when the strategy judges actual and expected
      equal, and else reports them in (actual, expected) order. */
  function AssertEqual<T(==)>(strategy: Strategy<T>, actual: Option<T>, expected: T)
    : (r: Outcome<ErrorDescriptor<T>>)
    ensures r.Pass? <==> actual.Some? && AreEqual(strategy, actual.value, expected)
    ensures actual.None? ==> r == Fail(ActualIsNull)
    ensures actual.Some? && r.Fail? ==>
              r.error == ShouldBeEqual(actual.value, expected, Attached(strategy))
  {
    match actual
    case None => Fail(ActualIsNull)
    case Some(a) =>
      if AreEqual(strategy, a, expected) then Pass
      else Fail(ShouldBeEqual(a, expected, Attached(strategy)))
  }

  /** assertNotEqual: fails when the actual value is null, whatever the
      strategy; otherwise fails exactly when the strategy judges actual and
      other equal, reporting them in (actual, other) order. */
  function AssertNotEqual<T(==)>(strategy: Strategy<T>, actual: Option<T>, other: T)
    : (r: Outcome<ErrorDescriptor<T>>)
    ensures r.Pass? <==> actual.Some? && !AreEqual(strategy, actual.value, other)
    ensures actual.None? ==> r == Fail(ActualIsNull)
    ensures actual.Some? && r.Fail? ==>
              r.error == ShouldNotBeEqual(actual.value, other, Attached(strategy))
  {
    match actual
    case None => Fail(ActualIsNull)
    case Some(a) =>
      if AreEqual(strategy, a, other) then Fail(ShouldNotBeEqual(a, other, Attached(strategy)))
      else Pass
  }

  /** The null check comes before the strategy: a null actual gives the same
      strategy-independent failure from both verbs, whatever the strategies
      and the other operand. */
  lemma NullCheckedBeforeStrategy<T>(s1: Strategy<T>, s2: Strategy<T>, e1: T, e2: T)
    ensures AssertEqual(s1, None, e1) == AssertNotEqual(s2, None, e2) == Fail(ActualIsNull)
  {
  }

  /** Under one strategy and a non-null actual, assertEqual and assertNotEqual
      are exact complements. */
  lemma EqualAndNotEqualAreComplements<T>(s: Strategy<T>, actual: T, expected: T)
    ensures AssertEqual(s, Some(actual), expected).Pass? <==>
            AssertNotEqual(s, Some(actual), expected).Fail?
  {
  }

  /** A strategy is named in the failure exactly when it is not the standard one. */
  lemma StrategyAttachedOnlyWhenNonDefault<T>(s: Strategy<T>, actual: T, expected: T)
    ensures AssertEqual(s, Some(actual), expected).Fail? ==>
              (AssertEqual(s, Some(actual), expected).error.strategy.None? <==> s.Standard?)
    ensures AssertNotEqual(s, Some(actual), expected).Fail? ==>
              (AssertNotEqual(s, Some(actual), expected).error.strategy.None? <==> s.Standard?)
  {
  }
}
