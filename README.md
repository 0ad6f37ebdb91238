# Comparison strategies of assertj-core's internal assertion verbs

This project models, in Dafny, the decision contract of three assertion verbs
of assertj-core's internal layer, as their tests pin it down:

- `BigDecimals.assertEqual` under the standard comparison strategy and under a
  comparator-based strategy that compares decimals by numeric value;
- `Floats.assertNotEqual` under the standard strategy and under an
  absolute-value comparator;
- `Files.assertCanRead`, a null-guard followed by the file's readability probe.

Each verb is a pure function that returns an `Outcome`: `Pass` for a call that
returns normally, or `Fail(descriptor)` for a call that reports exactly one
failure. The descriptor is one of `ActualIsNull`, `ShouldBeEqual(actual,
expected, strategy)`, `ShouldNotBeEqual(actual, other, strategy)` or
`ShouldBeReadable(actual)`. A null actual is `None`.

Layout, one module per component:

- `outcomes.dfy` (`Outcomes`): `Option` and `Outcome`.
- `strategies.dfy` (`ComparisonStrategies`): `Strategy<T>`, which is either `Standard` (natural equality) or `ComparatorBased(description, compare)`, whose equality is "the comparator answers 0". A failure records the strategy's description, or nothing for the standard strategy.
- `errors.dfy` (`ErrorDescriptors`): the failure records.
- `comparables.dfy` (`Comparables`): the shared `assertEqual`/`assertNotEqual`. In assertj both verbs live in the common superclass of the numeric kinds.
- `big_decimals.dfy` (`BigDecimals`): a decimal is `(unscaled, scale)`. Standard equality is structural, so 1.000 is not 1. The comparator is `compareTo`, which brings both operands to a common scale. Its answer is proved to be the sign of the difference of the two numeric values. Its equality is also proved to be exactly "same canonical form", that is, trailing zeros stripped.
- `floats.dfy` (`Floats`): float operands as integers, plus the absolute-value comparator.
- `files.dfy` (`Files`): a file is a record whose `canRead` field is the probe's answer.

Each test method of the three test classes becomes a lemma of the same name
in its module. The general lemmas beside them state the property that each
scenario is an instance of.

## Model

| member | source | states |
|---|---|---|
| ComparisonStrategies.AreEqual | src/test/java/org/assertj/core/internal/bigdecimals/BigDecimals_assertEqual_Test.java:54-88 | the standard strategy's equality is natural equality; a comparator-based strategy's equality is its comparator answering zero |
| ComparisonStrategies.Attached | src/test/java/org/assertj/core/internal/bigdecimals/BigDecimals_assertEqual_Test.java:54-88 | a failure records no strategy for the standard strategy, and the comparator's description for a comparator-based one |
| ComparisonStrategies.ConsistentComparatorAgreesWithStandard | src/test/java/org/assertj/core/internal/bigdecimals/BigDecimals_assertEqual_Test.java:54-88 | a comparator that answers zero exactly on equal values gives the same equality as the standard strategy |
| BigDecimals.CompareTo | src/test/java/org/assertj/core/internal/bigdecimals/BigDecimals_assertEqual_Test.java:72-88 | the numeric comparator answers -1, 0 or 1 as the first decimal's value is below, equal to or above the second's, whatever the scales |
| BigDecimals.Rescale | src/test/java/org/assertj/core/internal/bigdecimals/BigDecimals_assertEqual_Test.java:41 | appending k trailing zeros raises the scale by k and keeps the decimal's value |
| Floats.AbsValueCompare | src/test/java/org/assertj/core/internal/floats/Floats_assertNotEqual_Test.java:66-81 | the absolute-value comparator answers 0 iff the operands are equal or opposite, and a negative number iff the first has the smaller magnitude |
| Comparables.AssertEqual | src/test/java/org/assertj/core/internal/bigdecimals/BigDecimals_assertEqual_Test.java:43-88 | a null actual fails with ActualIsNull; otherwise the call passes iff the strategy judges actual and expected equal, and a failure is ShouldBeEqual(actual, expected) carrying the strategy |
| Comparables.AssertNotEqual | src/test/java/org/assertj/core/internal/floats/Floats_assertNotEqual_Test.java:37-81 | a null actual fails with ActualIsNull; otherwise the call fails iff the strategy judges the operands equal, with ShouldNotBeEqual(actual, other) carrying the strategy |
| Comparables.NullCheckedBeforeStrategy | src/test/java/org/assertj/core/internal/bigdecimals/BigDecimals_assertEqual_Test.java:43-70 | for every pair of strategies and every other operand, a null actual gives the same ActualIsNull failure from both verbs |
| Comparables.EqualAndNotEqualAreComplements | src/test/java/org/assertj/core/internal/floats/Floats_assertNotEqual_Test.java:43-58 | for a non-null actual under one strategy, assertEqual passes iff assertNotEqual fails |
| Comparables.StrategyAttachedOnlyWhenNonDefault | src/test/java/org/assertj/core/internal/bigdecimals/BigDecimals_assertEqual_Test.java:54-88 | a failure's descriptor names a strategy iff the strategy is not the standard one |
| BigDecimals.StripTrailingZeros | src/test/java/org/assertj/core/internal/bigdecimals/BigDecimals_assertEqual_Test.java:41 | the canonical form has no trailing zero left, and the decimal is its canonical form with zeros appended |
| BigDecimals.RescaleKeepsComparison | src/test/java/org/assertj/core/internal/bigdecimals/BigDecimals_assertEqual_Test.java:72-75 | appending trailing zeros to a decimal does not change how compareTo ranks it against any other decimal |
| BigDecimals.CanonicalIsUnique | src/test/java/org/assertj/core/internal/bigdecimals/BigDecimals_assertEqual_Test.java:72-75 | two canonical decimals that compareTo judges equal are the same decimal |
| BigDecimals.NumericEqualityIsSameCanonicalForm | src/test/java/org/assertj/core/internal/bigdecimals/BigDecimals_assertEqual_Test.java:72-88 | compareTo answers 0 iff the two decimals have the same canonical form |
| BigDecimals.StandardEqualityIsScaleSensitive | src/test/java/org/assertj/core/internal/bigdecimals/BigDecimals_assertEqual_Test.java:54-64 | under the standard strategy assertEqual passes iff the unscaled values and the scales both agree |
| BigDecimals.ComparatorEqualityIgnoresScale | src/test/java/org/assertj/core/internal/bigdecimals/BigDecimals_assertEqual_Test.java:72-88 | under the numeric comparator assertEqual passes iff the decimals have the same canonical form |
| BigDecimals.TrailingZerosSeparateStrategies | src/test/java/org/assertj/core/internal/bigdecimals/BigDecimals_assertEqual_Test.java:41-75 | for every decimal d and every k > 0, d with k more zeros vs d fails under the standard strategy with ShouldBeEqual carrying no strategy, and passes under the comparator |
| BigDecimals.ShouldFailIfActualIsNull | src/test/java/org/assertj/core/internal/bigdecimals/BigDecimals_assertEqual_Test.java:43-47 | null vs ONE fails with ActualIsNull under the standard strategy |
| BigDecimals.ShouldPassIfBigDecimalsAreEqual | src/test/java/org/assertj/core/internal/bigdecimals/BigDecimals_assertEqual_Test.java:49-52 | ONE vs ONE passes |
| BigDecimals.ShouldFailIfBigDecimalsAreNotEqual | src/test/java/org/assertj/core/internal/bigdecimals/BigDecimals_assertEqual_Test.java:54-64 | 1.000 vs ONE fails with ShouldBeEqual(1.000, ONE) carrying no strategy |
| BigDecimals.ShouldFailIfActualIsNullWhateverCustomComparisonStrategyIs | src/test/java/org/assertj/core/internal/bigdecimals/BigDecimals_assertEqual_Test.java:66-70 | null vs ONE fails with ActualIsNull under the comparator as well |
| BigDecimals.ShouldPassIfEqualAccordingToCustomComparisonStrategy | src/test/java/org/assertj/core/internal/bigdecimals/BigDecimals_assertEqual_Test.java:72-75 | 1.000 vs ONE passes under the comparator |
| BigDecimals.ShouldFailIfNotEqualAccordingToCustomComparisonStrategy | src/test/java/org/assertj/core/internal/bigdecimals/BigDecimals_assertEqual_Test.java:77-88 | TEN vs ONE fails under the comparator with ShouldBeEqual(TEN, ONE) carrying that strategy |
| Floats.StandardNotEqualFailsOnEqualValues | src/test/java/org/assertj/core/internal/floats/Floats_assertNotEqual_Test.java:43-58 | under the standard strategy assertNotEqual fails iff the operands are equal, with ShouldNotBeEqual carrying no strategy |
| Floats.AbsValueNotEqualFailsOnSameMagnitude | src/test/java/org/assertj/core/internal/floats/Floats_assertNotEqual_Test.java:66-81 | under the absolute-value strategy assertNotEqual fails iff the operands are equal or opposite, with ShouldNotBeEqual carrying that strategy |
| Floats.AbsValueStrategyIsCoarser | src/test/java/org/assertj/core/internal/floats/Floats_assertNotEqual_Test.java:43-81 | every pair that fails under the standard strategy also fails under the absolute-value strategy, and 6 vs -6 fails only under the latter |
| Floats.ShouldFailIfActualIsNull | src/test/java/org/assertj/core/internal/floats/Floats_assertNotEqual_Test.java:37-41 | null vs 8 fails with ActualIsNull under the standard strategy |
| Floats.ShouldPassIfFloatsAreNotEqual | src/test/java/org/assertj/core/internal/floats/Floats_assertNotEqual_Test.java:43-46 | 8 vs 6 passes under the standard strategy |
| Floats.ShouldFailIfFloatsAreEqual | src/test/java/org/assertj/core/internal/floats/Floats_assertNotEqual_Test.java:48-58 | 6 vs 6 fails with ShouldNotBeEqual(6, 6) carrying no strategy |
| Floats.ShouldFailIfActualIsNullWhateverCustomComparisonStrategyIs | src/test/java/org/assertj/core/internal/floats/Floats_assertNotEqual_Test.java:60-64 | null vs 8 fails with ActualIsNull under the absolute-value strategy |
| Floats.ShouldPassIfNotEqualAccordingToCustomComparisonStrategy | src/test/java/org/assertj/core/internal/floats/Floats_assertNotEqual_Test.java:66-69 | 8 vs 6 passes under the absolute-value strategy |
| Floats.ShouldFailIfEqualAccordingToCustomComparisonStrategy | src/test/java/org/assertj/core/internal/floats/Floats_assertNotEqual_Test.java:71-81 | 6 vs -6 fails with ShouldNotBeEqual(6, -6) carrying the absolute-value strategy |
| Files.AssertCanRead | src/test/java/org/assertj/core/internal/files/Files_assertCanRead_Test.java:41-64 | a null file fails with ActualIsNull; otherwise the call passes iff the probe says readable, and a failure is ShouldBeReadable(file) with no strategy |
| Files.ShouldFailIfActualIsNull | src/test/java/org/assertj/core/internal/files/Files_assertCanRead_Test.java:41-45 | a null file fails with ActualIsNull |
| Files.ShouldFailIfCanNotRead | src/test/java/org/assertj/core/internal/files/Files_assertCanRead_Test.java:47-58 | a file whose probe answers false fails with ShouldBeReadable(file) |
| Files.ShouldPassIfActualCanRead | src/test/java/org/assertj/core/internal/files/Files_assertCanRead_Test.java:60-64 | a file whose probe answers true passes |

## Left out

- The Java source of `BigDecimals`, `Floats`, `Files`, `Comparables`, the comparison strategy classes and `Failures` is not among the modelled files. Their verbs are reconstructed from what the three tests assert.
- The comparators behind `comparatorComparisonStrategy` and `absValueComparisonStrategy` are defined in base test classes that are not part of this model. They are modelled by the equalities the tests show: numeric value for decimals (`BigDecimals.CompareTo`) and magnitude for floats (`Floats.AbsValueCompare`).
- A failure descriptor identifies its strategy by the strategy's description string, not by object identity. Two comparator strategies with the same description are not told apart.
- Failure reporting by a thrown `AssertionError` is modelled as a returned `Fail` value, so "exactly one failure per failing call" holds by the shape of `Outcome`. `AssertionInfo`, the representation service and message rendering are left out.
- IEEE-754 floats (NaN, -0.0, rounding) are left out. Float operands are integers, which covers the integral values the tests use.
- BigDecimal scales are natural numbers here. Java also allows negative scales, which the tests do not use. For the same reason `BigDecimals.StripTrailingZeros` stops at scale 0, where Java's `stripTrailingZeros` would go on into negative scales. It serves only as the reference definition of numeric equality.
- A null expected operand is not modelled. The expected value is always present, as in every test.
- Real file-system probing is left out. The probe's answer is the `canRead` field of the file record.
- Ordering verbs (`assertGreaterThan` and the like) and `assertCanWrite` are not exercised by the modelled tests. Any contract for them would be invented.
- Calling the same verb twice with the same inputs gives the same outcome. This holds because every verb is a function, so no lemma states it.
