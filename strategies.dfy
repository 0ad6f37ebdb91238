/** The comparison-strategy abstraction: the policy that decides whether two
    values of one kind are equal. */
module ComparisonStrategies {
  import opened Outcomes

  /** StandardComparisonStrategy uses the value kind's natural equality;
      ComparatorBasedComparisonStrategy wraps an injected comparator that
      answers in the Java convention (negative, zero or positive). The
      description is what a failure message names the strategy by. */
  datatype Strategy<!T> =
    | Standard
    | ComparatorBased(description: string, compare: (T, T) -> int)

  /** The strategy's equality: natural equality, or the comparator answering zero. */
  predicate AreEqual<T(==)>(strategy: Strategy<T>, a: T, b: T)
    ensures strategy.Standard? ==> (AreEqual(strategy, a, b) <==> a == b)
    ensures strategy.ComparatorBased? ==> (AreEqual(strategy, a, b) <==> strategy.compare(a, b) == 0)
  {
    match strategy
    case Standard => a == b
    case ComparatorBased(_, compare) => compare(a, b) == 0
  }

  /** What a failure descriptor records about the strategy: nothing for the
      standard one, so that default messages stay terse. */
  function Attached<T>(strategy: Strategy<T>): (r: Option<string>)
    ensures r.None? <==> strategy.Standard?
    ensures strategy.ComparatorBased? ==> r == Some(strategy.description)
  {
    match strategy
    case Standard => None
    case ComparatorBased(description, _) => Some(description)
  }

  /** A comparator that answers zero exactly on equal values gives the same
      equality as the standard strategy, whatever it answers otherwise. */
  lemma ConsistentComparatorAgreesWithStandard<T(!new)>(description: string, compare: (T, T) -> int, a: T, b: T)
    requires forall x, y :: compare(x, y) == 0 <==> x == y
    ensures AreEqual(ComparatorBased(description, compare), a, b) == AreEqual(Standard, a, b)
  {
  }

  /** Three-way comparison of integers, as Integer.compare answers it. */
  function Compare(x: int, y: int): (r: int)
    ensures -1 <= r <= 1
    ensures r == 0 <==> x == y
    ensures r < 0 <==> x < y
  {
    if x < y then -1 else if x == y then 0 else 1
  }
}
