/** Error descriptors: the data-only failure records handed to the failure
    reporter, which renders them. */
module ErrorDescriptors {
  import opened Outcomes

  /** `strategy` is the description of the comparison strategy in force, and
      is None when that strategy is the standard one. */
  datatype ErrorDescriptor<T> =
    | ActualIsNull
    | ShouldBeEqual(actual: T, expected: T, strategy: Option<string>)
    | ShouldNotBeEqual(actual: T, other: T, strategy: Option<string>)
    | ShouldBeReadable(actual: T)
}
