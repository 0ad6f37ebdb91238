/** Files: the file value kind and its readability verb. No comparison
    strategy is involved; the readability probe is an input. */
module Files {
  import opened Outcomes
  import opened ErrorDescriptors

  /** A file handle together with the answer its readability probe gives. */
  datatype File = File(path: string, canRead: bool)

  /** assertCanRead: fails when the file is null, without consulting the probe;
      otherwise passes exactly when the probe says readable, and else reports
      ShouldBeReadable naming that file and no strategy. */
  function AssertCanRead(actual: Option<File>): (r: Outcome<ErrorDescriptor<File>>)
    ensures r.Pass? <==> actual.Some? && actual.value.canRead
    ensures actual.None? ==> r == Fail(ActualIsNull)
    ensures actual.Some? && r.Fail? ==> r.error == ShouldBeReadable(actual.value)
  {
    match actual
    case None => Fail(ActualIsNull)
    case Some(f) => if f.canRead then Pass else Fail(ShouldBeReadable(f))
  }

  // The scenarios of Files_assertCanRead_Test; the probe's stubbed answer is
  // the file's canRead field.

  lemma ShouldFailIfActualIsNull()
    ensures AssertCanRead(None) == Fail(ActualIsNull)
  {
  }

  lemma ShouldFailIfCanNotRead(actual: File)
    requires !actual.canRead
    ensures AssertCanRead(Some(actual)) == Fail(ShouldBeReadable(actual))
  {
  }

  lemma ShouldPassIfActualCanRead(actual: File)
    requires actual.canRead
    ensures AssertCanRead(Some(actual)) == Pass
  {
  }
}
