/** The two shapes every assertion verb works with: a possibly-null operand and
    the outcome of one call. */
module Outcomes {

  /** An operand that may be Java's null: None stands for null. */
  datatype Option<+T> = None | Some(value: T)

  /** What one assertion call does: return normally (Pass), or report exactly
      one failure to the failure reporter, described by `error`. */
  datatype Outcome<+E> = Pass | Fail(error: E)
}
