/** Failure-compatible wrappers used for the source's exceptions and optional results. */
module Wrappers {

  datatype Option<+T> = None | Some(value: T)

  /** The settled value of a call: it returned `value` or it threw `error`. */
  datatype Result<+R, +E> = Success(value: R) | Failure(error: E)

  /** The settled value of a call that returns nothing (`undefined`) or throws. */
  datatype Outcome<+E> = Pass | Fail(error: E)
}
