/** Failure-carrying values standing for Swift's `Optional` and `throws`. */
module Wrappers {

  datatype Option<+T> = None | Some(value: T)

  /** The result of a throwing Swift function that returns a value. */
  datatype Result<+R, +E> = Success(value: R) | Failure(error: E)

  /** The result of a throwing Swift function that returns nothing. */
  datatype Outcome<+E> = Pass | Fail(error: E)
}
