/** Failure-carrying values used throughout the model in place of Swift's optionals and `throws`. */
module Wrappers {

  datatype Option<+T> = None | Some(value: T)

  /** The outcome of an operation that either produces a value or throws an error. */
  datatype Result<+T, +E> = Success(value: T) | Failure(error: E)

  /** The outcome of a throwing operation that returns nothing. */
  datatype Outcome<+E> = Pass | Fail(error: E)
}
