/** Failure-carrying result types used throughout the model. */
module Wrappers {

  /** A value that may be absent; Java's `null` becomes `None`. */
  datatype Option<+T> = None | Some(value: T)

  /** The outcome of a Java call that returns a value or throws. */
  datatype Result<+R, +E> = Success(value: R) | Failure(error: E)

  /** The outcome of a Java `void` call that returns normally or throws. */
  datatype Outcome<+E> = Pass | Fail(error: E)
}
