/** Option and result types standing in for Java's null, Optional and thrown exceptions. */
module Wrappers {

  /** A Java reference that may be null, or an Optional. */
  datatype Option<+T> = None | Some(value: T)

  /** The outcome of an operation that either yields a value or fails. */
  datatype Result<+R, +E> = Success(value: R) | Failure(error: E)

  /** The outcome of an operation that yields nothing (a Java `void` method) or fails. */
  datatype Outcome<+E> = Pass | Fail(error: E)
}
