/** Failure-carrying result types used to model the exceptions of the table writer. */
module Wrappers {

  /** A value that may be absent; `None` plays the part of a C# `null`. */
  datatype Option<+T> = None | Some(value: T)

  /** The result of a computation that either yields a value or fails with an error. */
  datatype Result<+T, +E> = Success(value: T) | Failure(error: E)

  /** The result of an operation that yields nothing on success. */
  datatype Outcome<+E> = Pass | Fail(error: E)
}
