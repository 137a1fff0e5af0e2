/** Failure-carrying result types used for Python's exceptions. */
module Wrappers {

  /** A value or the error that a Python call raised instead. */
  datatype Result<+T, +E> = Success(value: T) | Failure(error: E)

  /** Completion of a call that returns nothing (Python `None`) or raises. */
  datatype Outcome<+E> = Pass | Fail(error: E)
}
