/** Failure-carrying values used where the Python code returns None or raises, and the clock reading every module shares. */
module Wrappers {

  /** A value that may be missing (Python's `None`). */
  datatype Option<+T> = None | Some(value: T)

  /** The outcome of an operation that either returns a value or raises an exception. */
  datatype Result<+R, +E> = Success(value: R) | Failure(error: E)

  /** The outcome of an operation that returns nothing interesting or raises. */
  datatype Outcome<+E> = Pass | Fail(error: E)

  /** A reading of `datetime.now()`: an opaque value supplied by the caller; only equality and "set to now" matter. */
  type Timestamp = nat
}
