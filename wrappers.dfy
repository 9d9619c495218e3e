/** Wrappers for Go's nil-able values and (value, error) pairs. */
module Wrappers {

  /** A value that may be absent: Go's nil pointer or nil interface. */
  datatype Option<+T> = None | Some(value: T)

  /** The outcome of an operation that either yields a value or fails. */
  datatype Result<+T, +E> = Success(value: T) | Failure(error: E)
}
