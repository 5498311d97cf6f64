/** Failure-carrying values used for the error returns of the Go source. */
module Wrappers {

  /** A value that may be absent: a nil pointer, a nil map or a missing field. */
  datatype Option<+T> = None | Some(value: T)

  /** A value or an error, for Go's `(T, error)` returns. */
  datatype Result<+T, +E> = Success(value: T) | Failure(error: E)

  /** A bare Go `error` return: nil (Pass) or an error value (Fail). */
  datatype Outcome<+E> = Pass | Fail(error: E)
}
