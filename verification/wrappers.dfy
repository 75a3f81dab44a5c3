/** Failure-carrying values used in place of Go's nil-able pointers and `(value, error)` pairs. */
module Wrappers {

  /** A value that may be absent (a nil pointer, a missing map key). */
  datatype Option<+T> = None | Some(value: T)

  /** A value or the error that replaced it. */
  datatype Result<+T, +E> = Success(value: T) | Failure(error: E)

  /** Success without a value, or an error (a Go function returning only `error`). */
  datatype Outcome<+E> = Pass | Fail(error: E)
}
