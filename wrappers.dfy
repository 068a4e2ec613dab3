/** Option and Result values, used where the Go code returns a nil pointer or an error. */
module Wrappers {

  /** A possibly absent value: Go's nil pointer or missing map entry. */
  datatype Option<+T> = None | Some(value: T)

  /** A value or an error: Go's `(value, error)` result pair. */
  datatype Result<+T, +E> = Success(value: T) | Failure(error: E)
}
