/** Option and Result, the two wrapper types the model uses for Go's nil values and error returns. */
module Wrappers {

  /** A value that may be absent (a nil pointer or an empty channel read in the source). */
  datatype Option<+T> = None | Some(value: T)

  /** A value or an error (Go's `(value, error)` return pairs). */
  datatype Result<+T, +E> = Success(value: T) | Failure(error: E)
}
