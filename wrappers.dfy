/** A Go value that may be nil, and a Go `(value, error)` return. */
module Wrappers {

  /** A Go value that may be nil: `None` is nil. */
  datatype Option<+T> = None | Some(value: T)

  /** A Go call returning `(value, error)`: exactly one of the two is meaningful. */
  datatype Result<+T, +E> = Success(value: T) | Failure(error: E)
}
