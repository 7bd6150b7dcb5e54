/** Option and Result, the failure-carrying datatypes the rest of the model uses
    in place of Go's nil pointers and (value, error) pairs. */
module Wrappers {

  /** A value that may be absent, as a Go pointer that may be nil. */
  datatype Option<+T> = None | Some(value: T)

  /** Either a value or an error, as a Go `(T, error)` return. */
  datatype Result<+R, +E> = Success(value: R) | Failure(error: E)
}
