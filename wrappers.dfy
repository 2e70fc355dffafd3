/** Option and Result, the shapes in which the Go code's `(value, error)` pairs are returned. */
module Wrappers {

  datatype Option<+T> = None | Some(value: T)

  datatype Result<+R, +E> = Success(value: R) | Failure(error: E)
}
