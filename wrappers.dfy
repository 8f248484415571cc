/** Option and Result, used for Go's `(value, error)` pairs and nil-able values. */
module Wrappers {
  datatype Option<+T> = None | Some(value: T)

  datatype Result<+T, +E> = Success(value: T) | Failure(error: E)
}
