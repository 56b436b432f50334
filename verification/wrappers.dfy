/** Option and Result: the error-carrying values that stand in for Go's
    `(value, error)` pairs and for steps that may produce no answer. */
module Wrappers {

  datatype Option<+T> = None | Some(value: T)

  datatype Result<+R, +E> = Success(value: R) | Failure(error: E)
}
