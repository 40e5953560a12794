/** Failure-carrying values shared by the whole model: Go's nil-able references
    become `Option`, and Go's `(value, error)` pairs become `Result`. */
module Wrappers {

  datatype Option<+T> = None | Some(value: T)

  datatype Result<+T, +E> = Success(value: T) | Failure(error: E)
}
