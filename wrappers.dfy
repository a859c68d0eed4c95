/** Failure-compatible wrappers used across the model: an optional value
    (JavaScript's `undefined` for a missing entry) and a result that carries
    either a value or the fault that would have been thrown. */
module Wrappers {

  datatype Option<+T> = None | Some(value: T)

  datatype Result<+R, +E> = Success(value: R) | Failure(error: E)
}
