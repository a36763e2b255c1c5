/** Failure-compatible wrappers used by the model: an optional value, and a
    value-or-error result standing for a JavaScript value or a thrown error. */
module Wrappers {

  datatype Option<+T> = None | Some(value: T)

  datatype Result<+T, +E> = Success(value: T) | Failure(error: E)
}
