/** Failure-carrying datatypes shared by the rest of the model.
    `Option` stands for Go's nil-or-value pointers and `(value, error)` pairs
    whose error part is nil or not; `Result` for an operation that either
    produces a value or stops the process with a diagnostic. */
module Wrappers {

  datatype Option<+T> = None | Some(value: T)

  datatype Result<+R, +E> = Success(value: R) | Failure(error: E)
}
