/** Failure-compatible wrappers used throughout the model: a value that may be absent
    (a Java reference that may be null), a computation that returns a value or throws,
    and one that only completes normally or throws. */
module Wrappers {

  datatype Option<+T> = None | Some(value: T)

  datatype Result<+R, +E> = Success(value: R) | Failure(error: E)

  datatype Outcome<+E> = Pass | Fail(error: E)
}
