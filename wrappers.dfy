/** Failure-carrying values used throughout the model: an optional value, a
    result that is either a value or an error, and an outcome that is either
    a pass or an error. */
module Wrappers {

  datatype Option<+T> = None | Some(value: T)

  datatype Result<+T, +E> = Success(value: T) | Failure(error: E)

  datatype Outcome<+E> = Pass | Fail(error: E)
}
