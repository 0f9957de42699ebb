/** Failure-carrying result types shared by the rest of the model. */
module Wrappers {

  /** A value that may be absent: an unset environment variable, a failed parse. */
  datatype Option<+T> = None | Some(value: T)

  /** The outcome of a step that can fail with an error of type E. */
  datatype Result<+T, +E> = Success(value: T) | Failure(error: E)
}
