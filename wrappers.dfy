/** Failure-carrying values shared by every module of the model. */
module Wrappers {

  /** A value that may be absent (Python's `None`). */
  datatype Option<+T> = None | Some(value: T)

  /** The outcome of a step that may raise: the value, or the error it raises. */
  datatype Result<+T, +E> = Success(value: T) | Failure(error: E)
}
