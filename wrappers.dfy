/** Absence and failure values shared by the model. */
module Wrappers {

  /** A value that may be missing: JavaScript's `undefined`/`null` on the model side. */
  datatype Option<+T> = None | Some(value: T)

  /** The outcome of an operation that may throw: `Failure` carries the error message. */
  datatype Result<+R, +E> = Success(value: R) | Failure(error: E)
}
