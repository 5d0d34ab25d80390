/** Failure-compatible wrappers used for the error paths of the model. */
module Wrappers {

  datatype Option<+T> = None | Some(value: T)

  /** A success value, or the message the source would throw. */
  datatype Result<+R> = Success(value: R) | Failure(error: string)
}
