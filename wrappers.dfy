/** Option and Result shared by the model. */
module Wrappers {

  /** A value that may be absent. */
  datatype Option<+T> = None | Some(value: T)

  /** The outcome of an external call: a value, or the error it failed with. */
  datatype Result<+R, +E> = Success(value: R) | Failure(error: E)
}
