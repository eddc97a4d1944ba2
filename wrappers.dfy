/** Option and Result, used for absent values and for calls that can throw. */
module Wrappers {

  datatype Option<+T> = None | Some(value: T)

  /** A call that either returns a value or throws (rejects with) an error value. */
  datatype Result<+R, +E> = Success(value: R) | Failure(error: E)
}
