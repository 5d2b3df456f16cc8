/** Option and Result, the usual failure-carrying datatypes. */
module Wrappers {
  datatype Option<+T> = None | Some(value: T)

  /** Failure carries the message of the error a JavaScript operation throws or rejects with. */
  datatype Result<+R, +E> = Success(value: R) | Failure(error: E)
}
