/** Option and Result, the failure-carrying values every handler returns. */
module Wrappers {

  datatype Option<+T> = None | Some(value: T)

  /** A handler either produces a value or throws an error. */
  datatype Result<+T, +E> = Success(value: T) | Failure(error: E)
}
