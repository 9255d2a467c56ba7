/** Failure-carrying result types shared by the whole model. */
module Wrappers {

  datatype Option<+T> = None | Some(value: T)

  /** A computation that either produces a value or raises the error `error`. */
  datatype Result<+T, +E> = Ok(value: T) | Err(error: E)
}
