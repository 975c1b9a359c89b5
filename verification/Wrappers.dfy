/** Failure-compatible containers shared by every module. */
module Wrappers {

  datatype Option<+T> = None | Some(value: T)

  datatype Result<+T, +E> = Ok(value: T) | Err(error: E)

  /** A call to another service that did not go through. */
  datatype Failure = Unavailable
}
