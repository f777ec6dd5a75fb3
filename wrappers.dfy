/** Wrappers shared by the broker and the controller models. */
module Wrappers {

  /** A value that may be absent (a Java null). */
  datatype Option<+T> = None | Some(value: T)

  /** A computation that either succeeds or raises an error. */
  datatype Result<+R, +E> = Success(value: R) | Failure(error: E)
}
