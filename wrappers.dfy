/** Failure-compatible wrappers shared by the editor and the controller models. */
module Wrappers {

  /** A value that may be absent (JavaScript `undefined`, PHP `NULL`). */
  datatype Option<+T> = None | Some(value: T)

  /** The outcome of an operation that may throw. */
  datatype Result<+R, +E> = Success(value: R) | Failure(error: E)
}
