/** Failure-carrying values used where the script returns null or throws. */
module Wrappers {

  /** A value that may be absent (the script's `null` / `undefined`). */
  datatype Option<+T> = None | Some(value: T)

  /** The outcome of an operation that either yields a value or throws with a message. */
  datatype Result<+R, +E> = Success(value: R) | Failure(error: E)
}
