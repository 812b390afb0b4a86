/** Failure-compatible wrappers shared by the rest of the model. */
module Wrappers {

  /** A value that may be absent, in place of JavaScript's `undefined`. */
  datatype Option<+T> = None | Some(value: T)

  /** Either a value or an error message, in place of a thrown exception. */
  datatype Result<+T, +E> = Ok(value: T) | Err(error: E)
}
