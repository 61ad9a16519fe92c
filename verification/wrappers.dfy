/** Failure-carrying datatypes shared by the other modules. */
module Wrappers {

  /** A value that may be absent; stands for PHP's `null`. */
  datatype Option<+T> = None | Some(value: T)

  /** The outcome of a step that may throw: a value, or the error it throws. */
  datatype Result<+T, +E> = Ok(value: T) | Err(error: E)
}
