/** Failure-compatible wrappers used across the reporters. */
module Wrappers {

  datatype Option<+T> = None | Some(value: T)

  /** The outcome of a foreign call that returns a value or a Go `error`. */
  datatype Result<+T> = Ok(value: T) | Err(error: string)
}
