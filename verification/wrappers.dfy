/** Option and Result, the failure-carrying values used throughout the model. */
module Wrappers {

  /** An optional value: the model of a Go pointer that may be nil. */
  datatype Option<+T> = None | Some(value: T)

  /** Either a value or the error a Go function returns beside it. */
  datatype Result<+T, +E> = Ok(value: T) | Err(error: E)
}
