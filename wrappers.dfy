/** Option and Result, the failure-carrying values used across the model. */
module Wrappers {

  /** A value that may be absent: the model of a widget that may yield None. */
  datatype Option<+T> = None | Some(value: T)

  /** Either a success value or an error value. */
  datatype Result<+T, +E> = Ok(value: T) | Err(error: E)
}
