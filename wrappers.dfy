/** Option and Result, the two failure-carrying values the model returns. */
module Wrappers {

  datatype Option<+T> = None | Some(value: T)

  /** The outcome of a command: the request it would hand on, or the error it returns. */
  datatype Result<+T, +E> = Ok(value: T) | Err(error: E)
}
