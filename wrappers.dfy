/** Option and Result, the failure-carrying wrappers the model returns. */
module Wrappers {

  /** A value that may be absent (Python's `None`). */
  datatype Option<+T> = None | Some(value: T)

  /** Either a value or the failure that stopped its construction. */
  datatype Result<+T, +E> = Ok(value: T) | Err(error: E)
}
