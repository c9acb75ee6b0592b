/** Option and Result, the two failure-carrying wrappers the model uses. */
module Wrappers {

  /** Swift's `T?`. */
  datatype Option<+T> = None | Some(value: T)

  /** The outcome of a Swift `throws` function: a value, or the error it throws. */
  datatype Result<+T, +E> = Ok(value: T) | Err(error: E)
}
