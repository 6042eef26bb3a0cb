/** Option and Result, the two failure-carrying wrappers the model uses. */
module Wrappers {

  /** A value that may be absent: Python's `None` or a present value. */
  datatype Option<+T> = None | Some(value: T)

  /** The outcome of an operation that can raise: a value or the error raised. */
  datatype Result<+R, +E> = Success(value: R) | Failure(error: E)
}
