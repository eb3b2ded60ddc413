/** Option and Result, the two wrappers the model uses for "not built yet" and for errors. */
module Wrappers {

  /** A value that may be absent; stands for a Python variable that may still be None. */
  datatype Option<+T> = None | Some(value: T)

  /** The outcome of an operation that can raise instead of returning. */
  datatype Result<+T, +E> = Success(value: T) | Failure(error: E)
}
