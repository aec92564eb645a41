/** Option and result types used across the pipeline. */
module Wrappers {

  datatype Option<+T> = None | Some(value: T)

  /** The outcome of an operation that may throw: either its value or the error it threw. */
  datatype Result<+T, +E> = Success(value: T) | Failure(error: E)
}
