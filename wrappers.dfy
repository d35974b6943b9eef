/** Option and Result, the two failure-carrying values used throughout the model. */
module Wrappers {

  /** An optional value: `None` stands for a missing dictionary key or a Python `None`. */
  datatype Option<+T> = None | Some(value: T)

  /** The value of an operation that either returns or raises. */
  datatype Result<+T, +E> = Success(value: T) | Failure(error: E)
}
