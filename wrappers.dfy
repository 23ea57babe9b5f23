/** Option and Result values shared by every module of the model. */
module Wrappers {

  datatype Option<+T> = None | Some(value: T)

  /** The outcome of an operation that either produces a value or raises. */
  datatype Result<+T, +E> = Success(value: T) | Failure(error: E)
}
