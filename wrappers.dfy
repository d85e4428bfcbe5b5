/** Option and Result values shared by every module of the model. */
module Wrappers {

  datatype Option<+T> = None | Some(value: T)

  /** The outcome of an operation that can raise: `Failure(e)` stands for an exception `e`. */
  datatype Result<+T, +E> = Success(value: T) | Failure(error: E)
}
