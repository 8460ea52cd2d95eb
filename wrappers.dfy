/** Optional values, results and the one exception type the model raises. */
module Wrappers {

  datatype Option<+T> = None | Some(value: T)

  datatype Result<+T, +E> = Success(value: T) | Failure(error: E)

  /** Python's ValueError, carrying its message. */
  datatype ValueError = ValueError(message: string)
}
