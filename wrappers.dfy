/** Option and Result, used for values that may be missing and for calls that can fail. */
module Wrappers {

  /** A value that may be absent (`undefined` or `null` in the storefront's data). */
  datatype Option<+T> = None | Some(value: T)

  /** The outcome of an operation that either produces a value or throws an error. */
  datatype Result<+T, +E> = Success(value: T) | Failure(error: E)
}
