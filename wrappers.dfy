/** Option and Result, the two failure-carrying shapes the model needs. */
module Wrappers {

  /** Swift's `Optional`: a value or `nil`. */
  datatype Option<+T> = None | Some(value: T)

  /** An operation that either produced a value or stopped with an error. */
  datatype Result<+R, +E> = Success(value: R) | Failure(error: E)
}
