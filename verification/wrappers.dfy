/** Failure-carrying result types used by the depreciation model. */
module Wrappers {

  /** An optional value: `None`, or `Some` holding exactly one value. */
  datatype Option<+T> = None | Some(value: T)

  /** Either a computed value or the error that was raised instead. */
  datatype Result<+R, +E> = Success(value: R) | Failure(error: E)
}
