/** Optional values and success/failure results, standing in for Swift's
    optionals and `throws`. */
module Wrappers {

  datatype Option<+T> = None | Some(value: T)

  datatype Result<+R, +E> = Success(value: R) | Failure(error: E)

  /** The unit value, for operations that succeed without a result. */
  datatype Unit = Unit
}
