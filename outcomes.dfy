/** Optional values and results with an error, shared by the modules of this model. */
module Outcomes {

  /** Swift's `Optional`. */
  datatype Option<+T> = None | Some(value: T)

  /** A value or the error a Swift `throws` function would raise. */
  datatype Result<+T, +E> = Success(value: T) | Failure(error: E)
}
