/** Optional values and results with an error, as the observer's reducer and futures produce them. */
module Wrappers {

  /** Swift's `T?`: a reducer that returns `nil` produces `None`. */
  datatype Option<+T> = None | Some(value: T)

  /** A computation that either returned a value or threw an error. */
  datatype Result<+T, +E> = Success(value: T) | Failure(error: E)
}
