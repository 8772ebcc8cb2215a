/** The two failure-carrying datatypes used by every other module. */
module Wrappers {
  datatype Option<+T> = None | Some(value: T)

  /** Stands for Go's `(value, error)` return pairs. */
  datatype Result<+T, +E> = Success(value: T) | Failure(error: E)
}
