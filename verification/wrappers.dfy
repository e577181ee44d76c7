/** Optional values and error-carrying results, standing in for Go's nil
    pointers and `(value, error)` return pairs. */
module Wrappers {

  /** A nil-able value: `None` plays the part of a nil pointer. */
  datatype Option<+T> = None | Some(value: T)

  /** A value or an error, for Go functions returning `(T, error)`. */
  datatype Result<+T, +E> = Success(value: T) | Failure(error: E)
}
