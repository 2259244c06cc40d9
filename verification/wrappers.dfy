/** Optional values and results with an error value, used by the cart model. */
module Wrappers {

  /** A value that may be absent: `find` that matches nothing, a JS `null`. */
  datatype Option<+T> = None | Some(value: T)

  /** A computed value, or the error that stops the computation. */
  datatype Result<+T, +E> = Success(value: T) | Failure(error: E)
}
