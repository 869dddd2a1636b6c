/** Option and Result, used for Python's None and for exceptions made explicit. */
module Wrappers {

  datatype Option<+T> = None | Some(value: T)

  /** A call that either returns a value or raises; the failure carries the text `str(e)`. */
  datatype Result<+R, +E> = Success(value: R) | Failure(error: E)
}
