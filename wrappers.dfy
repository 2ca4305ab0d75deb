/** Optional values and error-carrying results shared by the calculator models. */
module Wrappers {

  /** A value that may be absent (the source's `null`). */
  datatype Option<+T> = None | Some(value: T)

  /** The outcome of a form submission: a result, or the reason it was rejected. */
  datatype Result<+R, +E> = Ok(value: R) | Err(error: E)
}
