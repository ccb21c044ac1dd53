/** Optional values and success/failure outcomes shared by the whole model. */
module Wrappers {

  /** A value that may be absent (JavaScript's `undefined`). */
  datatype Option<+T> = None | Some(value: T)

  /** The settled state of a promise or the outcome of a call that may throw:
      `Ok` is a resolution, `Err` a rejection or an exception. */
  datatype Result<+T, +E> = Ok(value: T) | Err(error: E)
}
