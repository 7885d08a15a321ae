/** Optional values and results, used wherever the source has `null` or throws. */
module Wrappers {

  /** `None` plays the part of JavaScript's `null` / `undefined`. */
  datatype Option<+T> = None | Some(value: T)

  /** `Err` plays the part of a thrown `Error`. */
  datatype Result<+T, +E> = Ok(value: T) | Err(error: E)
}
