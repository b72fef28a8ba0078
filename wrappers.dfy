/** Optional values and fallible results, used wherever the JavaScript code
    has a nullable property or a call that may throw. */
module Wrappers {

  /** `None` stands for both `null` and `undefined`. */
  datatype Option<+T> = None | Some(value: T)

  /** The outcome of a call that either returns a value or throws. */
  datatype Result<+T, +E> = Ok(value: T) | Err(error: E)
}
