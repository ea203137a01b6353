/** Optional values and success-or-failure replies, shared by the other modules. */
module Wrappers {

  /** A value that may be absent: JavaScript's `null` (or `undefined`) becomes `None`. */
  datatype Option<+T> = None | Some(value: T)

  /** The outcome of a call into code outside the model: it either returns a value or throws. */
  datatype Result<+T, +E> = Ok(value: T) | Err(error: E)
}
