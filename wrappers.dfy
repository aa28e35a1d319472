/** Option and Result values shared by the modules of this model. */
module Wrappers {

  /** A value that may be absent (JavaScript's `null` / `undefined`). */
  datatype Option<+T> = None | Some(value: T)

  /** The outcome of an operation that can be rejected with an error. */
  datatype Result<+R, +E> = Ok(value: R) | Err(error: E)
}
