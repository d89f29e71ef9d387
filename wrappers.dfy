/** Option and Result values, used for the source's `null`/`undefined` values and its error returns. */
module Wrappers {

  /** `None` stands for JavaScript's `null`/`undefined` (or Python's `None`). */
  datatype Option<+T> = None | Some(value: T)

  /** A value or an error, for operations whose source returns an error object or throws. */
  datatype Result<+T, +E> = Ok(value: T) | Err(error: E)
}
