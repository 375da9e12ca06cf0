/** Option and Result, used for the source's null returns and thrown exceptions. */
module Outcomes {

  /** A value that may be absent (Java's null). */
  datatype Option<+T> = None | Some(value: T)

  /** A value, or the error that the source throws instead of returning one. */
  datatype Result<+T, +E> = Ok(value: T) | Err(error: E)
}
