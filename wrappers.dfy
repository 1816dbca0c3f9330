/** Python's `None`-or-value and raised-exception-or-value, as datatypes. */
module Wrappers {

  /** A Python value that may be `None`. */
  datatype Option<+T> = None | Some(value: T)

  /** A computation that either returns a value or raises an exception. */
  datatype Result<+R, +E> = Ok(value: R) | Err(error: E)
}
