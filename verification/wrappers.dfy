/** Python's `None`-or-value results. */
module Wrappers {

  datatype Option<+T> = None | Some(value: T)

  /** A value, or the exception the source raises instead of returning one. */
  datatype Result<+T> = Ok(value: T) | Err(message: string)
}
