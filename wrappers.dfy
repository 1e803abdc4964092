/** Plain `Option` and `Result` datatypes shared by the other modules. */
module Wrappers {

  /** A value that may be absent: Python's `None` versus a present value. */
  datatype Option<+T> = None | Some(value: T)

  /** A computation that either yields a value or fails with a Python exception name. */
  datatype Result<+T> = Ok(value: T) | Err(exception: string)
}
