/** Option, Result and Outcome: how the model writes the source's `None`,
    its return values and the exceptions it raises. */
module Wrappers {

  datatype Option<+T> = None | Some(value: T)

  datatype Result<+T, +E> = Ok(value: T) | Err(error: E)

  /** A step that either passes or fails with an error, for functions
      that return nothing and only raise. */
  datatype Outcome<+E> = Pass | Fail(error: E)
}
