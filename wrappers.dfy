/** Option and result types shared by the model. */
module Wrappers {

  datatype Option<+T> = None | Some(value: T)

  /** A value or the error the source raises instead of returning one. */
  datatype Result<+R, +E> = Ok(value: R) | Err(error: E)

  /** The outcome of an operation that returns nothing on success. */
  datatype Outcome<+E> = Pass | Fail(error: E)
}
