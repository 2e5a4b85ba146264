/** The optional-value and result datatypes shared by the whole model. */
module Wrappers {

  /** A cell that may be missing (NaN in a data frame) or an optional argument. */
  datatype Option<+T> = None | Some(value: T)

  /** The outcome of an operation that can raise an error. */
  datatype Result<+T, +E> = Ok(value: T) | Err(error: E)
}
