/** Datatypes shared by every module of the model. */
module Prelude {
  datatype Option<+T> = None | Some(value: T)

  /** Python's exceptions and error returns, without their message text. */
  datatype Result<+T, +E> = Ok(value: T) | Err(error: E)
}
