/** Option and Result, the two failure-carrying datatypes the model uses. */
module Wrappers {

  datatype Option<+T> = None | Some(value: T)

  /** `Err` stands for a Python exception raised by the modelled code. */
  datatype Result<+T, +E> = Ok(value: T) | Err(error: E)
}
