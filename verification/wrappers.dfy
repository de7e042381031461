/** Small failure-carrying datatypes shared by the rest of the model. */
module Wrappers {

  /** An optional value: Python's `None` versus a present value. */
  datatype Option<+T> = None | Some(value: T)

  /** The value an operation returns, or the exception it raises. */
  datatype Result<+T, +E> = Ok(value: T) | Err(error: E)
}
