/** Option and Result values shared by the modules of this model. */
module Wrappers {

  /** A value that may be absent; `None` stands for a .NET `null` reference. */
  datatype Option<+T> = None | Some(value: T)

  /** The outcome of an operation that may throw: `Err` carries the exception. */
  datatype Result<+T, +E> = Ok(value: T) | Err(error: E)
}
