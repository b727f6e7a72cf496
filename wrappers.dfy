/** Option and Result values, used where the source returns None or raises. */
module Wrappers {

  datatype Option<+T> = None | Some(value: T)

  /** `Err` stands for an exception the source raises and does not catch. */
  datatype Result<+T, +E> = Ok(value: T) | Err(error: E)
}
