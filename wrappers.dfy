/** Option and Result values used where the C# code returns null or throws. */
module Wrappers {

  /** `None` stands for a C# `null` reference. */
  datatype Option<+T> = None | Some(value: T)

  /** `Err` stands for an exception thrown by the modelled code. */
  datatype Result<+T, +E> = Ok(value: T) | Err(error: E)
}
