/** Option and Result, used for C# `null` and for C# exceptions respectively. */
module Wrappers {

  /** `None` stands for a C# `null` reference. */
  datatype Option<+T> = None | Some(value: T)

  /** `Failure` stands for an exception thrown to the caller. */
  datatype Result<+T, +E> = Success(value: T) | Failure(error: E)
}
