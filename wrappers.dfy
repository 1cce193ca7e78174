/** Option and Result values used where the C# code has a null or throws. */
module Wrappers {

  /** A value that may be absent (a C# null reference). */
  datatype Option<+T> = None | Some(value: T)

  /** A value, or the exception the C# code would have thrown instead. */
  datatype Result<+T, +E> = Success(value: T) | Failure(error: E)
}
