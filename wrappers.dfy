/** Option and Result values shared by every module of the model. */
module Wrappers {

  /** A value that may be absent (a C# nullable). */
  datatype Option<+T> = None | Some(value: T)

  /** The outcome of an operation that either returns a value or throws with a message. */
  datatype Result<+T> = Success(value: T) | Failure(error: string)
}
