/** Option and Result types shared by every module of the model. */
module Wrappers {

  /** A value that may be missing; `None` stands for a C# `null`. */
  datatype Option<+T> = None | Some(value: T)
  {
    function GetOr(default: T): T
    {
      match this
      case Some(v) => v
      case None => default
    }
  }

  /** The exceptions the modelled code can raise. */
  datatype Exception =
    | NullReference
    | ArgumentException(message: string)
    | ApplicationException(message: string)
    | DuplicateKey

  /** The outcome of an operation that either returns or throws. */
  datatype Result<+T> = Ok(value: T) | Err(error: Exception)
}
