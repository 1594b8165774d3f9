/** Option and Result values shared by every module of the model. */
module Wrappers {

  /** A value that may be absent: a JavaScript `undefined`/`null` or a missing key. */
  datatype Option<+T> = None | Some(value: T)
  {
    function GetOr(default: T): T
    {
      match this
      case Some(v) => v
      case None => default
    }
  }

  /** The outcome of an operation that either returns a value or throws. */
  datatype Result<+T, +E> = Ok(value: T) | Err(error: E)
}
