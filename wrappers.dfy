/** Option and Result values shared by every module of the model. */
module Wrappers {

  /** A value that may be absent (Python's `Optional[T]`, `None` being `None`). */
  datatype Option<+T> = None | Some(value: T) {
    function GetOr(default: T): T {
      match this
      case Some(v) => v
      case None => default
    }
  }

  /** The outcome of an operation that can raise: `Failure` carries the exception's text. */
  datatype Result<+T> = Success(value: T) | Failure(message: string)
}
