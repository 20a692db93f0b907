/** Option and Result: absent values and the exceptions the Python code raises. */
module Wrappers {

  datatype Option<+T> = None | Some(value: T)
  {
    function GetOr(default: T): T
    {
      match this
      case None => default
      case Some(v) => v
    }
  }

  /** A Python call either returns a value or raises the named exception. */
  datatype Result<+T> = Success(value: T) | Failure(error: string)
}
