/** Optional values and results with an error message, used wherever the
    Python code returns `None` or raises. */
module Wrappers {

  datatype Option<T> = None | Some(value: T)
  {
    function GetOr(default: T): (r: T)
      ensures Some? ==> r == value
      ensures None? ==> r == default
    {
      match this
      case Some(v) => v
      case None => default
    }
  }

  /** `Err` carries the text of the exception or error message. */
  datatype Result<T> = Ok(value: T) | Err(error: string)
}
