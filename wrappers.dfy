/** Option and Result, the shapes the Python code gets from `None` returns and from exceptions. */
module Wrappers {

  /** `None` stands for Python's `None` (or for "no value was produced"). */
  datatype Option<+T> = None | Some(value: T) {
    function GetOr(default: T): T
    {
      match this
      case Some(v) => v
      case None => default
    }
  }

  /** `Err` stands for an exception the Python code raises instead of returning. */
  datatype Result<+T, +E> = Ok(value: T) | Err(error: E)
}
