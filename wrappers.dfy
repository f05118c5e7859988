/** Optional values, results and check outcomes shared by every module. */
module Wrappers {

  /** A Go pointer that may be nil. */
  datatype Option<T> = None | Some(value: T)
  {
    /** The pointed-to value, or `default` for nil. */
    function GetOr(default: T): T
    {
      if Some? then value else default
    }
  }

  /** A Go `(value, error)` pair. */
  datatype Result<T, E> = Ok(value: T) | Err(error: E)

  /** A Go `error` return of a check: nil or the first failure. */
  datatype Outcome<E> = Pass | Fail(error: E)
}
