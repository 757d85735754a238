/** Optional values and the success-or-error results of operations that can throw. */
module Wrappers {

  datatype Option<T> = None | Some(value: T)
  {
    /** The value, or `default` when absent (`x ?? default`). */
    function GetOr(default: T): T
    {
      if Some? then value else default
    }
  }

  datatype Result<R, E> = Success(value: R) | Failure(error: E)
}
