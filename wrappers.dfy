/** Option and Result, the failure-carrying wrappers used across the model. */
module Wrappers {

  datatype Option<+T> = None | Some(value: T) {
    /** The wrapped value, or `default` when there is none. */
    function GetOr(default: T): T {
      match this
      case Some(v) => v
      case None => default
    }
  }

  /** `[x] + rest` when there is an `x`, `rest` otherwise. */
  function Cons<T>(o: Option<T>, rest: seq<T>): seq<T> {
    if o.Some? then [o.value] + rest else rest
  }

  datatype Result<+R, +E> = Success(value: R) | Failure(error: E)
}
