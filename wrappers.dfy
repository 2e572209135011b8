/** Optional values and settled asynchronous results, shared by every module. */
module Wrappers {

  /** A JSON field or JavaScript value that may be absent (`null` / `undefined` / missing key). */
  datatype Option<+T> = None | Some(value: T) {
    /** `x ?? d`: the value when present, `d` otherwise. */
    function GetOr(default: T): (r: T)
      ensures Some? ==> r == value
      ensures None? ==> r == default
    {
      match this
      case Some(v) => v
      case None => default
    }
  }

  /** How an awaited request settled: resolved with a payload, or rejected. */
  datatype Outcome<+T> = Resolved(payload: T) | Rejected
}
