/** Small failure-carrying datatypes shared by every module of the model. */
module Wrappers {

  /** A value that may be absent (Python's `None`). */
  datatype Option<+T> = None | Some(value: T) {

    /** The value, or `default` when absent (Python's `d.get(key, default)`). */
    function GetOr(default: T): T {
      match this
      case Some(v) => v
      case None => default
    }
  }

  /** The outcome of one call into an external service: either the call raised,
      or it answered with a body. */
  datatype Response<+T> = Failed | Answered(body: T)

  /** The `i`-th response of a scripted sequence; a response past its end reads as a
      failed call. */
  function Nth<T>(responses: seq<Response<T>>, i: nat): (r: Response<T>)
    ensures r.Answered? ==> i < |responses| && r == responses[i]
    ensures i < |responses| ==> r == responses[i]
  {
    if i < |responses| then responses[i] else Failed
  }
}
