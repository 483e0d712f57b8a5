/** Small failure-compatible wrappers shared by every module. */
module Wrappers {

  /** A value that may be absent: a missing dictionary key, a null column, an unset header. */
  datatype Option<+T> = None | Some(value: T) {
    function GetOr(default: T): T {
      match this
      case Some(v) => v
      case None => default
    }
  }

  /** Either a value or an error, for operations the source lets fail. */
  datatype Result<+R, +E> = Ok(value: R) | Err(error: E)

  /** The first `n` elements of `s`, or all of `s` when it is shorter (Python's `s[:n]`, JavaScript's `slice(0, n)`). */
  function Take<T>(s: seq<T>, n: nat): (r: seq<T>)
    ensures |r| == if n < |s| then n else |s|
    ensures r <= s
  {
    if n < |s| then s[..n] else s
  }
}
