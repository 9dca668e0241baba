/** Option and Result, used for JavaScript's `undefined` and for thrown errors. */
module Wrappers {

  datatype Option<+T> = None | Some(value: T)

  datatype Result<+T, +E> = Success(value: T) | Failure(error: E)

  /** `s[i]` in JavaScript: `undefined` (None) outside the sequence. */
  function Lookup<T>(s: seq<T>, i: int): (r: Option<T>)
    ensures r.Some? <==> 0 <= i < |s|
    ensures r.Some? ==> r.value == s[i]
  {
    if 0 <= i < |s| then Some(s[i]) else None
  }
}
