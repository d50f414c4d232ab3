/** Optional values and results with an error, as used throughout the model. */
module Wrappers {

  datatype Option<+T> = None | Some(value: T)

  datatype Result<+T, +E> = Ok(value: T) | Err(error: E)

  /** The zero- or one-element sequence holding what an option holds. */
  function AsSeq<T>(o: Option<T>): (s: seq<T>)
    ensures |s| <= 1
    ensures o.None? <==> s == []
    ensures o.Some? ==> s == [o.value]
  {
    if o.Some? then [o.value] else []
  }
}
