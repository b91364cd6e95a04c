/** Optional values and results shared by every module of the model. */
module Wrappers {
  /** A value that may be absent: Java's `null`, JavaScript's `undefined`. */
  datatype Option<T> = None | Some(value: T)

  /** The outcome of an operation that can throw. */
  datatype Result<T, E> = Ok(value: T) | Err(error: E)

  function OptionOr<T>(o: Option<T>, default: T): (r: T)
    ensures o.Some? ==> r == o.value
    ensures o.None? ==> r == default
  {
    match o
    case Some(v) => v
    case None => default
  }
}
