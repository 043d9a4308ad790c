/** Optional values and results with an error case. */
module Wrappers {

  datatype Option<+T> = None | Some(value: T)

  datatype Result<+R, +E> = Success(value: R) | Failure(error: E)

  /** `prefix` in front of a successful sequence; a failure passes through unchanged. */
  function Prepend<T, E>(prefix: seq<T>, r: Result<seq<T>, E>): Result<seq<T>, E>
  {
    match r
    case Success(xs) => Success(prefix + xs)
    case Failure(e) => Failure(e)
  }
}
