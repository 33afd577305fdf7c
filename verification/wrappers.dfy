/** Optional values and results shared by the whole model. */
module Wrappers {

  /** A value that may be absent; stands in for a C# reference that may be null. */
  datatype Option<+T> = None | Some(value: T) {

    /** The value, or `default` when absent (C#'s `??` operator). */
    function GetOr(default: T): T {
      match this
      case Some(v) => v
      case None => default
    }
  }

  /** Either a value or the reason there is none. */
  datatype Result<+R, +E> = Success(value: R) | Failure(error: E)
}
