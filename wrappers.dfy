/** Optional values and results with an error message, used for the
    JavaScript `undefined`/`null` cases and for the thrown errors of the model. */
module Wrappers {

  datatype Option<+T> = None | Some(value: T) {
    /** The value, or `default` when there is none. */
    function GetOr(default: T): T {
      match this
      case Some(v) => v
      case None => default
    }
  }

  /** `Failure(error)` stands for a thrown `Error(error)`. */
  datatype Result<+T> = Success(value: T) | Failure(error: string)
}
