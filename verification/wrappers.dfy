/** Optional values and success/failure outcomes used throughout the model. */
module Wrappers {

  /** A value that may be absent: a reading the provider could not supply. */
  datatype Option<+T> = None | Some(value: T) {

    /** The value, or `default` when there is none. */
    function GetOr(default: T): T {
      match this
      case Some(v) => v
      case None => default
    }
  }

  /** The outcome of a simulation run: its value, or the reason it was refused. */
  datatype Result<+T, +E> = Success(value: T) | Failure(error: E)
}
