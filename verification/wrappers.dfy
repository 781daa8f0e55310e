/** Optional values and results shared by the model: `Option` stands for a
    JavaScript value that may be `null` or `undefined`, `Result` for an
    operation that either returns or throws an `Error` with a message. */
module Wrappers {

  datatype Option<+T> = None | Some(value: T) {

    /** The wrapped value, or `default` when absent. */
    function GetOr(default: T): T {
      match this
      case Some(v) => v
      case None => default
    }
  }

  datatype Result<+R, +E> = Success(value: R) | Failure(error: E)
}
