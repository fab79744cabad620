/** Failure-carrying values: `Option` for a value that may be missing (a
    sampler that returns `None`), `Result` for an operation that may raise. */
module Outcomes {

  datatype Option<+T> = None | Some(value: T) {

    /** The wrapped value, or `default` when there is none (Python's
        `dict.get(key, default)`). */
    function GetOr(default: T): T {
      match this
      case Some(v) => v
      case None => default
    }
  }

  datatype Result<+R, +E> = Success(value: R) | Failure(error: E)
}
