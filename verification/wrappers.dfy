/** Failure-carrying values shared by every module: `Option` for replies that may
    be missing, and `Outcome` for a Python call that either returns a value or
    raises an exception (named by its Python class). */
module Wrappers {

  datatype Option<+T> = None | Some(value: T) {

    /** The wrapped value, or `default` when there is none (`dict.get(key, default)`). */
    function GetOr(default: T): T {
      match this
      case Some(v) => v
      case None => default
    }
  }

  datatype Outcome<+T> = Returned(value: T) | Raised(exception: string)
}
