/** Optional values and results: `undefined`-able values and thrown errors of the source. */
module Wrappers {

  /** A value that may be `undefined`. */
  datatype Option<+T> = None | Some(value: T) {

    /** The value, or `default` when there is none. */
    function GetOr(default: T): T {
      match this
      case Some(v) => v
      case None => default
    }
  }

  /** The result of a step that either yields a value or throws. */
  datatype Result<+T, +E> = Ok(value: T) | Err(error: E) {

    /** The value as an Option, dropping the error. */
    function ToOption(): Option<T> {
      match this
      case Ok(v) => Some(v)
      case Err(_) => None
    }
  }
}
