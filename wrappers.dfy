/** The usual optional-value datatype, used for the source's "returns false and leaves the
    out-parameter untouched" results and for nullable pointers. */
module Wrappers {

  datatype Option<+T> = None | Some(value: T) {

    /** The wrapped value, or `default` when there is none. */
    function GetOr(default: T): T {
      match this
      case Some(v) => v
      case None => default
    }
  }
}
