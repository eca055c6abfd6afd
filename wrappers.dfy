/** The optional value used throughout the model: a JSON key that may be absent,
    a formatter that may return Python's None. */
module Wrappers {

  datatype Option<+T> = None | Some(value: T) {

    /** The value, or a default when there is none. */
    function GetOr(default: T): T {
      match this
      case Some(v) => v
      case None => default
    }
  }
}
