/** The optional value the components read from fetched JSON (a field that may be absent). */
module Wrappers {

  datatype Option<+T> = None | Some(value: T) {

    /** The value when present, the given default otherwise (JavaScript's `x ?? d`, `x || d`). */
    function GetOr(default: T): T
    {
      match this
      case Some(v) => v
      case None => default
    }
  }
}
