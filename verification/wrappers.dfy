/** The optional-value datatype used throughout the model: a cache lookup
    that can miss, a request header that can be absent, a push payload that
    can be missing. */
module Wrappers {

  datatype Option<+T> = None | Some(value: T) {

    /** Returns the value held in Some, or `default` for None */
    function GetOr(default: T): T {
      match this
      case Some(v) => v
      case None => default
    }
  }
}
