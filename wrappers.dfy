/** Ruby's nil, as the absence of a value. */
module Wrappers {

  datatype Option<+T> = None | Some(value: T) {

    /** `x || default` for a value that may be nil. */
    function GetOr(default: T): T {
      match this
      case Some(v) => v
      case None => default
    }
  }
}
