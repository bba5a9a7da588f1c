/** The optional-value datatype used across the model for values that may be absent
    (a Python `None`, a JavaScript `null`, a regular expression that did not match). */
module Wrappers {

  datatype Option<+T> = None | Some(value: T) {

    /** The wrapped value, or `default` when there is none. */
    function GetOr(default: T): T {
      match this
      case Some(v) => v
      case None => default
    }
  }
}
