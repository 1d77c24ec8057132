/** The optional-value datatype used for the nullable and optional fields of the form. */
module Wrappers {

  datatype Option<+T> = None | Some(value: T) {

    /** The contained value, or the given default when there is none. */
    function GetOr(default: T): T {
      match this
      case Some(v) => v
      case None => default
    }
  }
}
