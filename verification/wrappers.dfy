/** The optional-value datatype used wherever the source has `T | null` or
    an optional (`?`) property. */
module Wrappers {

  datatype Option<+T> = None | Some(value: T) {

    /** Returns the value held by Some, or `default` for None. */
    function GetOr(default: T): T {
      match this
      case Some(v) => v
      case None => default
    }
  }
}
