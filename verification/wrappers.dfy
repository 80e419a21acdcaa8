/** The optional-value datatype used for JSON fields that may be absent
    (`null` or `undefined`) in the dashboard's payloads. */
module Wrappers {

  datatype Option<+T> = None | Some(value: T) {

    /** The value, or `default` when absent (JavaScript's `x ?? default`). */
    function GetOr(default: T): T {
      match this
      case Some(v) => v
      case None => default
    }
  }
}
