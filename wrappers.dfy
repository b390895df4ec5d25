/** The optional value used where the source passes `None` or omits an argument. */
module Wrappers {
  datatype Option<+T> = None | Some(value: T) {
    /** The value, or `default` when there is none (Python's `d.get(k, default)`). */
    function GetOr(default: T): T {
      match this
      case Some(v) => v
      case None => default
    }
  }
}
