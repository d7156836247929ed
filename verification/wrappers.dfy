/** Optional values: a snapshot section or field that may be absent from the
    stored JSON, and an array index or object key that may miss. */
module Wrappers {

  datatype Option<+T> = None | Some(value: T) {

    /** The held value, or the fallback when nothing is held (JavaScript's
        `x ?? fallback` on an optional value). */
    function GetOr(fallback: T): T {
      match this
      case Some(v) => v
      case None => fallback
    }
  }
}
