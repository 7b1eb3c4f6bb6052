/** Absent/present values, standing in for JavaScript's `undefined` versus a value. */
module Wrappers {

  datatype Option<+T> = None | Some(value: T) {

    /** The value when present, the fallback otherwise (the `x || fallback` idiom). */
    function GetOr(fallback: T): T {
      match this
      case Some(v) => v
      case None => fallback
    }
  }
}
