/** The optional-value wrapper used wherever the source returns `undefined`,
    holds `null`, or produces a value that is not a finite number. */
module Wrappers {

  datatype Option<+T> = None | Some(value: T) {

    /** The value, or `default` when there is none (the source's `x || default`). */
    function GetOr(default: T): T {
      match this
      case Some(v) => v
      case None => default
    }
  }
}
