/** A value that may be absent: how a JavaScript field that may be missing
    (`undefined`) is represented in this model. */
module Opcional {

  datatype Option<+T> = None | Some(value: T) {

    /** The value, or `default` when absent (JavaScript `x ?? default`). */
    function GetOr(default: T): T {
      match this
      case Some(v) => v
      case None => default
    }
  }
}
