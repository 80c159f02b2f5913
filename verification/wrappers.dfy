/** The optional-value datatype the rest of the model uses for JavaScript
    `null`/`undefined`, a missing Redis key and a failed parse. */
module Wrappers {

  datatype Option<+T> = None | Some(value: T) {

    /** The held value, or `default` when there is none. */
    function GetOr(default: T): T {
      match this
      case Some(v) => v
      case None => default
    }
  }
}
