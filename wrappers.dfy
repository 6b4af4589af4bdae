/** The optional-value datatype used throughout the model. */
module Wrappers {

  /** JavaScript's `undefined` / absent value is `None`. */
  datatype Option<+T> = None | Some(value: T) {

    /** The wrapped value, or `default` when there is none. */
    function GetOr(default: T): T {
      match this
      case Some(v) => v
      case None => default
    }
  }
}
