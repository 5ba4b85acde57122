/** The optional-value datatype used for every "may be absent" result of the model:
    Python's `None` becomes `None`, any other value `Some(v)`. */
module Wrappers {

  datatype Option<+T> = None | Some(value: T) {

    /** The encapsulated value, or `default` when there is none. */
    function GetOr(default: T): T {
      match this
      case Some(v) => v
      case None => default
    }
  }
}
