/** The optional-value datatype used throughout the model for the source's
    optional fields (`thought?`, `loading?`, `inline?`, `className?`) and for
    values that may be `undefined` or `null`. */
module Wrappers {

  datatype Option<+T> = None | Some(value: T) {

    /** The wrapped value, or `default` when there is none. */
    function GetOr(default: T): T
    {
      match this
      case Some(v) => v
      case None => default
    }
  }
}
