/** The optional-value datatype used throughout the model: a JavaScript
    property or argument that may be absent (`undefined`). */
module Wrappers {
  datatype Option<+T> = None | Some(value: T) {
    function GetOr(default: T): T {
      match this
      case Some(v) => v
      case None => default
    }
  }
}
