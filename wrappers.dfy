/** The optional-value datatype shared by the whole model: JavaScript's
    `undefined` (or an absent field) is None. */
module Wrappers {
  datatype Option<+T> = None | Some(value: T) {
    function GetOr(default: T): T {
      match this
      case Some(v) => v
      case None => default
    }
  }
}
