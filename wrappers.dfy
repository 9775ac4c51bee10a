/** The optional value used throughout the model. In the JavaScript values
    and outcomes below, `None` usually stands for "this step threw". */
module Wrappers {

  datatype Option<+T> = None | Some(value: T) {

    /** The value, or `default` when there is none. */
    function GetOr(default: T): T {
      match this
      case Some(v) => v
      case None => default
    }
  }
}
