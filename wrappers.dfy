/** Option and the outcome of a call that may raise, as the controller sees them. */
module Wrappers {

  datatype Option<+T> = None | Some(value: T) {
    function GetOr(default: T): T {
      match this
      case Some(v) => v
      case None => default
    }
  }

  /** What a Python call produced: a returned value, or an exception with its text. */
  datatype Outcome<+T> = Returned(value: T) | Threw(error: string)
}
