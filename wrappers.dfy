/** C#'s nullable values (`T?`, a reference that may be null) as an Option. */
module Wrappers {

  datatype Option<+T> = None | Some(value: T) {

    /** `this ?? other` when the fallback is itself nullable. */
    function OrElse(other: Option<T>): Option<T>
    {
      match this
      case Some(_) => this
      case None => other
    }

    /** `this ?? fallback` when the fallback is not nullable. */
    function GetOr(fallback: T): T
    {
      match this
      case Some(v) => v
      case None => fallback
    }
  }
}
