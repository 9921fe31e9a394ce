/** Small value types shared by every module of the model. */
module Wrappers {

  /** A value that may be absent (`null` / `undefined` in the source). */
  datatype Option<+T> = None | Some(value: T) {
    function GetOr(default: T): T {
      match this
      case Some(v) => v
      case None => default
    }
  }

  /** The end of a call that either returns a value or throws an `Error`
      carrying a message. */
  datatype Outcome<+T> = Returned(value: T) | Thrown(message: string)
}
