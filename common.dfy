/** Small value types shared by every module of the model. */
module Common {

  /** A value that may be absent (`null` in the client). */
  datatype Option<+T> = None | Some(value: T) {
    function GetOr(default: T): T {
      match this
      case Some(v) => v
      case None => default
    }
  }
}
