/** A value that may be absent: Go's nil slice, missing map entry or empty request field. */
module Options {
  datatype Option<+T> = None | Some(value: T)
  {
    function GetOr(default: T): T {
      match this
      case Some(v) => v
      case None => default
    }
  }
}
