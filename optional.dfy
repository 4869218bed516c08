/** A value that may be absent: JavaScript's `undefined`, or a key left out of an object. */
module Optional {

  datatype Option<+T> = None | Some(value: T) {

    /** The value if present, otherwise `default`. */
    function GetOr(default: T): T {
      match this
      case Some(v) => v
      case None => default
    }
  }
}
