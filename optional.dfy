/** A value that may be absent (Python's `None`, or a key missing from a dict). */
module Optional {

  datatype Option<+T> = None | Some(value: T) {

    /** The value, or `default` when absent, as Python's `d.get(key, default)`. */
    function GetOr(default: T): T {
      match this
      case Some(v) => v
      case None => default
    }
  }
}
