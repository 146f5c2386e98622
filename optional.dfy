/** A JavaScript value that may be `undefined`: `None` is an omitted argument or
    property, `Some(v)` a value that was given. */
module Optional {

  datatype Option<+T> = None | Some(value: T) {

    /** The value, or `d` when it is missing: what a destructuring default
        (`{ x = d }`) or the optional-chaining fallback yields. */
    function ValueOr(d: T): T
    {
      match this
      case Some(v) => v
      case None => d
    }
  }
}
