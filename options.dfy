/** Python's `None`-or-value, used wherever a field or an argument may be `None`. */
module Options {

  datatype Option<+T> = None | Some(value: T) {

    /** The value, or `default` for `None` (Python's `dict.get(key, default)`). */
    function GetOr(default: T): T {
      match this
      case Some(v) => v
      case None => default
    }
  }
}
