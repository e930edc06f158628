/// Optional values: a field that TypeScript declares with `?`, or the result
/// of a lookup such as `Array.prototype.find` that may come back undefined.
module Options {

  datatype Option<+T> = None | Some(value: T) {

    /** `x || d` for an optional value. */
    function GetOr(default: T): T {
      match this
      case Some(v) => v
      case None => default
    }
  }
}
