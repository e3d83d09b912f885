/** An optional value: stands for a JavaScript property or result that may be `undefined`. */
module Options {

  datatype Option<+T> = None | Some(value: T) {

    /** The value if present, otherwise `default` (what a spread `{...a, ...b}` does per field). */
    function GetOr(default: T): T {
      match this
      case Some(v) => v
      case None => default
    }
  }
}
