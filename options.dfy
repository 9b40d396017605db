/** An optional value: stands for a JavaScript value that may be `undefined`. */
module Options {

  datatype Option<+T> = None | Some(value: T) {

    /**
     * The value, or `default` when there is none.  For a string this is JavaScript's `x || default`
     * only when `default` is `""`: `||` also replaces a present empty string.
     */
    function GetOr(default: T): T {
      match this
      case Some(v) => v
      case None => default
    }
  }
}
