/** The optional value used throughout the model for JavaScript's `null`/`undefined`
    and Rust's `Option`. */
module Options {

  datatype Option<T> = None | Some(value: T) {

    /** The value held, or `default` when there is none (`x ?? default`). */
    function GetOr(default: T): T {
      match this
      case Some(v) => v
      case None => default
    }
  }
}
