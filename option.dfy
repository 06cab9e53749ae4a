/** Rust's `Option`, shared by the record schema and the layout styles. */
module Optional {

  datatype Option<+T> = None | Some(value: T) {
    /** The stored value, or `default` when there is none (`unwrap_or`). */
    function UnwrapOr(default: T): T {
      match this
      case Some(v) => v
      case None => default
    }
  }
}
