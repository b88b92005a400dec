/** A value that may be absent: a nullable or optional field of the source. */
module Options {

  datatype Option<+T> = None | Some(value: T) {

    /** The nullish coalescing operator of the source. */
    function Or(other: Option<T>): Option<T> {
      if Some? then this else other
    }

    function GetOr(default: T): T {
      match this
      case Some(v) => v
      case None => default
    }
  }
}
