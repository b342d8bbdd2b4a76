/** Values that may be absent: JavaScript's `undefined`/`null` for an optional field. */
module Base {

  datatype Option<+T> = None | Some(value: T) {

    /** `x ?? d`: the value when present, `d` otherwise. */
    function GetOr(d: T): T {
      match this
      case Some(v) => v
      case None => d
    }
  }
}
