/** The optional value of the source: a TypeScript `T | null`, an optional
    property `x?: T`, or a query result that may be missing. */
module Options {

  datatype Option<+T> = None | Some(value: T) {

    /** The value, or `default` when there is none (the source's `?? default`). */
    function GetOr(default: T): T {
      match this
      case Some(v) => v
      case None => default
    }
  }
}
