/** The optional value used throughout the model: `None` stands for JavaScript's
    `undefined`/`null` (a missing field, a failed lookup, an empty pool). */
module Options {

  datatype Option<+T> = None | Some(value: T) {

    /** The wrapped value, or `default` when there is none. */
    function GetOr(default: T): T {
      match this
      case Some(v) => v
      case None => default
    }
  }
}
