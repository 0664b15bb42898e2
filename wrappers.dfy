/** Plain optional-value and outcome datatypes used across the model. The
    empty case of Option is called Nothing so that it never clashes with the
    chess enumeration value Piece.None. */
module Wrappers {

  datatype Option<+T> = Nothing | Some(value: T) {
    function GetOr(default: T): T {
      match this
      case Some(v) => v
      case Nothing => default
    }
  }

  /** The result of an operation that either completes or stops with an error. */
  datatype Outcome<+E> = Pass | Fail(error: E)
}
