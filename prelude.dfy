/** Values shared by every module of the model. */
module Prelude {

  /** A value that may be absent (Python's `None`). */
  datatype Option<+T> = None | Some(value: T) {
    function GetOr(default: T): T {
      match this
      case Some(v) => v
      case None => default
    }
  }

  /**
   * A hashable Python value used as a dictionary key: a classification
   * label, an element uuid or a descriptor uid.  The tests use strings and
   * integers.
   */
  datatype Hashable = Str(s: string) | Int(i: int)
}
