/** The optional-value datatype used for every JSON field that may be absent. */
module Wrappers {

  /** `None` stands for a key that is missing from a JSON object (or a Python `None`). */
  datatype Option<+T> = None | Some(value: T) {

    /** The value, or `default` when absent: Python's `d.get(key, default)`. */
    function GetOr(default: T): T
    {
      match this
      case Some(v) => v
      case None => default
    }
  }
}
