/** The optional-value datatype shared by every module of the model.
    `None` stands for a JavaScript `undefined` (or `null`) value. */
module Wrappers {

  datatype Option<+T> = None | Some(value: T) {

    /** Returns the wrapped value, or `default` when there is none. */
    function GetOr(default: T): T
    {
      match this
      case Some(v) => v
      case None => default
    }
  }
}
