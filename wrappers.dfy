/** The optional-value datatype used throughout the model. */
module Wrappers {

  /** `None` stands for PHP's `null` or for a key that is not set. */
  datatype Option<+T> = None | Some(value: T) {

    /** The carried value, or `default` when there is none. */
    function GetOr(default: T): T {
      match this
      case Some(v) => v
      case None => default
    }
  }
}
