/** The null-or-value wrapper used wherever the source allows a null reference. */
module Wrappers {

  /** `None` stands for a C# null. */
  datatype Option<+T> = None | Some(value: T) {

    /** The wrapped value, or `default` when this is None (C#'s `??`). */
    function GetOr(default: T): T {
      match this
      case Some(v) => v
      case None => default
    }
  }
}
