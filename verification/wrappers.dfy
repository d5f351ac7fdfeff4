/** The optional-value wrapper used for every nullable field of the source. */
module Wrappers {

  /** `None` stands for a C# `null` or a JavaScript `undefined`/`null`. */
  datatype Option<+T> = None | Some(value: T) {

    /** The value, or `default` when absent: the `??` operator of C#. */
    function GetOr(default: T): T {
      match this
      case Some(v) => v
      case None => default
    }
  }
}
