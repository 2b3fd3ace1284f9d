/** Optional values: `None` stands for JavaScript's `undefined`/`null` where the
    modelled code only distinguishes "present" from "absent". */
module Wrappers {

  datatype Option<+T> = None | Some(value: T) {

    /** The value, or `default` when absent. */
    function GetOr(default: T): T {
      match this
      case Some(v) => v
      case None => default
    }
  }
}
