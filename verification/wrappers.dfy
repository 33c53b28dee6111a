/** Optional values: `None` stands for a JavaScript `null` or `undefined` where the
    client does not distinguish the two. */
module Wrappers {

  datatype Option<+T> = None | Some(value: T) {

    /** Returns the value held in Some, or a default when None */
    function GetOr(default: T): T {
      match this
      case Some(v) => v
      case None => default
    }
  }
}
