/** Small failure-compatible value types shared by every module of the model. */
module Wrappers {

  /** An optional value: `None` stands for PHP's `null`/`false` sentinel or an absent JSON key. */
  datatype Option<+T> = None | Some(value: T) {

    /** The carried value, or `default` when there is none (PHP's `??`). */
    function GetOr(default: T): T {
      match this
      case Some(v) => v
      case None => default
    }
  }
}
