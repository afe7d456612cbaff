/** Optional values and operation outcomes: the model's stand-ins for C#
    nullable values and for exceptions thrown by the services. */
module Wrappers {

  /** A C# nullable: either no value (`null`) or a value. */
  datatype Option<+T> = None | Some(value: T) {

    /** The value, or `default` when there is none (the C# `??` operator). */
    function GetOr(default: T): T {
      match this
      case Some(v) => v
      case None => default
    }
  }

  /** The outcome of a service call: a value, or the exception it throws. */
  datatype Result<+T, +E> = Ok(value: T) | Err(error: E)
}
