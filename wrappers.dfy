/** An optional value: JavaScript's `undefined` (or `null`) on one side, a present value on the other. */
module Wrappers {

  datatype Option<+T> = None | Some(value: T) {

    /** The value, or `default` when absent (JavaScript's `x ?? default`). */
    function GetOr(default: T): T
    {
      match this
      case Some(v) => v
      case None => default
    }
  }

  /**
   * The outcome of a request as the components see it: the response body, or a failure that either
   * carries a server description (`error?.response?.data?.description` is truthy) or does not.
   */
  datatype Fetch<+T> = Loaded(value: T) | Failed(hasDescription: bool)
}
