/**
 * The asynchronous answer of a serving endpoint (Spring's `DeferredResult`): set once,
 * with a value or an error; later settings are ignored.
 */
module Deferred {
  import opened Json

  datatype Resolution =
    | Pending
    | Resolved(value: Json)
      /** `setErrorResult` with a message text. */
    | Failed(message: string)
      /** `setErrorResult` with an exception object, named by its class. */
    | FailedWith(exception: string)

  class DeferredResult {
    var state: Resolution

    constructor ()
      ensures state == Pending
    {
      state := Pending;
    }

    /** Sets the result unless one was set before; answers whether it took effect. */
    method Resolve(r: Resolution) returns (accepted: bool)
      requires r != Pending
      modifies this
      ensures accepted <==> old(state) == Pending
      ensures state == if accepted then r else old(state)
    {
      accepted := state == Pending;
      if accepted {
        state := r;
      }
    }
  }
}
