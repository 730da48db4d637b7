// The optional values and the call outcomes that the other modules share.
module Wrappers {

  datatype Option<+T> = None | Some(value: T) {
    function GetOr(default: T): T {
      if Some? then value else default
    }
  }

  // How a call that may raise ends. Usable with `:-`, like an exception that
  // leaves the enclosing Python function.
  datatype Outcome = Returned | Raised {
    predicate IsFailure() {
      Raised?
    }

    function PropagateFailure(): Outcome
      requires IsFailure()
    {
      this
    }
  }

  // A call that gives a value or raises.
  datatype Reply<+T> = Reply(value: T) | Raise {
    predicate IsFailure() {
      Raise?
    }

    function PropagateFailure(): Outcome
      requires IsFailure()
    {
      Raised
    }

    function Extract(): T
      requires Reply?
    {
      value
    }
  }
}
