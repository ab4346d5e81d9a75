/** How a host method that spans several transactions ends. */
module Attempts {
  import opened Records

  /** Done, refused by the host, or cut off because the host died; what was committed
      before then stays. */
  datatype Attempted<+T> = Done(value: T) | Refused(error: Error) | Died
  {
    predicate IsFailure() {
      !Done?
    }

    function PropagateFailure<U>(): (failure: Attempted<U>)
      requires IsFailure()
      ensures failure.IsFailure()
    {
      if Refused? then Refused(error) else Died
    }

    function Extract(): T
      requires !IsFailure()
    {
      value
    }
  }

  function From<T>(outcome: Outcomes<T>): Attempted<T> {
    match outcome
    case Ok(value) => Done(value)
    case Err(error) => Refused(error)
  }
}
