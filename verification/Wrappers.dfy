/** The result types shared by the whole project. */
module Wrappers {

  datatype Option<+T> = None | Some(value: T)

  /** Every way in which the program can go wrong: a failed `assert`, an access outside
      `CallStack_`, or the use of an object that is no longer there. */
  datatype Error =
    | CallStackOverflow  // Resume with 128 entries on CallStack_
    | CallStackUnderflow // Yield with no resumer below the running routine
    | DeadContext        // a swap loads registers that are zeroed or already used
    | EpollAssertion     // an assert in updateChannel or removeChannel
    | HeapAssertion      // the assert in getExpired
    | DanglingChannel    // handleEvent on a Channel that has left its scope
    | FreedTimer         // a Timer used or deleted after reset deleted it
    | BadDescriptor      // close of a descriptor that is not open

  datatype Outcome<+T> = Ok(value: T) | Fault(error: Error) {
    predicate IsFailure() {
      Fault?
    }

    function PropagateFailure<U>(): Outcome<U>
      requires Fault?
    {
      Fault(error)
    }

    function Extract(): T
      requires Ok?
    {
      value
    }
  }
}
