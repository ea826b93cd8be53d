/** Failure-carrying results shared by the booking and offer modules.
    Java's null references become Option, and the exceptions the services
    throw become the Error cases of a Result. */
module Results {

  datatype Option<+T> = None | Some(value: T)

  /** The exception kinds the modelled code can raise. */
  datatype Error =
    | IllegalArgument          // IllegalArgumentException (also commons-lang Validate)
    | NullPointer              // NullPointerException from dereferencing a null slot
    | IndexOutOfBounds         // ArrayIndexOutOfBoundsException
    | InvalidStateTransition   // InvalidStateTransitionException
    | InvalidBooking           // InvalidBookingException
    | NotFound                 // a booking id with no stored booking
    | Authorization            // AuthorizationException

  datatype Result<+T> = Success(value: T) | Failure(error: Error) {
    predicate IsFailure() {
      Failure?
    }

    function PropagateFailure<U>(): Result<U>
      requires Failure?
    {
      Failure(error)
    }

    function Extract(): T
      requires Success?
    {
      value
    }
  }

  /** Success or failure of an operation that returns nothing. */
  datatype Outcome = Pass | Fail(error: Error)
}
