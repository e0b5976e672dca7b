/** Shared result types and the error kinds of the lease package. */
module Basics {

  datatype Option<+T> = None | Some(value: T)

  datatype Result<+T, +E> = Ok(value: T) | Err(error: E)

  // The sentinel errors a caller can tell apart with errors.Is.
  datatype Error =
    | NotEligible
    | Conflict
    | UnknownOutcome
    | NotFound
    | AlreadyHeld
    | InvalidLease
    | LeaseExpired
    | LeaseRetired
    | OwnershipLost
    | LeaseDisappeared
    | ProtocolViolation
    | CounterOverflow
    | Unauthorized
    | Unavailable
    | InvalidConfig
    | Canceled
    | DeadlineExceeded

  // Local clock readings and durations, in nanoseconds.
  type Time = int

  const ZERO_TIME: Time := 0
  const SECOND: nat := 1_000_000_000
  const MAX_INT64: nat := 0x7FFF_FFFF_FFFF_FFFF
  const MAX_UINT64: nat := 0xFFFF_FFFF_FFFF_FFFF
}
