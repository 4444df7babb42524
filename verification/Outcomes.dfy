/** The error values of the services and the result of an operation. */
module Outcomes {

  datatype Error =
    | InvalidInput
    | Conflict
    | Database
    | UniqueViolation
    | InsufficientFunds
    | Unauthorized
    | TripNotFound
    | BusTypeMismatch
    | TripNotOpen
    | NoQuotaPolicy
    | QuotaExceeded
    | HoldExpired
    | CancellationClosed
    | RefundFailed
    | TransactionCommit
    | TransactionUpdate
    | GatewayUnavailable
    | Internal

  datatype Result<+T> = Ok(value: T) | Err(error: Error)
}
