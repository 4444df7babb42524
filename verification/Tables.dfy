/** The rows the services keep, and the all-or-nothing transaction they run in
    (backend/internal/common/db.go). */
module Tables {
  import opened Outcomes
  import opened Ledgers
  import opened Uuids

  type TripId = Uuid
  type HoldId = nat
  type TicketId = nat
  type StopId = nat
  type TxnRef = nat

  /** Seconds since a Monday midnight. */
  type Time = int

  datatype Role = Student | Employee | TransportAdmin | SuperAdmin
  datatype Direction = Outbound | Inbound
  datatype ManualStatus = Unset | MarkedOpen | MarkedClosed | MarkedCancelled

  datatype Trip = Trip(
    capacity: int,
    available: int,
    price: int,
    direction: Direction,
    busFor: Role,
    departure: Time,
    openOffset: int,   // minutes before departure
    closeOffset: int,  // minutes before departure
    manual: ManualStatus)

  datatype Hold = Hold(trip: TripId, user: UserId, pickup: StopId, dropoff: StopId, expiresAt: Time)

  datatype TicketStatus = Confirmed | Cancelled | CancelledByAdmin

  datatype Ticket = Ticket(
    trip: TripId,
    user: UserId,
    code: nat,
    pickup: StopId,
    dropoff: StopId,
    pricePaid: int,
    status: TicketStatus)

  datatype PaymentStatus = Pending | Success | Failed | Unknown

  datatype Payment = Payment(user: UserId, amount: int, status: PaymentStatus, polling: bool)

  datatype Db = Db(
    ledger: Ledger,
    trips: map<TripId, Trip>,
    holds: map<HoldId, Hold>,
    tickets: map<TicketId, Ticket>,
    payments: map<TxnRef, Payment>,
    quotas: map<(Role, Direction), int>)

  /** Begins, runs the callback, and commits only when it returned no error and
      the commit went through; everything else leaves the rows as they were. */
  function WithTransaction(before: Db, callback: Result<Db>, commits: bool): (Db, Result<()>) {
    match callback
    case Err(e) => (before, Err(e))
    case Ok(after) => if commits then (after, Ok(())) else (before, Err(TransactionCommit))
  }
}
