/** What each booking operation does to the rows
    (backend/internal/transport/service.go and cleanup.go).  Each function is the
    callback of one transaction; an `Err` means that it is rolled back. */
module Bookings {
  import opened Outcomes
  import opened Ledgers
  import opened Tables

  const MINUTE := 60
  const WEEK := 7 * 24 * 60 * MINUTE

  function WeekOf(t: Time): int {
    t / WEEK
  }

  predicate IsAdmin(role: Role) {
    role == TransportAdmin || role == SuperAdmin
  }

  // ----- single statements

  datatype TripStatus = StatusCancelled | StatusFull | StatusClosed | StatusOpen | StatusScheduled

  function ComputedStatus(t: Trip, now: Time): TripStatus {
    if t.manual == MarkedCancelled then StatusCancelled
    else if t.available <= 0 then StatusFull
    else if t.manual == MarkedClosed then StatusClosed
    else if t.manual == MarkedOpen then StatusOpen
    else if now >= t.departure - t.closeOffset * MINUTE then StatusClosed
    else if now < t.departure - t.openOffset * MINUTE then StatusScheduled
    else StatusOpen
  }

  function IncrementSeat(t: Trip): Trip {
    if t.available < t.capacity then t.(available := t.available + 1) else t
  }

  function ReturnSeats(t: Trip, k: nat): Trip {
    if k == 0 then t else IncrementSeat(ReturnSeats(t, k - 1))
  }

  function IncrementTripSeat(db: Db, trip: TripId): Db {
    if trip in db.trips then db.(trips := db.trips[trip := IncrementSeat(db.trips[trip])]) else db
  }

  function DeleteHold(db: Db, hold: HoldId): Db {
    db.(holds := db.holds - {hold})
  }

  /** Codes are unique among all tickets of a trip, cancelled ones included. */
  predicate CodeTaken(db: Db, trip: TripId, code: nat) {
    exists t :: t in db.tickets && db.tickets[t].trip == trip && db.tickets[t].code == code
  }

  predicate BookingDebitExists(l: Ledger, ticket: TicketId) {
    Header(TransportBooking, ticket) in l.headers
  }

  // ----- weekly usage

  function CountedTickets(db: Db, user: UserId, dir: Direction, week: int): set<TicketId> {
    set t | t in db.tickets
            && db.tickets[t].user == user
            && db.tickets[t].status == Confirmed
            && db.tickets[t].trip in db.trips
            && db.trips[db.tickets[t].trip].direction == dir
            && WeekOf(db.trips[db.tickets[t].trip].departure) == week
  }

  function CountedHolds(db: Db, user: UserId, dir: Direction, week: int, now: Time): set<HoldId> {
    set h | h in db.holds
            && db.holds[h].user == user
            && db.holds[h].expiresAt > now
            && db.holds[h].trip in db.trips
            && db.trips[db.holds[h].trip].direction == dir
            && WeekOf(db.trips[db.holds[h].trip].departure) == week
  }

  function Usage(db: Db, user: UserId, dir: Direction, week: int, now: Time): nat {
    |CountedTickets(db, user, dir, week)| + |CountedHolds(db, user, dir, week, now)|
  }

  // ----- HoldSeats

  datatype HoldRequest = HoldRequest(trip: TripId, count: int, pickup: StopId, dropoff: StopId)

  function HoldSeconds(role: Role): int {
    if IsAdmin(role) || role == Employee then 7 * MINUTE else 3 * MINUTE
  }

  /** Everything HoldSeats checks before it takes the first seat. */
  function CheckHold(db: Db, user: UserId, role: Role, req: HoldRequest, now: Time): Result<()> {
    if req.trip !in db.trips then Err(TripNotFound)
    else
      var trip := db.trips[req.trip];
      if !IsAdmin(role) && trip.busFor != role then Err(BusTypeMismatch)
      else if !IsAdmin(role) && ComputedStatus(trip, now) != StatusOpen then Err(TripNotOpen)
      else if (role, trip.direction) !in db.quotas then Err(NoQuotaPolicy)
      else if Usage(db, user, trip.direction, WeekOf(now), now) + req.count > db.quotas[(role, trip.direction)]
      then Err(QuotaExceeded)
      else Ok(())
  }

  /** One turn of the loop for each identifier the database hands out. */
  function TakeSeats(db: Db, hold: Hold, ids: seq<HoldId>): Result<Db>
    decreases |ids|
  {
    if ids == [] then Ok(db)
    else if hold.trip !in db.trips || db.trips[hold.trip].available <= 0 then Err(Database)
    else
      var trip := db.trips[hold.trip];
      var db1 := db.(
        trips := db.trips[hold.trip := trip.(available := trip.available - 1)],
        holds := db.holds[ids[0] := hold]);
      TakeSeats(db1, hold, ids[1..])
  }

  function HoldSeats(db: Db, user: UserId, role: Role, req: HoldRequest, now: Time, ids: seq<HoldId>): Result<Db> {
    match CheckHold(db, user, role, req, now)
    case Err(e) => Err(e)
    case Ok(_) => TakeSeats(db, Hold(req.trip, user, req.pickup, req.dropoff, now + HoldSeconds(role)), ids)
  }

  // ----- ConfirmBatch

  /** One line of the request, with the identifier its ticket will get and the
      codes drawn for it. */
  datatype Item = Item(hold: HoldId, ticket: TicketId, draws: seq<nat>)

  const CODE_DRAWS := 5

  function LockHolds(db: Db, user: UserId, items: seq<Item>): Result<seq<Hold>> {
    if items == [] then Ok([])
    else if items[0].hold !in db.holds then Err(Database)
    else if db.holds[items[0].hold].user != user then Err(Unauthorized)
    else
      match LockHolds(db, user, items[1..])
      case Err(e) => Err(e)
      case Ok(rest) => Ok([db.holds[items[0].hold]] + rest)
  }

  /** The ticket insert with its redraws.  The first collision puts the database
      transaction in the failed state, so no later draw can succeed. */
  function InsertTicket(db: Db, id: TicketId, ticket: Ticket): Result<Db> {
    if CodeTaken(db, ticket.trip, ticket.code) then Err(Database)
    else Ok(db.(tickets := db.tickets[id := ticket]))
  }

  function Pay(db: Db, user: UserId, student: bool, price: int, ticket: TicketId): Result<Db> {
    if student && price > 0 then
      match Transfer(db.ledger, PersonalOf(user), Revenue, price, TransportBooking, ticket)
      case Err(e) => Err(e)
      case Ok(l) => Ok(db.(ledger := l))
    else Ok(db)
  }

  function TicketFor(db: Db, user: UserId, item: Item, row: Hold): Ticket
    requires row.trip in db.trips && item.draws != []
  {
    Ticket(row.trip, user, item.draws[0], row.pickup, row.dropoff, db.trips[row.trip].price, Confirmed)
  }

  /** One turn of the loop, with the hold row that was read under the lock. */
  function ConfirmItem(db: Db, user: UserId, student: bool, item: Item, row: Hold, now: Time): Result<Db> {
    if now > row.expiresAt then Err(HoldExpired)
    else if row.trip !in db.trips || item.draws == [] then Err(Database)
    else
      match InsertTicket(db, item.ticket, TicketFor(db, user, item, row))
      case Err(e) => Err(e)
      case Ok(db1) => Pay(DeleteHold(db1, item.hold), user, student, db.trips[row.trip].price, item.ticket)
  }

  function ConfirmItems(db: Db, user: UserId, student: bool, items: seq<Item>, rows: seq<Hold>, now: Time): Result<Db>
    requires |items| == |rows|
    decreases |items|
  {
    if items == [] then Ok(db)
    else
      match ConfirmItem(db, user, student, items[0], rows[0], now)
      case Err(e) => Err(e)
      case Ok(db1) => ConfirmItems(db1, user, student, items[1..], rows[1..], now)
  }

  /** A student's wallet row is created when it is missing. */
  function Opened(db: Db, user: UserId, role: Role): Db {
    if role == Student then db.(ledger := OpenWallet(db.ledger, user)) else db
  }

  function ConfirmLocked(db: Db, user: UserId, role: Role, items: seq<Item>, now: Time): Result<Db> {
    LockedLength(db, user, items);
    match LockHolds(db, user, items)
    case Err(e) => Err(e)
    case Ok(rows) =>
      if exists i :: 0 <= i < |rows| && rows[i].trip !in db.trips then Err(Database)
      else ConfirmItems(db, user, role == Student, items, rows, now)
  }

  function ConfirmBatch(db: Db, user: UserId, role: Role, items: seq<Item>, now: Time): Result<Db> {
    if items == [] then Ok(db) else ConfirmLocked(Opened(db, user, role), user, role, items, now)
  }

  lemma {:induction false} LockedLength(db: Db, user: UserId, items: seq<Item>)
    ensures LockHolds(db, user, items).Ok? ==> |LockHolds(db, user, items).value| == |items|
  {
    if items != [] {
      LockedLength(db, user, items[1..]);
    }
  }

  // ----- ReleaseAllHolds and the reaper

  function ActiveHolds(db: Db, user: UserId, now: Time): set<HoldId> {
    set h | h in db.holds && db.holds[h].user == user && db.holds[h].expiresAt > now
  }

  function HoldsAmong(db: Db, hs: set<HoldId>, trip: TripId): set<HoldId> {
    set h | h in hs && h in db.holds && db.holds[h].trip == trip
  }

  /** All unexpired holds of the user go, and each gives its trip one seat. */
  function ReleaseAllHolds(db: Db, user: UserId, now: Time): Db {
    var gone := ActiveHolds(db, user, now);
    db.(holds := db.holds - gone,
        trips := map t | t in db.trips :: ReturnSeats(db.trips[t], |HoldsAmong(db, gone, t)|))
  }

  /** The hold and the trip come from a list read earlier. */
  function CleanupSingleHold(db: Db, hold: HoldId, trip: TripId): Result<Db> {
    if hold !in db.holds then Ok(db)
    else if trip !in db.trips then Err(Database)
    else Ok(DeleteHold(IncrementTripSeat(db, trip), hold))
  }

  /** The reaper's whole list, each hold in a transaction of its own. */
  function CleanupAll(db: Db, list: seq<(HoldId, TripId)>, commits: seq<bool>): (Db, nat)
    requires |commits| == |list|
    decreases |list|
  {
    if list == [] then (db, 0)
    else
      var (db1, r) :=
        if list[0].0 !in db.holds then (db, Ok(()))
        else WithTransaction(db, CleanupSingleHold(db, list[0].0, list[0].1), commits[0]);
      var (db2, n) := CleanupAll(db1, list[1..], commits[1..]);
      (db2, n + if r.Ok? then 1 else 0)
  }

  // ----- cancellation

  /** The ticket columns that a cancellation reads, without a lock, before it acts. */
  datatype TicketRead = TicketRead(id: TicketId, trip: TripId, user: UserId, price: int)

  function ReadOf(db: Db, ticket: TicketId): TicketRead
    requires ticket in db.tickets
  {
    var row := db.tickets[ticket];
    TicketRead(ticket, row.trip, row.user, row.pricePaid)
  }

  function ReadForCancellation(db: Db, requester: UserId, ticket: TicketId, now: Time): Result<TicketRead> {
    if ticket !in db.tickets || db.tickets[ticket].trip !in db.trips || db.tickets[ticket].status != Confirmed
    then Err(CancellationClosed)
    else
      var trip := db.trips[db.tickets[ticket].trip];
      if now >= trip.departure - trip.closeOffset * MINUTE then Err(CancellationClosed)
      else if db.tickets[ticket].user != requester then Err(Unauthorized)
      else Ok(ReadOf(db, ticket))
  }

  function SetTicketCancelled(db: Db, ticket: TicketId): Db {
    if ticket in db.tickets && db.tickets[ticket].status == Confirmed
    then db.(tickets := db.tickets[ticket := db.tickets[ticket].(status := Cancelled)])
    else db
  }

  /** The refund of a user cancellation, if one is due. */
  function RefundOnCancel(l: Ledger, read: TicketRead, role: Role): Result<Ledger> {
    if role == Student && read.price > 0 && BookingDebitExists(l, read.id) then
      match Transfer(OpenWallet(l, read.user), Revenue, PersonalOf(read.user), read.price, Refund, read.id)
      case Err(_) => Err(RefundFailed)
      case Ok(l1) => Ok(l1)
    else Ok(l)
  }

  /** Everything CancelTicketWithRole does after it has read the ticket. */
  function CommitCancel(db: Db, read: TicketRead, role: Role): Result<Db> {
    match RefundOnCancel(db.ledger, read, role)
    case Err(e) => Err(e)
    case Ok(l) => Ok(IncrementTripSeat(SetTicketCancelled(db.(ledger := l), read.id), read.trip))
  }

  function CancelTicket(db: Db, requester: UserId, ticket: TicketId, role: Role, now: Time): Result<Db> {
    match ReadForCancellation(db, requester, ticket, now)
    case Err(e) => Err(e)
    case Ok(read) => CommitCancel(db, read, role)
  }

  /** Refunds of a cancelled trip, one for each ticket whose debit is on record. */
  function RefundAll(l: Ledger, rows: seq<TicketRead>): Result<Ledger>
    decreases |rows|
  {
    if rows == [] then Ok(l)
    else if !BookingDebitExists(l, rows[0].id) then RefundAll(l, rows[1..])
    else
      match Transfer(OpenWallet(l, rows[0].user), Revenue, PersonalOf(rows[0].user), rows[0].price, Refund, rows[0].id)
      case Err(_) => Err(RefundFailed)
      case Ok(l1) => RefundAll(l1, rows[1..])
  }

  function CancelTicketsOf(tickets: map<TicketId, Ticket>, trip: TripId): map<TicketId, Ticket> {
    map t | t in tickets ::
      if tickets[t].trip == trip && tickets[t].status == Confirmed
      then tickets[t].(status := CancelledByAdmin) else tickets[t]
  }

  function MarkTrip(trips: map<TripId, Trip>, trip: TripId, manual: ManualStatus): map<TripId, Trip> {
    if trip in trips then trips[trip := trips[trip].(manual := manual)] else trips
  }

  /** Everything CancelTrip does after it has read the list of confirmed tickets. */
  function CommitTripCancel(db: Db, trip: TripId, rows: seq<TicketRead>): Result<Db> {
    match RefundAll(db.ledger, rows)
    case Err(e) => Err(e)
    case Ok(l) => Ok(db.(ledger := l,
                         tickets := CancelTicketsOf(db.tickets, trip),
                         trips := MarkTrip(db.trips, trip, MarkedCancelled)))
  }

  // ----- trips

  datatype TripRequest = TripRequest(capacity: int, price: int, direction: Direction, busFor: Role, departure: Time,
                                     openOffset: int, closeOffset: int)

  predicate ValidTripRequest(req: TripRequest) {
    req.capacity > 0 && req.price >= 0 && req.openOffset > req.closeOffset
  }

  function CreateTrip(db: Db, id: TripId, req: TripRequest): Result<Db> {
    if !ValidTripRequest(req) then Err(InvalidInput)
    else Ok(db.(trips := db.trips[id := Trip(req.capacity, req.capacity, req.price, req.direction, req.busFor,
                                             req.departure, req.openOffset, req.closeOffset, Unset)]))
  }

  function Max(a: int, b: int): int {
    if a < b then b else a
  }

  function ConfirmedTickets(db: Db, trip: TripId): set<TicketId> {
    set t | t in db.tickets && db.tickets[t].trip == trip && db.tickets[t].status == Confirmed
  }

  /** The update statement: the free seats move with the capacity, but not below zero. */
  function Resize(t: Trip, req: TripRequest): Trip {
    t.(capacity := req.capacity,
       available := Max(0, t.available + (req.capacity - t.capacity)),
       price := req.price,
       busFor := req.busFor,
       departure := req.departure,
       openOffset := req.openOffset,
       closeOffset := req.closeOffset)
  }

  /** `sold` is the number of confirmed tickets, read in an earlier statement. */
  function UpdateTrip(db: Db, id: TripId, req: TripRequest, sold: nat): Result<Db> {
    if !ValidTripRequest(req) then Err(InvalidInput)
    else if req.capacity < sold then Err(Conflict)
    else if id !in db.trips then Ok(db)
    else Ok(db.(trips := db.trips[id := Resize(db.trips[id], req)]))
  }
}
