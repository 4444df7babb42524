/** The three services over one database, as a machine whose steps are committed
    transactions and the reads that precede them.  A cancellation, the reaper and
    the second phase of a top-up act on rows they read earlier, so those reads are
    steps of their own and may be acted on at any later time, more than once or
    never. */
module System {
  import opened Outcomes
  import opened Ledgers
  import opened Tables
  import opened Bookings
  import opened Topups

  datatype World = World(
    db: Db,
    now: Time,
    born: map<HoldId, Hold>,                      // every hold ever created
    expired: set<(HoldId, TripId)>,               // what reapers have listed
    ticketReads: set<TicketRead>,                 // what cancellations have read
    tripReads: set<(TripId, seq<TicketRead>)>,    // what trip cancellations have read
    credits: set<Credit>,                         // successful first phases
    reported: set<TxnRef>)                        // SUCCESS has come from the gateway

  datatype Step =
    | Tick(to: Time)
    | AddTrip(trip: TripId, request: TripRequest)
    | ChangeTrip(trip: TripId, request: TripRequest, sold: nat)
    | MarkManual(trip: TripId, manual: ManualStatus)
    | TakeHolds(user: UserId, role: Role, ask: HoldRequest, ids: seq<HoldId>)
    | Confirm(user: UserId, role: Role, items: seq<Item>)
    | Release(user: UserId)
    | ListExpired(list: set<(HoldId, TripId)>)
    | Reap(hold: HoldId, trip: TripId)
    | ReadTicket(user: UserId, ticket: TicketId)
    | Cancel(read: TicketRead, role: Role)
    | ReadTrip(trip: TripId, rows: seq<TicketRead>)
    | CancelTrip(trip: TripId, rows: seq<TicketRead>)
    | NewPayment(ref: TxnRef, user: UserId, amount: int)
    | Record(ref: TxnRef, status: PaymentStatus)
    | CreditUser(credit: Credit)
    | CardResult(ref: TxnRef, status: PaymentStatus)
    | PollTimeout(ref: TxnRef)

  ghost predicate Initial(w: World) {
    && w.db.ledger == EMPTY_LEDGER
    && w.db.trips == map[] && w.db.holds == map[] && w.db.tickets == map[] && w.db.payments == map[]
    && w.born == map[] && w.expired == {} && w.ticketReads == {} && w.tripReads == {} && w.credits == {}
       && w.reported == {}
  }

  /** What the database and the earlier reads guarantee about the parameters: new
      identifiers are new, and lists were read from the tables. */
  ghost predicate Enabled(w: World, s: Step) {
    match s
    case Tick(to) => w.now <= to
    case AddTrip(trip, _) => trip !in w.db.trips
    case ChangeTrip(_, _, _) => true
    case MarkManual(_, _) => true
    case TakeHolds(_, _, ask, ids) =>
      && |ids| == Max(ask.count, 0)
      && (forall i :: 0 <= i < |ids| ==> ids[i] !in w.born)
      && (forall i, j :: 0 <= i < j < |ids| ==> ids[i] != ids[j])
    case Confirm(_, _, items) =>
      && (forall i :: 0 <= i < |items| ==> items[i].ticket !in w.db.tickets)
      && (forall i, j :: 0 <= i < j < |items| ==> items[i].ticket != items[j].ticket)
    case Release(_) => true
    case ListExpired(list) =>
      forall p :: p in list ==> p.0 in w.db.holds && w.db.holds[p.0].trip == p.1 && w.db.holds[p.0].expiresAt < w.now
    case Reap(hold, trip) => (hold, trip) in w.expired
    case ReadTicket(_, _) => true
    case Cancel(read, _) => read in w.ticketReads
    case ReadTrip(trip, rows) =>
      forall row :: row in rows ==>
        row.id in w.db.tickets && row == ReadOf(w.db, row.id) && row.trip == trip
          && w.db.tickets[row.id].status == Confirmed
    case CancelTrip(trip, rows) => (trip, rows) in w.tripReads
    case NewPayment(ref, _, amount) => ref !in w.db.payments && amount > 0
    case Record(_, _) => true
    case CreditUser(credit) => credit in w.credits
    case CardResult(_, _) => true
    case PollTimeout(_) => true
  }

  function Keep(db: Db, callback: Result<Db>): Db {
    WithTransaction(db, callback, true).0
  }

  function BornWith(born: map<HoldId, Hold>, after: map<HoldId, Hold>): map<HoldId, Hold> {
    born + after
  }

  function Next(w: World, s: Step): World {
    match s
    case Tick(to) => w.(now := to)
    case AddTrip(trip, request) => w.(db := Keep(w.db, Bookings.CreateTrip(w.db, trip, request)))
    case ChangeTrip(trip, request, sold) => w.(db := Keep(w.db, UpdateTrip(w.db, trip, request, sold)))
    case MarkManual(trip, manual) => w.(db := w.db.(trips := MarkTrip(w.db.trips, trip, manual)))
    case TakeHolds(user, role, ask, ids) =>
      var db' := Keep(w.db, HoldSeats(w.db, user, role, ask, w.now, ids));
      w.(db := db', born := BornWith(w.born, db'.holds))
    case Confirm(user, role, items) => w.(db := Keep(w.db, ConfirmBatch(w.db, user, role, items, w.now)))
    case Release(user) => w.(db := ReleaseAllHolds(w.db, user, w.now))
    case ListExpired(list) => w.(expired := w.expired + list)
    case Reap(hold, trip) => w.(db := Keep(w.db, CleanupSingleHold(w.db, hold, trip)))
    case ReadTicket(user, ticket) =>
      (match ReadForCancellation(w.db, user, ticket, w.now)
       case Ok(read) => w.(ticketReads := w.ticketReads + {read})
       case Err(_) => w)
    case Cancel(read, role) => w.(db := Keep(w.db, CommitCancel(w.db, read, role)))
    case ReadTrip(trip, rows) => w.(tripReads := w.tripReads + {(trip, rows)})
    case CancelTrip(trip, rows) => w.(db := Keep(w.db, CommitTripCancel(w.db, trip, rows)))
    case NewPayment(ref, user, amount) =>
      w.(db := w.db.(payments := w.db.payments[ref := Payment(user, amount, Pending, false)]))
    case Record(ref, status) =>
      if status == Success && ref in w.db.payments
      then w.(db := Keep(w.db, RecordOutcome(w.db, ref, status)),
              credits := w.credits + {CreditOf(w.db, ref)},
              reported := w.reported + {ref})
      else w.(db := Keep(w.db, RecordOutcome(w.db, ref, status)))
    case CreditUser(credit) => w.(db := CreditWallet(w.db, credit, true).0)
    case CardResult(ref, status) =>
      w.(db := CompleteCardPayment(w.db, ref, status, true).0,
         reported := if status == Success then w.reported + {ref} else w.reported)
    case PollTimeout(ref) => w.(db := HandlePollingTimeout(w.db, ref))
  }

  /** A run: `ws[i]` is the world before step i. */
  ghost predicate Run(ws: seq<World>, steps: seq<Step>) {
    && |ws| == |steps| + 1
    && Initial(ws[0])
    && forall i :: 0 <= i < |steps| ==> Enabled(ws[i], steps[i]) && ws[i + 1] == Next(ws[i], steps[i])
  }

  /** A finalisation that is not interrupted is its two phases in a row. */
  lemma FinalizeIsTwoSteps(w: World, ref: TxnRef, status: PaymentStatus)
    ensures var w1 := Next(w, Record(ref, status));
            Finalize(w.db, ref, status, true, true).0 ==
            (if status == Success && ref in w.db.payments then Next(w1, CreditUser(CreditOf(w.db, ref))).db else w1.db)
  {
  }
}
