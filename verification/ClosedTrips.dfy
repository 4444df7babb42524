/** A cancelled trip over whole runs: nobody books it until an administrator marks it
    again, and who may still get on board. */
module ClosedTrips {
  import opened Ledgers
  import opened Tables
  import opened Bookings
  import opened SeatAccounting
  import opened Confirmation
  import opened Holding
  import opened Cancelling
  import opened System
  import opened Invariants
  import opened Reachable
  import opened SeatRuns
  import opened LiveFares

  /** A trip cancellation by a list just read, each ticket listed once, goes through in
      every reachable world. */
  lemma FreshListGoesThrough(ws: seq<World>, steps: seq<Step>, i: nat, trip: TripId, rows: seq<TicketRead>)
    requires Run(ws, steps) && i <= |steps|
    requires forall j :: 0 <= j < |rows| ==>
               rows[j].id in ConfirmedTickets(ws[i].db, trip) && rows[j] == ReadOf(ws[i].db, rows[j].id)
    requires forall j, k :: 0 <= j < k < |rows| ==> rows[j].id != rows[k].id
    ensures CommitTripCancel(ws[i].db, trip, rows).Ok?
  {
    var w := ws[i];
    RunKeepsInv(ws, steps, i);
    forall j | 0 <= j < |rows| && Header(TransportBooking, rows[j].id) in w.db.ledger.headers
      ensures rows[j].price > 0 && Header(Refund, rows[j].id) !in w.db.ledger.headers
    {
      BookedPrice(w, rows[j].id);
      ConfirmedNotRefunded(w, rows[j].id);
    }
    RefundAllPays(w.db.ledger, rows);
  }

  // ----- the mark on a trip

  /** The mark a step leaves on a trip. */
  function MarkAfter(w: World, s: Step, trip: TripId): ManualStatus
    requires trip in w.db.trips
  {
    if s.MarkManual? && s.trip == trip then s.manual
    else if s.CancelTrip? && s.trip == trip && CommitTripCancel(w.db, trip, s.rows).Ok? then MarkedCancelled
    else w.db.trips[trip].manual
  }

  ghost predicate MarkedSo(db: Db, trip: TripId, mark: ManualStatus) {
    trip in db.trips && db.trips[trip].manual == mark
  }

  lemma HoldStepsMark(w: World, s: Step, trip: TripId)
    requires Inv(w) && Enabled(w, s) && trip in w.db.trips && (s.TakeHolds? || s.Release? || s.Reap?)
    ensures MarkedSo(Next(w, s).db, trip, w.db.trips[trip].manual)
  {
    match s
    case TakeHolds(user, role, ask, ids) =>
      if HoldSeats(w.db, user, role, ask, w.now, ids).Ok? {
        TakeSeatsRows(w.db, Hold(ask.trip, user, ask.pickup, ask.dropoff, w.now + HoldSeconds(role)), ids);
      }
    case Release(user) =>
      ReturnSeatsOnly(w.db.trips[trip], |HoldsAmong(w.db, ActiveHolds(w.db, user, w.now), trip)|);
    case Reap(hold, from) =>
  }

  lemma TicketStepsMark(w: World, s: Step, trip: TripId)
    requires Inv(w) && Enabled(w, s) && trip in w.db.trips && (s.Confirm? || s.Cancel? || s.CancelTrip?)
    ensures MarkedSo(Next(w, s).db, trip, MarkAfter(w, s, trip))
  {
    match s
    case Confirm(user, role, items) =>
      if ConfirmBatch(w.db, user, role, items, w.now).Ok? {
        ConfirmBatchKeepsOk(w.db, w.reported, user, role, items, w.now);
      }
    case Cancel(read, role) =>
      if CommitCancel(w.db, read, role).Ok? {
        CancelSeats(w.db, read, role, trip);
      }
    case CancelTrip(gone, rows) =>
      if CommitTripCancel(w.db, gone, rows).Ok? {
        CancelTripRows(w.db, gone, rows);
      }
  }

  lemma RowStepsMark(w: World, s: Step, trip: TripId)
    requires Enabled(w, s) && trip in w.db.trips
    requires s.Tick? || s.AddTrip? || s.ChangeTrip? || s.MarkManual? || s.ListExpired? || s.ReadTicket? || s.ReadTrip?
    ensures MarkedSo(Next(w, s).db, trip, MarkAfter(w, s, trip))
  {
  }

  /** No other step changes the mark, changes of the trip included. */
  lemma StepMarks(w: World, s: Step, trip: TripId)
    requires Inv(w) && Enabled(w, s) && trip in w.db.trips
    ensures MarkedSo(Next(w, s).db, trip, MarkAfter(w, s, trip))
  {
    if s.TakeHolds? || s.Release? || s.Reap? {
      HoldStepsMark(w, s, trip);
    } else if s.Confirm? || s.Cancel? || s.CancelTrip? {
      TicketStepsMark(w, s, trip);
    } else if s.NewPayment? || s.Record? || s.CreditUser? || s.CardResult? || s.PollTimeout? {
      PaymentBookings(w, s);
    } else {
      RowStepsMark(w, s, trip);
    }
  }

  /** Step i cancels the trip. */
  ghost predicate CancelsAt(ws: seq<World>, steps: seq<Step>, i: nat, trip: TripId)
    requires i < |steps| < |ws|
  {
    && steps[i].CancelTrip? && steps[i].trip == trip && trip in ws[i].db.trips
    && CommitTripCancel(ws[i].db, trip, steps[i].rows).Ok?
  }

  ghost predicate UnmarkedBetween(steps: seq<Step>, i: nat, j: nat, trip: TripId)
    requires j <= |steps|
  {
    forall k :: i < k < j ==> !(steps[k].MarkManual? && steps[k].trip == trip)
  }

  lemma {:induction false} StaysCancelled(ws: seq<World>, steps: seq<Step>, i: nat, j: nat, trip: TripId)
    requires Run(ws, steps) && i < j <= |steps| && CancelsAt(ws, steps, i, trip) && UnmarkedBetween(steps, i, j, trip)
    ensures MarkedSo(ws[j].db, trip, MarkedCancelled)
    decreases j
  {
    if i < j - 1 {
      StaysCancelled(ws, steps, i, j - 1, trip);
    }
    RunKeepsInv(ws, steps, j - 1);
    StepMarks(ws[j - 1], steps[j - 1], trip);
  }

  /** Until an administrator marks the trip again, no student and no employee gets a
      hold on it: whatever happens in between, at any time and for any number of seats. */
  lemma ClosedUntilMarked(ws: seq<World>, steps: seq<Step>, i: nat, j: nat, trip: TripId,
      user: UserId, role: Role, ask: HoldRequest, now: Time, ids: seq<HoldId>)
    requires Run(ws, steps) && i < j <= |steps| && CancelsAt(ws, steps, i, trip) && UnmarkedBetween(steps, i, j, trip)
    requires ask.trip == trip && !Administrates(role)
    ensures HoldSeats(ws[j].db, user, role, ask, now, ids).Err?
  {
    StaysCancelled(ws, steps, i, j, trip);
    HoldSeatsAnswers(ws[j].db, user, role, ask, now, ids);
  }

  // ----- who is still on board

  /** The step turns a hold of the trip into a ticket: a confirmation looks at the hold
      and not at the mark on the trip. */
  ghost predicate Boards(w: World, s: Step, trip: TripId) {
    && s.Confirm? && ConfirmBatch(w.db, s.user, s.role, s.items, w.now).Ok?
    && exists k :: 0 <= k < |s.items| && s.items[k].hold in w.db.holds && w.db.holds[s.items[k].hold].trip == trip
  }

  lemma ConfirmBoards(w: World, s: Step, trip: TripId)
    requires Inv(w) && Enabled(w, s) && s.Confirm? && ConfirmedTickets(w.db, trip) == {}
    ensures ConfirmedTickets(Next(w, s).db, trip) == {} <==> !Boards(w, s, trip)
  {
    if ConfirmBatch(w.db, s.user, s.role, s.items, w.now).Ok? {
      var db' := ConfirmBatch(w.db, s.user, s.role, s.items, w.now).value;
      Unbilled(w, s.items);
      ConfirmBatchOutcome(w.db, s.user, s.role, s.items, w.now);
      if Boards(w, s, trip) {
        var k :| 0 <= k < |s.items| && s.items[k].hold in w.db.holds && w.db.holds[s.items[k].hold].trip == trip;
        assert s.items[k].ticket in ConfirmedTickets(db', trip);
      } else {
        forall t | t in db'.tickets
          ensures t !in ConfirmedTickets(db', trip)
        {
          NotAboard(w, s, db', trip, t);
        }
      }
    }
  }

  lemma Unbilled(w: World, items: seq<Item>)
    requires Inv(w) && FreshTickets(w.db, items)
    ensures UnbilledTickets(w.db.ledger, items)
  {
    forall i | 0 <= i < |items|
      ensures Header(TransportBooking, items[i].ticket) !in w.db.ledger.headers
    {
      if Header(TransportBooking, items[i].ticket) in w.db.ledger.headers {
        BilledTicketExists(w.db, w.reported, TransportBooking, items[i].ticket);
      }
    }
  }

  lemma NotAboard(w: World, s: Step, db': Db, trip: TripId, t: TicketId)
    requires s.Confirm? && BatchDone(w.db, db', s.user, s.role, s.items) && t in db'.tickets
    requires ConfirmedTickets(w.db, trip) == {}
    requires forall k :: 0 <= k < |s.items| && s.items[k].hold in w.db.holds ==>
             w.db.holds[s.items[k].hold].trip != trip
    ensures t !in ConfirmedTickets(db', trip)
  {
    if t in w.db.tickets {
      assert t !in ConfirmedTickets(w.db, trip);
    } else {
      var k :| 0 <= k < |s.items| && s.items[k].ticket == t;
    }
  }

  lemma OthersDoNotBoard(w: World, s: Step, trip: TripId)
    requires Inv(w) && Enabled(w, s) && !s.Confirm? && ConfirmedTickets(w.db, trip) == {}
    ensures ConfirmedTickets(Next(w, s).db, trip) == {}
  {
    if s.Cancel? && CommitCancel(w.db, s.read, s.role).Ok? {
      CancelEffect(w.db, s.read, s.role);
      NobodyNew(w.db, Next(w, s).db, trip);
    } else if s.CancelTrip? && CommitTripCancel(w.db, s.trip, s.rows).Ok? {
      CancelTripRows(w.db, s.trip, s.rows);
      NobodyNew(w.db, Next(w, s).db, trip);
    } else if s.Cancel? || s.CancelTrip? {
      assert Next(w, s).db == w.db;
    } else {
      OtherStepsOnlyDeposit(w, s);
      NobodyNew(w.db, Next(w, s).db, trip);
    }
  }

  lemma NobodyNew(db: Db, db': Db, trip: TripId)
    requires ConfirmedTickets(db, trip) == {} && db'.tickets.Keys == db.tickets.Keys
    requires forall t :: t in db.tickets ==> db'.tickets[t].trip == db.tickets[t].trip
    requires forall t :: t in db.tickets && db'.tickets[t].status == Confirmed ==> db.tickets[t].status == Confirmed
    ensures ConfirmedTickets(db', trip) == {}
  {
    forall t | t in db'.tickets
      ensures t !in ConfirmedTickets(db', trip)
    {
      assert t !in ConfirmedTickets(db, trip);
    }
  }

  lemma {:induction false} StaysEmpty(ws: seq<World>, steps: seq<Step>, i: nat, j: nat, trip: TripId)
    requires Run(ws, steps) && i < j <= |steps| && CancelsAt(ws, steps, i, trip)
    requires forall k :: i < k < j ==> !Boards(ws[k], steps[k], trip)
    ensures ConfirmedTickets(ws[j].db, trip) == {}
    decreases j
  {
    if i == j - 1 {
      CancelTripRows(ws[i].db, trip, steps[i].rows);
    } else {
      StaysEmpty(ws, steps, i, j - 1, trip);
      RunKeepsInv(ws, steps, j - 1);
      AboardIff(ws[j - 1], steps[j - 1], trip);
    }
  }

  lemma AboardIff(w: World, s: Step, trip: TripId)
    requires Inv(w) && Enabled(w, s) && ConfirmedTickets(w.db, trip) == {}
    ensures ConfirmedTickets(Next(w, s).db, trip) == {} <==> !Boards(w, s, trip)
  {
    if s.Confirm? {
      ConfirmBoards(w, s, trip);
    } else {
      OthersDoNotBoard(w, s, trip);
    }
  }

  /** After its cancellation nobody has a valid ticket for the trip, and that stays so
      exactly until somebody confirms a hold on it that was left. */
  lemma EmptyUntilBoardedIff(ws: seq<World>, steps: seq<Step>, i: nat, trip: TripId)
    requires Run(ws, steps) && i < |steps| && CancelsAt(ws, steps, i, trip)
    ensures (forall j :: i < j < |ws| ==> ConfirmedTickets(ws[j].db, trip) == {}) <==>
            (forall k :: i < k < |steps| ==> !Boards(ws[k], steps[k], trip))
  {
    if forall k :: i < k < |steps| ==> !Boards(ws[k], steps[k], trip) {
      forall j | i < j < |ws|
        ensures ConfirmedTickets(ws[j].db, trip) == {}
      {
        StaysEmpty(ws, steps, i, j, trip);
      }
    }
    if forall j :: i < j < |ws| ==> ConfirmedTickets(ws[j].db, trip) == {} {
      forall k | i < k < |steps|
        ensures !Boards(ws[k], steps[k], trip)
      {
        RunKeepsInv(ws, steps, k);
        assert ConfirmedTickets(ws[k].db, trip) == {} && ConfirmedTickets(ws[k + 1].db, trip) == {};
        AboardIff(ws[k], steps[k], trip);
      }
    }
  }
}
