/** Seats over whole runs, with stale reapers and cancellations that act on what
    they read earlier. */
module SeatRuns {
  import opened Outcomes
  import opened Ledgers
  import opened Tables
  import opened Bookings
  import opened SeatAccounting
  import opened Topups
  import opened System
  import opened Invariants
  import opened Reachable

  /** The steps that could lose or invent a seat, and when they do not.  Everything
      here can be checked before the step. */
  ghost predicate SeatSafe(w: World, s: Step) {
    match s
    case Confirm(user, role, items) =>
      ConfirmBatch(w.db, user, role, items, w.now).Ok? ==> DistinctHolds(items)
    case Cancel(read, role) =>
      CommitCancel(w.db, read, role).Ok? && read.id in w.db.tickets && read.trip in w.db.trips ==>
        w.db.tickets[read.id].status == Confirmed || w.db.trips[read.trip].available == w.db.trips[read.trip].capacity
    case ChangeTrip(trip, request, sold) =>
      UpdateTrip(w.db, trip, request, sold).Ok? && trip in w.db.trips ==>
        |HoldsOn(w.db, trip)| + |SoldOn(w.db, trip)| <= request.capacity
    case _ => true
  }

  lemma SameSeats(db: Db, db': Db)
    requires db'.holds == db.holds && db'.tickets == db.tickets && db'.trips.Keys == db.trips.Keys
    requires forall t :: t in db.trips ==>
             db'.trips[t].available == db.trips[t].available && db'.trips[t].capacity == db.trips[t].capacity
    ensures SeatsOk(db') <==> SeatsOk(db)
  {
    forall t | t in db.trips
      ensures Slack(db', t) == Slack(db, t)
    {
      assert HoldsOn(db', t) == HoldsOn(db, t) && SoldOn(db', t) == SoldOn(db, t);
    }
  }

  lemma HoldSeatsKeepsSeats(w: World, user: UserId, role: Role, ask: HoldRequest, ids: seq<HoldId>)
    requires Inv(w) && SeatsOk(w.db) && Enabled(w, TakeHolds(user, role, ask, ids))
    ensures SeatsOk(Next(w, TakeHolds(user, role, ask, ids)).db)
  {
    if HoldSeats(w.db, user, role, ask, w.now, ids).Ok? {
      TakeSeatsKeepsSeats(w.db, Hold(ask.trip, user, ask.pickup, ask.dropoff, w.now + HoldSeconds(role)), ids);
    }
  }

  ghost predicate SameBookings(db: Db, db': Db) {
    db'.holds == db.holds && db'.tickets == db.tickets && db'.trips == db.trips
  }

  lemma CreditBookings(db: Db, c: Credit)
    ensures SameBookings(db, CreditWallet(db, c, true).0)
  {
  }

  lemma CardBookings(db: Db, ref: TxnRef, status: PaymentStatus)
    ensures SameBookings(db, CompleteCardPayment(db, ref, status, true).0)
  {
  }

  lemma RecordBookings(db: Db, ref: TxnRef, status: PaymentStatus)
    ensures SameBookings(db, Keep(db, RecordOutcome(db, ref, status)))
    ensures SameBookings(db, HandlePollingTimeout(db, ref))
  {
  }

  lemma PhaseBookings(w: World, s: Step)
    requires s.Record? || s.CreditUser?
    ensures SameBookings(w.db, Next(w, s).db) && Next(w, s).now == w.now && Next(w, s).born == w.born
  {
    match s
    case Record(ref, status) => RecordBookings(w.db, ref, status);
    case CreditUser(c) => CreditBookings(w.db, c);
  }

  /** Payments leave trips, holds and tickets alone. */
  lemma PaymentBookings(w: World, s: Step)
    requires s.NewPayment? || s.Record? || s.CreditUser? || s.CardResult? || s.PollTimeout?
    ensures SameBookings(w.db, Next(w, s).db) && Next(w, s).now == w.now && Next(w, s).born == w.born
  {
    if s.Record? || s.CreditUser? {
      PhaseBookings(w, s);
    } else if s.CardResult? {
      CardBookings(w.db, s.ref, s.status);
    } else if s.PollTimeout? {
      RecordBookings(w.db, s.ref, Failed);
    }
  }

  lemma PaymentSeats(w: World, s: Step)
    requires s.NewPayment? || s.Record? || s.CreditUser? || s.CardResult? || s.PollTimeout?
    ensures SeatsOk(Next(w, s).db) <==> SeatsOk(w.db)
  {
    PaymentBookings(w, s);
    SameSeats(w.db, Next(w, s).db);
  }

  lemma TripStepSeats(w: World, s: Step)
    requires Inv(w) && Enabled(w, s) && SeatsOk(w.db) && (s.AddTrip? || s.ChangeTrip? || s.MarkManual? || s.CancelTrip?)
    ensures SeatsOk(Next(w, s).db) <==> SeatSafe(w, s)
  {
    match s
    case AddTrip(trip, request) =>
      if Bookings.CreateTrip(w.db, trip, request).Ok? {
        CreateTripKeepsSeats(w.db, trip, request);
      }
    case ChangeTrip(trip, request, sold) =>
      if UpdateTrip(w.db, trip, request, sold).Ok? && trip in w.db.trips {
        UpdateTripKeepsSeatsIff(w.db, trip, request, sold);
      }
    case MarkManual(trip, manual) => SameSeats(w.db, Next(w, s).db);
    case CancelTrip(trip, rows) =>
      if CommitTripCancel(w.db, trip, rows).Ok? {
        TripCancelKeepsSeats(w.db, trip, rows);
      }
  }

  lemma SeatStepSeats(w: World, s: Step)
    requires Inv(w) && Enabled(w, s) && SeatsOk(w.db)
    requires s.TakeHolds? || s.Confirm? || s.Release? || s.Reap? || s.Cancel?
    ensures SeatsOk(Next(w, s).db) <==> SeatSafe(w, s)
  {
    match s
    case TakeHolds(user, role, ask, ids) => HoldSeatsKeepsSeats(w, user, role, ask, ids);
    case Confirm(user, role, items) =>
      if ConfirmBatch(w.db, user, role, items, w.now).Ok? {
        ConfirmBatchKeepsSeatsIff(w.db, user, role, items, w.now);
      }
    case Release(user) => ReleaseKeepsSeats(w.db, user, w.now);
    case Reap(hold, trip) => CleanupReturnsOneSeat(w.db, hold, trip);
    case Cancel(read, role) =>
      if CommitCancel(w.db, read, role).Ok? {
        CommitCancelKeepsSeatsIff(w.db, read, role);
      }
  }

  /** Starting from accounted-for seats, a step leaves them accounted for exactly
      when it is safe. */
  lemma SeatsStepIff(w: World, s: Step)
    requires Inv(w) && Enabled(w, s) && SeatsOk(w.db)
    ensures SeatsOk(Next(w, s).db) <==> SeatSafe(w, s)
  {
    if s.AddTrip? || s.ChangeTrip? || s.MarkManual? || s.CancelTrip? {
      TripStepSeats(w, s);
    } else if s.TakeHolds? || s.Confirm? || s.Release? || s.Reap? || s.Cancel? {
      SeatStepSeats(w, s);
    } else if s.NewPayment? || s.Record? || s.CreditUser? || s.CardResult? || s.PollTimeout? {
      PaymentSeats(w, s);
    }
  }

  lemma {:induction false} SafeRunKeepsSeats(ws: seq<World>, steps: seq<Step>, i: nat)
    requires Run(ws, steps) && i <= |steps|
    requires forall j :: 0 <= j < i ==> SeatSafe(ws[j], steps[j])
    ensures SeatsOk(ws[i].db)
  {
    if i > 0 {
      SafeRunKeepsSeats(ws, steps, i - 1);
      RunKeepsInv(ws, steps, i - 1);
      SeatsStepIff(ws[i - 1], steps[i - 1]);
    }
  }

  /** In a run, every seat of every trip is free, held or sold in every world
      exactly when every step is safe.  The reaper never appears in the condition:
      its list may be as stale as it likes. */
  lemma SeatsConservedIff(ws: seq<World>, steps: seq<Step>)
    requires Run(ws, steps)
    ensures (forall i :: 0 <= i < |ws| ==> SeatsOk(ws[i].db)) <==>
            (forall j :: 0 <= j < |steps| ==> SeatSafe(ws[j], steps[j]))
  {
    if forall j :: 0 <= j < |steps| ==> SeatSafe(ws[j], steps[j]) {
      forall i | 0 <= i < |ws|
        ensures SeatsOk(ws[i].db)
      {
        SafeRunKeepsSeats(ws, steps, i);
      }
    }
    if forall i :: 0 <= i < |ws| ==> SeatsOk(ws[i].db) {
      forall j | 0 <= j < |steps|
        ensures SeatSafe(ws[j], steps[j])
      {
        RunKeepsInv(ws, steps, j);
        assert SeatsOk(ws[j].db) && SeatsOk(ws[j + 1].db);
        SeatsStepIff(ws[j], steps[j]);
      }
    }
  }

  /** What a safe run means for one trip: no more holds and valid tickets than the
      bus has room for, and exactly as many as are not free if no ticket of the trip
      was ever cancelled by an administrator. */
  lemma SafeRunNeverOversells(ws: seq<World>, steps: seq<Step>, i: nat, trip: TripId)
    requires Run(ws, steps) && i <= |steps| && trip in ws[i].db.trips
    requires forall j :: 0 <= j < i ==> SeatSafe(ws[j], steps[j])
    ensures var db := ws[i].db;
            && 0 <= db.trips[trip].available <= db.trips[trip].capacity
            && db.trips[trip].available + |HoldsOn(db, trip)| + |ConfirmedTickets(db, trip)| <= db.trips[trip].capacity
            && ((forall t :: t in db.tickets && db.tickets[t].trip == trip ==>
                 db.tickets[t].status != CancelledByAdmin) ==>
                  db.trips[trip].available + |HoldsOn(db, trip)| + |ConfirmedTickets(db, trip)| ==
                    db.trips[trip].capacity)
  {
    SafeRunKeepsSeats(ws, steps, i);
    SeatsNeverExceedCapacity(ws[i].db, trip);
  }

  /** A second cancellation that read the ticket before the first one acted fails
      whenever it would refund: the refund header is already there. */
  lemma StaleRefundFails(w: World, read: TicketRead)
    requires Inv(w) && read in w.ticketReads && Header(Refund, read.id) in w.db.ledger.headers
    ensures CommitCancel(w.db, read, Student) == Err(RefundFailed)
  {
    BilledTicketExists(w.db, w.reported, Refund, read.id);
    var i :| 0 <= i < |w.db.ledger.headers| && w.db.ledger.headers[i] == Header(Refund, read.id);
    assert HeaderLinked(w.db, w.reported, i) && PairAt(w.db.ledger.entries, i);
  }
}
