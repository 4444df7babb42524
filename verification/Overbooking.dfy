/** Exactly when a trip stays within its capacity.  `SeatRuns` asks for more: that every
    seat is accounted for, those of tickets that an administrator cancelled included. */
module Overbooking {
  import opened Ledgers
  import opened Tables
  import opened Bookings
  import opened SeatAccounting
  import opened System
  import opened Invariants
  import opened Reachable
  import opened SeatRuns

  /** What free seats, holds and valid tickets leave of the capacity. */
  function Room(db: Db, trip: TripId): int
    requires trip in db.trips
  {
    db.trips[trip].capacity - db.trips[trip].available - |HoldsOn(db, trip)| - |ConfirmedTickets(db, trip)|
  }

  ghost predicate WithinCapacity(db: Db, trip: TripId) {
    trip in db.trips ==> db.trips[trip].available >= 0 && Room(db, trip) >= 0
  }

  /** The turns of a batch over the trip that do not find their hold any more. */
  function UnheldBy(db: Db, owner: UserId, items: seq<Item>, trip: TripId): nat {
    LockedLength(db, owner, items);
    match LockHolds(db, owner, items)
    case Err(_) => 0
    case Ok(rows) => Unheld(db.holds.Keys, items, rows, trip)
  }

  /** Room for the turns that name a hold again, for the seat that a cancellation returns
      once more, and for everybody on board when the capacity changes.  All of it can be
      counted before the step. */
  ghost predicate LeavesRoom(w: World, s: Step, trip: TripId) {
    trip in w.db.trips ==>
      match s
      case Confirm(user, role, items) =>
        ConfirmBatch(w.db, user, role, items, w.now).Ok? ==> UnheldBy(w.db, user, items, trip) <= Room(w.db, trip)
      case Cancel(read, role) =>
        CommitCancel(w.db, read, role).Ok? && read.trip == trip && read.id in w.db.tickets ==>
          || w.db.tickets[read.id].status == Confirmed
          || w.db.trips[trip].available == w.db.trips[trip].capacity
          || Room(w.db, trip) > 0
      case ChangeTrip(changed, request, sold) =>
        changed == trip && UpdateTrip(w.db, trip, request, sold).Ok? ==>
          |HoldsOn(w.db, trip)| + |ConfirmedTickets(w.db, trip)| <= request.capacity
      case _ => true
  }

  // ----- room and slack

  function AdminCancelled(db: Db, trip: TripId): set<TicketId> {
    set t | t in db.tickets && db.tickets[t].trip == trip && db.tickets[t].status == CancelledByAdmin
  }

  lemma RoomIsSlack(db: Db, trip: TripId)
    requires trip in db.trips
    ensures Room(db, trip) == Slack(db, trip) + |AdminCancelled(db, trip)|
  {
    assert SoldOn(db, trip) == ConfirmedTickets(db, trip) + AdminCancelled(db, trip);
    assert ConfirmedTickets(db, trip) !! AdminCancelled(db, trip);
  }

  lemma RoomFollowsSlack(db: Db, db': Db, trip: TripId)
    requires trip in db.trips && trip in db'.trips && AdminCancelled(db', trip) == AdminCancelled(db, trip)
    ensures Room(db', trip) - Room(db, trip) == Slack(db', trip) - Slack(db, trip)
  {
    RoomIsSlack(db, trip);
    RoomIsSlack(db', trip);
  }

  lemma SameRoom(db: Db, db': Db, trip: TripId)
    requires trip in db.trips && trip in db'.trips && db'.holds == db.holds && db'.tickets == db.tickets
    requires db'.trips[trip].capacity - db'.trips[trip].available == db.trips[trip].capacity - db.trips[trip].available
    ensures Room(db', trip) == Room(db, trip)
  {
    assert HoldsOn(db', trip) == HoldsOn(db, trip) && ConfirmedTickets(db', trip) == ConfirmedTickets(db, trip);
  }

  // ----- single operations

  lemma HeldRoom(db: Db, hold: Hold, ids: seq<HoldId>, trip: TripId)
    requires TakeSeats(db, hold, ids).Ok? && trip in db.trips && WithinCapacity(db, trip)
    requires forall i :: 0 <= i < |ids| ==> ids[i] !in db.holds
    requires forall i, j :: 0 <= i < j < |ids| ==> ids[i] != ids[j]
    ensures WithinCapacity(TakeSeats(db, hold, ids).value, trip)
  {
    var db' := TakeSeats(db, hold, ids).value;
    TakeSeatsRows(db, hold, ids);
    TakeSeatsSlack(db, hold, ids, trip);
    assert AdminCancelled(db', trip) == AdminCancelled(db, trip);
    RoomFollowsSlack(db, db', trip);
  }

  lemma {:induction false} ConfirmedByAdmin(db: Db, user: UserId, student: bool, items: seq<Item>, rows: seq<Hold>,
      now: Time, trip: TripId)
    requires |items| == |rows| && RowsRead(db, items, rows) && FreshTickets(db, items)
    requires ConfirmItems(db, user, student, items, rows, now).Ok?
    ensures AdminCancelled(ConfirmItems(db, user, student, items, rows, now).value, trip) == AdminCancelled(db, trip)
    decreases |items|
  {
    if items != [] {
      var db1 := ConfirmItem(db, user, student, items[0], rows[0], now).value;
      assert db1.tickets == db.tickets[items[0].ticket := db1.tickets[items[0].ticket]];
      assert AdminCancelled(db1, trip) == AdminCancelled(db, trip);
      FreshRest(db, db1, items, rows);
      ConfirmedByAdmin(db1, user, student, items[1..], rows[1..], now, trip);
    }
  }

  /** A batch takes room for each turn that finds its hold gone, and nothing else. */
  lemma ConfirmedRoom(db: Db, user: UserId, role: Role, items: seq<Item>, now: Time, trip: TripId)
    requires FreshTickets(db, items) && ConfirmBatch(db, user, role, items, now).Ok? && trip in db.trips
    ensures var db' := ConfirmBatch(db, user, role, items, now).value;
            && db'.trips == db.trips
            && Room(db', trip) == Room(db, trip) - UnheldBy(db, user, items, trip)
  {
    if items != [] {
      var db0, student := Opened(db, user, role), role == Student;
      var rows := LockHolds(db0, user, items).value;
      LockedRows(db0, user, items);
      SameLocked(db, db0, user, items);
      var db' := ConfirmItems(db0, user, student, items, rows, now).value;
      ConfirmItemsUnheld(db0, user, student, items, rows, now, trip);
      ConfirmedByAdmin(db0, user, student, items, rows, now, trip);
      RoomFollowsSlack(db0, db', trip);
      SameRoom(db, db0, trip);
    }
  }

  lemma CancelledRoom(db: Db, read: TicketRead, role: Role, trip: TripId)
    requires read.id in db.tickets && read.trip == db.tickets[read.id].trip && trip in db.trips
    requires CommitCancel(db, read, role).Ok? && WithinCapacity(db, trip)
    ensures WithinCapacity(CommitCancel(db, read, role).value, trip) <==>
            (trip != read.trip || db.tickets[read.id].status == Confirmed
             || db.trips[trip].available == db.trips[trip].capacity || Room(db, trip) > 0)
  {
    var db' := CommitCancel(db, read, role).value;
    CancelSeats(db, read, role, trip);
    assert AdminCancelled(db', trip) == AdminCancelled(db, trip);
    RoomFollowsSlack(db, db', trip);
    if db.tickets[read.id].status == Confirmed {
      assert read.id in ConfirmedTickets(db, read.trip);
    }
  }

  lemma ResizedRoom(db: Db, trip: TripId, request: TripRequest, sold: nat)
    requires trip in db.trips && UpdateTrip(db, trip, request, sold).Ok? && WithinCapacity(db, trip)
    ensures WithinCapacity(UpdateTrip(db, trip, request, sold).value, trip) <==>
            |HoldsOn(db, trip)| + |ConfirmedTickets(db, trip)| <= request.capacity
  {
    var db' := UpdateTrip(db, trip, request, sold).value;
    assert HoldsOn(db', trip) == HoldsOn(db, trip) && ConfirmedTickets(db', trip) == ConfirmedTickets(db, trip);
  }

  lemma ReleasedRoom(db: Db, user: UserId, now: Time, trip: TripId)
    requires trip in db.trips && WithinCapacity(db, trip)
    ensures WithinCapacity(ReleaseAllHolds(db, user, now), trip)
  {
    var db', k := ReleaseAllHolds(db, user, now), |HoldsAmong(db, ActiveHolds(db, user, now), trip)|;
    ReleasedHolds(db, user, now, trip);
    ReturnSeatsClosed(db.trips[trip], k);
    assert ConfirmedTickets(db', trip) == ConfirmedTickets(db, trip);
  }

  lemma ReapedRoom(db: Db, hold: HoldId, from: TripId, trip: TripId)
    requires trip in db.trips && WithinCapacity(db, trip) && from in db.trips
    requires hold in db.holds && db.holds[hold].trip == from
    ensures WithinCapacity(CleanupSingleHold(db, hold, from).value, trip)
  {
    var db1 := IncrementTripSeat(db, from);
    var db' := DeleteHold(db1, hold);
    DropHold(db1, hold, trip);
    assert HoldsOn(db1, trip) == HoldsOn(db, trip) && ConfirmedTickets(db', trip) == ConfirmedTickets(db, trip);
    if trip == from {
      assert hold in HoldsOn(db, trip);
    }
  }

  lemma TripCancelledRoom(db: Db, gone: TripId, rows: seq<TicketRead>, trip: TripId)
    requires trip in db.trips && WithinCapacity(db, trip) && CommitTripCancel(db, gone, rows).Ok?
    ensures WithinCapacity(CommitTripCancel(db, gone, rows).value, trip)
  {
    var db' := CommitTripCancel(db, gone, rows).value;
    assert HoldsOn(db', trip) == HoldsOn(db, trip);
    SubsetSize(ConfirmedTickets(db', trip), ConfirmedTickets(db, trip));
  }

  // ----- one step

  lemma AddedTrip(w: World, s: Step, trip: TripId)
    requires Inv(w) && Enabled(w, s) && s.AddTrip? && trip !in w.db.trips
    ensures WithinCapacity(Next(w, s).db, trip)
  {
    var db' := Next(w, s).db;
    assert HoldsOn(db', trip) == {} && ConfirmedTickets(db', trip) == {};
  }

  lemma BookingTripKeys(w: World, s: Step)
    requires Inv(w) && Enabled(w, s) && (s.TakeHolds? || s.Confirm?)
    ensures Next(w, s).db.trips.Keys == w.db.trips.Keys
  {
    match s
    case TakeHolds(user, role, ask, ids) =>
      if HoldSeats(w.db, user, role, ask, w.now, ids).Ok? {
        TakeSeatsKeys(w.db, Hold(ask.trip, user, ask.pickup, ask.dropoff, w.now + HoldSeconds(role)), ids);
      }
    case Confirm(user, role, items) =>
      if ConfirmBatch(w.db, user, role, items, w.now).Ok? {
        ConfirmBatchKeepsOk(w.db, w.reported, user, role, items, w.now);
      }
  }

  lemma OtherTripKeys(w: World, s: Step)
    requires Inv(w) && Enabled(w, s)
    requires s.Release? || s.Reap? || s.Cancel? || s.CancelTrip? || s.ChangeTrip?
    ensures Next(w, s).db.trips.Keys == w.db.trips.Keys
  {
    match s
    case Release(user) =>
    case Reap(hold, trip) =>
    case Cancel(read, role) =>
      if CommitCancel(w.db, read, role).Ok? {
        CommitCancelKeepsOk(w.db, w.reported, read, role);
      }
    case CancelTrip(trip, rows) =>
    case ChangeTrip(trip, request, sold) =>
  }

  lemma RowTripKeys(w: World, s: Step)
    requires s.Tick? || s.MarkManual? || s.ListExpired? || s.ReadTicket? || s.ReadTrip?
    ensures Next(w, s).db.trips.Keys == w.db.trips.Keys
  {
  }

  /** A trip that is not there yet has nobody on it. */
  lemma NewTripRoom(w: World, s: Step, trip: TripId)
    requires Inv(w) && Enabled(w, s) && trip !in w.db.trips
    ensures WithinCapacity(Next(w, s).db, trip)
  {
    if s.AddTrip? {
      AddedTrip(w, s, trip);
    } else if s.TakeHolds? || s.Confirm? {
      BookingTripKeys(w, s);
    } else if s.Release? || s.Reap? || s.Cancel? || s.CancelTrip? || s.ChangeTrip? {
      OtherTripKeys(w, s);
    } else if s.NewPayment? || s.Record? || s.CreditUser? || s.CardResult? || s.PollTimeout? {
      PaymentBookings(w, s);
    } else {
      RowTripKeys(w, s);
    }
  }

  lemma PaymentRoom(w: World, s: Step, trip: TripId)
    requires s.NewPayment? || s.Record? || s.CreditUser? || s.CardResult? || s.PollTimeout?
    requires trip in w.db.trips && WithinCapacity(w.db, trip)
    ensures WithinCapacity(Next(w, s).db, trip)
  {
    PaymentBookings(w, s);
    SameRoom(w.db, Next(w, s).db, trip);
  }

  lemma RowStepsRoom(w: World, s: Step, trip: TripId)
    requires Enabled(w, s) && trip in w.db.trips && WithinCapacity(w.db, trip)
    requires s.Tick? || s.AddTrip? || s.MarkManual? || s.ListExpired? || s.ReadTicket? || s.ReadTrip?
    ensures WithinCapacity(Next(w, s).db, trip)
  {
    SameRoom(w.db, Next(w, s).db, trip);
  }

  /** From within the capacity, a step stays within it exactly when it leaves room. */
  lemma CapacityStepIff(w: World, s: Step, trip: TripId)
    requires Inv(w) && Enabled(w, s) && WithinCapacity(w.db, trip)
    ensures WithinCapacity(Next(w, s).db, trip) <==> LeavesRoom(w, s, trip)
  {
    if trip !in w.db.trips {
      NewTripRoom(w, s, trip);
    } else if s.TakeHolds? || s.Release? || s.Reap? {
      HoldStepsRoom(w, s, trip);
    } else if s.Confirm? || s.Cancel? || s.CancelTrip? || s.ChangeTrip? {
      TicketStepsRoom(w, s, trip);
    } else if s.NewPayment? || s.Record? || s.CreditUser? || s.CardResult? || s.PollTimeout? {
      PaymentRoom(w, s, trip);
    } else {
      RowStepsRoom(w, s, trip);
    }
  }

  lemma HoldStepsRoom(w: World, s: Step, trip: TripId)
    requires Inv(w) && Enabled(w, s) && trip in w.db.trips && WithinCapacity(w.db, trip)
    requires s.TakeHolds? || s.Release? || s.Reap?
    ensures WithinCapacity(Next(w, s).db, trip)
  {
    match s
    case TakeHolds(user, role, ask, ids) =>
      if HoldSeats(w.db, user, role, ask, w.now, ids).Ok? {
        HeldRoom(w.db, Hold(ask.trip, user, ask.pickup, ask.dropoff, w.now + HoldSeconds(role)), ids, trip);
      }
    case Release(user) => ReleasedRoom(w.db, user, w.now, trip);
    case Reap(hold, from) =>
      if hold in w.db.holds {
        ReapedRoom(w.db, hold, from, trip);
      }
  }

  lemma TicketStepsRoom(w: World, s: Step, trip: TripId)
    requires Inv(w) && Enabled(w, s) && trip in w.db.trips && WithinCapacity(w.db, trip)
    requires s.Confirm? || s.Cancel? || s.CancelTrip? || s.ChangeTrip?
    ensures WithinCapacity(Next(w, s).db, trip) <==> LeavesRoom(w, s, trip)
  {
    match s
    case Confirm(user, role, items) =>
      if ConfirmBatch(w.db, user, role, items, w.now).Ok? {
        ConfirmedRoom(w.db, user, role, items, w.now, trip);
      }
    case Cancel(read, role) =>
      if CommitCancel(w.db, read, role).Ok? {
        CancelledRoom(w.db, read, role, trip);
      }
    case CancelTrip(gone, rows) =>
      if CommitTripCancel(w.db, gone, rows).Ok? {
        TripCancelledRoom(w.db, gone, rows, trip);
      }
    case ChangeTrip(changed, request, sold) => ChangeStepRoom(w, changed, request, sold, trip);
  }

  lemma ChangeStepRoom(w: World, changed: TripId, request: TripRequest, sold: nat, trip: TripId)
    requires trip in w.db.trips && WithinCapacity(w.db, trip)
    ensures var s := ChangeTrip(changed, request, sold);
            WithinCapacity(Next(w, s).db, trip) <==> LeavesRoom(w, s, trip)
  {
    if UpdateTrip(w.db, changed, request, sold).Ok? {
      if changed == trip {
        ResizedRoom(w.db, trip, request, sold);
      } else {
        SameRoom(w.db, UpdateTrip(w.db, changed, request, sold).value, trip);
      }
    }
  }

  // ----- whole runs

  lemma {:induction false} RoomyRunWithin(ws: seq<World>, steps: seq<Step>, i: nat, trip: TripId)
    requires Run(ws, steps) && i <= |steps|
    requires forall j :: 0 <= j < i ==> LeavesRoom(ws[j], steps[j], trip)
    ensures WithinCapacity(ws[i].db, trip)
  {
    if i > 0 {
      RoomyRunWithin(ws, steps, i - 1, trip);
      RunKeepsInv(ws, steps, i - 1);
      CapacityStepIff(ws[i - 1], steps[i - 1], trip);
    }
  }

  /** In a run the free seats, holds and valid tickets of a trip stay within its capacity
      exactly when every step leaves room. */
  lemma CapacityKeptIff(ws: seq<World>, steps: seq<Step>, trip: TripId)
    requires Run(ws, steps)
    ensures (forall i :: 0 <= i < |ws| ==> WithinCapacity(ws[i].db, trip)) <==>
            (forall j :: 0 <= j < |steps| ==> LeavesRoom(ws[j], steps[j], trip))
  {
    if forall j :: 0 <= j < |steps| ==> LeavesRoom(ws[j], steps[j], trip) {
      forall i | 0 <= i < |ws|
        ensures WithinCapacity(ws[i].db, trip)
      {
        RoomyRunWithin(ws, steps, i, trip);
      }
    }
    if forall i :: 0 <= i < |ws| ==> WithinCapacity(ws[i].db, trip) {
      forall j | 0 <= j < |steps|
        ensures LeavesRoom(ws[j], steps[j], trip)
      {
        RunKeepsInv(ws, steps, j);
        assert WithinCapacity(ws[j].db, trip) && WithinCapacity(ws[j + 1].db, trip);
        CapacityStepIff(ws[j], steps[j], trip);
      }
    }
  }
}
