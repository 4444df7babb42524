/** The weekly limit on tickets and holds of one user in one direction. */
module WeeklyQuota {
  import opened Outcomes
  import opened Ledgers
  import opened Tables
  import opened Bookings
  import opened SeatAccounting
  import opened System
  import opened Invariants
  import opened Reachable
  import opened SeatRuns

  /** Every trip keeps its direction and its week. */
  ghost predicate SameWeeks(trips: map<TripId, Trip>, trips': map<TripId, Trip>) {
    forall t :: t in trips ==>
      t in trips' && trips'[t].direction == trips[t].direction
        && WeekOf(trips'[t].departure) == WeekOf(trips[t].departure)
  }

  /** No new hold and no new valid ticket. */
  ghost predicate NothingTaken(db: Db, db': Db) {
    && (forall h :: h in db'.holds ==> h in db.holds && db'.holds[h] == db.holds[h])
    && (forall t :: t in db'.tickets && db'.tickets[t].status == Confirmed ==>
        t in db.tickets && db'.tickets[t] == db.tickets[t])
  }

  lemma UsageShrinks(db: Db, db': Db, now: Time, now': Time, user: UserId, dir: Direction, week: int)
    requires RowsOk(db) && SameWeeks(db.trips, db'.trips) && NothingTaken(db, db') && now <= now'
    ensures Usage(db', user, dir, week, now') <= Usage(db, user, dir, week, now)
  {
    SubsetSize(CountedTickets(db', user, dir, week), CountedTickets(db, user, dir, week));
    SubsetSize(CountedHolds(db', user, dir, week, now'), CountedHolds(db, user, dir, week, now));
  }

  // ----- HoldSeats

  predicate InWeek(db: Db, trip: TripId, dir: Direction, week: int) {
    trip in db.trips && db.trips[trip].direction == dir && WeekOf(db.trips[trip].departure) == week
  }

  function IdSet(ids: seq<HoldId>): set<HoldId> {
    set h | h in ids
  }

  lemma {:induction false} IdsSize(ids: seq<HoldId>)
    requires forall i, j :: 0 <= i < j < |ids| ==> ids[i] != ids[j]
    ensures |IdSet(ids)| == |ids|
  {
    if ids != [] {
      var rest := ids[1..];
      assert forall i :: 0 <= i < |rest| ==> rest[i] == ids[i + 1] && rest[i] != ids[0];
      IdsSize(rest);
      assert ids == [ids[0]] + rest;
      assert IdSet(ids) == {ids[0]} + IdSet(rest);
    }
  }

  lemma SameTickets(db: Db, db': Db, user: UserId, dir: Direction, week: int)
    requires db'.tickets == db.tickets && OnlySeats(db.trips, db'.trips)
    ensures CountedTickets(db', user, dir, week) == CountedTickets(db, user, dir, week)
  {
  }

  lemma TakenHolds(db: Db, db': Db, hold: Hold, ids: seq<HoldId>, now: Time, user: UserId, dir: Direction, week: int)
    requires SeatsTaken(db, db', hold, ids) && hold.expiresAt > now
    requires forall i :: 0 <= i < |ids| ==> ids[i] !in db.holds
    ensures CountedHolds(db', user, dir, week, now) ==
            CountedHolds(db, user, dir, week, now) +
              if hold.user == user && InWeek(db, hold.trip, dir, week) then IdSet(ids) else {}
    ensures CountedHolds(db, user, dir, week, now) !! IdSet(ids)
  {
  }

  /** Successful holds count at once, for their own user, direction and week. */
  lemma TakenUsage(db: Db, db': Db, hold: Hold, ids: seq<HoldId>, now: Time, user: UserId, dir: Direction, week: int)
    requires SeatsTaken(db, db', hold, ids) && hold.expiresAt > now
    requires forall i :: 0 <= i < |ids| ==> ids[i] !in db.holds
    requires forall i, j :: 0 <= i < j < |ids| ==> ids[i] != ids[j]
    ensures Usage(db', user, dir, week, now) ==
            Usage(db, user, dir, week, now) + if hold.user == user && InWeek(db, hold.trip, dir, week) then |ids| else 0
  {
    SameTickets(db, db', user, dir, week);
    TakenHolds(db, db', hold, ids, now, user, dir, week);
    IdsSize(ids);
  }

  // ----- ConfirmBatch

  lemma AddTicketUsage(db: Db, id: TicketId, ticket: Ticket, user: UserId, dir: Direction, week: int)
    requires id !in db.tickets && ticket.status == Confirmed
    ensures |CountedTickets(db.(tickets := db.tickets[id := ticket]), user, dir, week)| ==
            |CountedTickets(db, user, dir, week)| +
              if ticket.user == user && InWeek(db, ticket.trip, dir, week) then 1 else 0
  {
    var db' := db.(tickets := db.tickets[id := ticket]);
    var t, t' := CountedTickets(db, user, dir, week), CountedTickets(db', user, dir, week);
    if ticket.user == user && InWeek(db, ticket.trip, dir, week) {
      assert t' == t + {id};
    } else {
      assert t' == t;
    }
  }

  lemma DropHoldUsage(db: Db, id: HoldId, user: UserId, dir: Direction, week: int, now: Time)
    ensures |CountedHolds(DeleteHold(db, id), user, dir, week, now)| ==
            |CountedHolds(db, user, dir, week, now)| - if id in CountedHolds(db, user, dir, week, now) then 1 else 0
  {
    assert CountedHolds(DeleteHold(db, id), user, dir, week, now) == CountedHolds(db, user, dir, week, now) - {id};
  }

  lemma SameUsage(db: Db, db': Db, user: UserId, dir: Direction, week: int, now: Time)
    requires db'.trips == db.trips && db'.tickets == db.tickets && db'.holds == db.holds
    ensures Usage(db', user, dir, week, now) == Usage(db, user, dir, week, now)
  {
    assert CountedTickets(db', user, dir, week) == CountedTickets(db, user, dir, week);
    assert CountedHolds(db', user, dir, week, now) == CountedHolds(db, user, dir, week, now);
  }

  /** A live hold of the user turns into a ticket and counts as before; a hold that is
      gone or at the end of its life adds one; somebody else's does not count. */
  lemma ConfirmItemUsage(db: Db, owner: UserId, student: bool, item: Item, row: Hold, now: Time, user: UserId,
      dir: Direction, week: int)
    requires item.ticket !in db.tickets
    requires row.user == owner && (item.hold in db.holds ==> db.holds[item.hold] == row)
    requires ConfirmItem(db, owner, student, item, row, now).Ok?
    ensures Usage(ConfirmItem(db, owner, student, item, row, now).value, user, dir, week, now) ==
            Usage(db, user, dir, week, now) +
            if owner == user && InWeek(db, row.trip, dir, week)
              && !(item.hold in db.holds && now < row.expiresAt) then 1 else 0
  {
    var ticket := TicketFor(db, owner, item, row);
    var db1 := InsertTicket(db, item.ticket, ticket).value;
    var db2 := DeleteHold(db1, item.hold);
    AddTicketUsage(db, item.ticket, ticket, user, dir, week);
    assert CountedHolds(db1, user, dir, week, now) == CountedHolds(db, user, dir, week, now);
    DropHoldUsage(db1, item.hold, user, dir, week, now);
    assert CountedTickets(db2, user, dir, week) == CountedTickets(db1, user, dir, week);
    SameUsage(db2, ConfirmItem(db, owner, student, item, row, now).value, user, dir, week, now);
  }

  /** The turns of a batch, for trips of one direction and week, that find no live hold. */
  function Uncounted(trips: map<TripId, Trip>, held: set<HoldId>, items: seq<Item>, rows: seq<Hold>, now: Time,
      dir: Direction, week: int): nat
    requires |items| == |rows|
  {
    if items == [] then 0
    else
      var t := rows[0].trip;
      Uncounted(trips, held - {items[0].hold}, items[1..], rows[1..], now, dir, week) +
      if t in trips && trips[t].direction == dir && WeekOf(trips[t].departure) == week
         && !(items[0].hold in held && now < rows[0].expiresAt)
      then 1 else 0
  }

  lemma {:induction false} ConfirmItemsUsage(db: Db, owner: UserId, student: bool, items: seq<Item>, rows: seq<Hold>,
      now: Time, user: UserId, dir: Direction, week: int)
    requires |items| == |rows| && RowsRead(db, items, rows) && FreshTickets(db, items)
    requires forall i :: 0 <= i < |rows| ==> rows[i].user == owner
    requires ConfirmItems(db, owner, student, items, rows, now).Ok?
    ensures Usage(ConfirmItems(db, owner, student, items, rows, now).value, user, dir, week, now) ==
            Usage(db, user, dir, week, now) +
            if owner == user then Uncounted(db.trips, db.holds.Keys, items, rows, now, dir, week) else 0
    decreases |items|
  {
    if items != [] {
      var db1 := ConfirmItem(db, owner, student, items[0], rows[0], now).value;
      ConfirmItemUsage(db, owner, student, items[0], rows[0], now, user, dir, week);
      assert db1.trips == db.trips && db1.holds == db.holds - {items[0].hold};
      assert db1.holds.Keys == db.holds.Keys - {items[0].hold};
      FreshRest(db, db1, items, rows);
      ConfirmItemsUsage(db1, owner, student, items[1..], rows[1..], now, user, dir, week);
    }
  }

  ghost predicate LiveTurns(held: set<HoldId>, items: seq<Item>, rows: seq<Hold>, now: Time)
    requires |items| == |rows|
  {
    && DistinctHolds(items)
    && forall i :: 0 <= i < |items| ==> items[i].hold in held && now < rows[i].expiresAt
  }

  lemma LiveTurnsSplit(held: set<HoldId>, items: seq<Item>, rows: seq<Hold>, now: Time)
    requires |items| == |rows| > 0
    ensures LiveTurns(held, items, rows, now) <==>
            items[0].hold in held && now < rows[0].expiresAt
              && LiveTurns(held - {items[0].hold}, items[1..], rows[1..], now)
  {
    var rest, later := items[1..], rows[1..];
    assert forall i :: 0 <= i < |rest| ==> rest[i] == items[i + 1] && later[i] == rows[i + 1];
    if items[0].hold in held && now < rows[0].expiresAt && LiveTurns(held - {items[0].hold}, rest, later, now) {
      assert forall i :: 0 < i < |items| ==> items[i] == rest[i - 1] && rows[i] == later[i - 1];
    }
  }

  ghost predicate UncountedNowhere(trips: map<TripId, Trip>, held: set<HoldId>, items: seq<Item>, rows: seq<Hold>,
      now: Time)
    requires |items| == |rows|
  {
    forall dir, week :: Uncounted(trips, held, items, rows, now, dir, week) == 0
  }

  lemma UncountedSplit(trips: map<TripId, Trip>, held: set<HoldId>, items: seq<Item>, rows: seq<Hold>, now: Time)
    requires |items| == |rows| > 0 && rows[0].trip in trips
    ensures UncountedNowhere(trips, held, items, rows, now) <==>
            items[0].hold in held && now < rows[0].expiresAt
            && UncountedNowhere(trips, held - {items[0].hold}, items[1..], rows[1..], now)
  {
    var rest := held - {items[0].hold};
    var trip := trips[rows[0].trip];
    var first := Uncounted(trips, held, items, rows, now, trip.direction, WeekOf(trip.departure));
    assert first == 0 ==> items[0].hold in held && now < rows[0].expiresAt;
    forall dir, week
      ensures Uncounted(trips, held, items, rows, now, dir, week) >= Uncounted(trips, rest, items[1..], rows[1..], now,
                                                                               dir, week)
      ensures items[0].hold in held && now < rows[0].expiresAt ==>
                Uncounted(trips, held, items, rows, now, dir, week) ==
                  Uncounted(trips, rest, items[1..], rows[1..], now, dir, week)
    {
    }
  }

  lemma {:induction false} UncountedNowhereIff(trips: map<TripId, Trip>, held: set<HoldId>, items: seq<Item>,
      rows: seq<Hold>, now: Time)
    requires |items| == |rows| && forall i :: 0 <= i < |rows| ==> rows[i].trip in trips
    ensures UncountedNowhere(trips, held, items, rows, now) <==> LiveTurns(held, items, rows, now)
  {
    if items != [] {
      UncountedNowhereIff(trips, held - {items[0].hold}, items[1..], rows[1..], now);
      UncountedSplit(trips, held, items, rows, now);
      LiveTurnsSplit(held, items, rows, now);
    }
  }

  /** All holds of a batch are distinct and none is at the very end of its life. */
  ghost predicate LiveBatch(db: Db, items: seq<Item>, now: Time) {
    && DistinctHolds(items)
    && forall i :: 0 <= i < |items| && items[i].hold in db.holds ==> now < db.holds[items[i].hold].expiresAt
  }

  /** A confirmation never lowers a usage; it leaves all those of its user as they were
      exactly when its holds are distinct and live. */
  lemma ConfirmBatchUsageIff(db: Db, owner: UserId, role: Role, items: seq<Item>, now: Time)
    requires FreshTickets(db, items) && ConfirmBatch(db, owner, role, items, now).Ok?
    ensures var db' := ConfirmBatch(db, owner, role, items, now).value;
            && (forall user, dir, week :: Usage(db', user, dir, week, now) >= Usage(db, user, dir, week, now))
            && (forall user, dir, week :: user != owner ==>
                Usage(db', user, dir, week, now) == Usage(db, user, dir, week, now))
            && ((forall dir, week :: Usage(db', owner, dir, week, now) == Usage(db, owner, dir, week, now)) <==>
                LiveBatch(db, items, now))
  {
    var db' := ConfirmBatch(db, owner, role, items, now).value;
    if items == [] {
      return;
    }
    var db0 := Opened(db, owner, role);
    LockedRows(db0, owner, items);
    var rows := LockHolds(db0, owner, items).value;
    assert forall i :: 0 <= i < |rows| ==> rows[i].trip in db.trips;
    forall user, dir, week
      ensures Usage(db', user, dir, week, now) == Usage(db, user, dir, week, now) +
              if owner == user then Uncounted(db.trips, db.holds.Keys, items, rows, now, dir, week) else 0
    {
      ConfirmItemsUsage(db0, owner, role == Student, items, rows, now, user, dir, week);
      SameUsage(db, db0, user, dir, week, now);
    }
    UncountedNowhereIff(db.trips, db.holds.Keys, items, rows, now);
    if LiveTurns(db.holds.Keys, items, rows, now) {
      assert forall dir, week :: Uncounted(db.trips, db.holds.Keys, items, rows, now, dir, week) == 0;
    } else if forall dir, week :: Usage(db', owner, dir, week, now) == Usage(db, owner, dir, week, now) {
      forall dir, week
        ensures Uncounted(db.trips, db.holds.Keys, items, rows, now, dir, week) == 0
      {
        assert Usage(db', owner, dir, week, now) == Usage(db, owner, dir, week, now);
      }
    }
  }

  // ----- runs

  /** What a confirmation by `owner` adds to the owner's usage. */
  function UncountedBy(db: Db, owner: UserId, items: seq<Item>, now: Time, dir: Direction, week: int): nat {
    LockedLength(db, owner, items);
    match LockHolds(db, owner, items)
    case Err(_) => 0
    case Ok(rows) => Uncounted(db.trips, db.holds.Keys, items, rows, now, dir, week)
  }

  function TicketsOnTrip(db: Db, user: UserId, trip: TripId): set<TicketId> {
    set t | t in db.tickets && db.tickets[t].user == user && db.tickets[t].status == Confirmed
      && db.tickets[t].trip == trip
  }

  function LiveHoldsOnTrip(db: Db, user: UserId, trip: TripId, now: Time): set<HoldId> {
    set h | h in db.holds && db.holds[h].user == user && db.holds[h].expiresAt > now && db.holds[h].trip == trip
  }

  /** The update goes through and brings the trip into that direction and week. */
  predicate MovesInto(db: Db, trip: TripId, request: TripRequest, sold: nat, dir: Direction, week: int) {
    && UpdateTrip(db, trip, request, sold).Ok? && trip in db.trips && db.trips[trip].direction == dir
    && WeekOf(db.trips[trip].departure) != week && WeekOf(request.departure) == week
  }

  /** What a step will add to the user's usage in that direction and week, computed
      from the rows before the step. */
  function Adds(w: World, s: Step, user: UserId, dir: Direction, week: int): nat {
    match s
    case TakeHolds(who, role, ask, ids) =>
      if who == user && InWeek(w.db, ask.trip, dir, week) && HoldSeats(w.db, who, role, ask, w.now, ids).Ok?
      then |ids| else 0
    case Confirm(who, role, items) =>
      if who == user && ConfirmBatch(w.db, who, role, items, w.now).Ok?
      then UncountedBy(w.db, who, items, w.now, dir, week) else 0
    case ChangeTrip(trip, request, sold) =>
      if MovesInto(w.db, trip, request, sold, dir, week)
      then |TicketsOnTrip(w.db, user, trip)| + |LiveHoldsOnTrip(w.db, user, trip, w.now)| else 0
    case _ => 0
  }

  predicate Fits(w: World, s: Step, user: UserId, dir: Direction, week: int, limit: int) {
    Usage(w.db, user, dir, week, w.now) + Adds(w, s, user, dir, week) <= limit
  }

  ghost predicate Within(w: World, user: UserId, dir: Direction, week: int, limit: int) {
    Usage(w.db, user, dir, week, w.now) <= limit
  }

  /** The usage rises by exactly what `Adds` says, and only by that. */
  ghost predicate RisesBy(w: World, w': World, adds: nat, user: UserId, dir: Direction, week: int) {
    && Usage(w'.db, user, dir, week, w'.now) <= Usage(w.db, user, dir, week, w.now) + adds
    && (adds > 0 ==> Usage(w'.db, user, dir, week, w'.now) == Usage(w.db, user, dir, week, w.now) + adds)
  }

  lemma HeldUsage(db: Db, who: UserId, role: Role, ask: HoldRequest, now: Time, ids: seq<HoldId>,
      user: UserId, dir: Direction, week: int)
    requires HoldSeats(db, who, role, ask, now, ids).Ok?
    requires forall i :: 0 <= i < |ids| ==> ids[i] !in db.holds
    requires forall i, j :: 0 <= i < j < |ids| ==> ids[i] != ids[j]
    ensures Usage(HoldSeats(db, who, role, ask, now, ids).value, user, dir, week, now) ==
            Usage(db, user, dir, week, now) + if who == user && InWeek(db, ask.trip, dir, week) then |ids| else 0
  {
    var hold := Hold(ask.trip, who, ask.pickup, ask.dropoff, now + HoldSeconds(role));
    TakeSeatsRows(db, hold, ids);
    TakenUsage(db, TakeSeats(db, hold, ids).value, hold, ids, now, user, dir, week);
  }

  lemma TakeHoldsRises(w: World, who: UserId, role: Role, ask: HoldRequest, ids: seq<HoldId>, user: UserId,
      dir: Direction, week: int)
    requires Inv(w) && Enabled(w, TakeHolds(who, role, ask, ids))
    ensures var s := TakeHolds(who, role, ask, ids);
            RisesBy(w, Next(w, s), Adds(w, s, user, dir, week), user, dir, week)
  {
    if HoldSeats(w.db, who, role, ask, w.now, ids).Ok? {
      HeldUsage(w.db, who, role, ask, w.now, ids, user, dir, week);
    }
  }

  lemma ConfirmRises(w: World, who: UserId, role: Role, items: seq<Item>, user: UserId, dir: Direction, week: int)
    requires Inv(w) && Enabled(w, Confirm(who, role, items))
    ensures var s := Confirm(who, role, items); RisesBy(w, Next(w, s), Adds(w, s, user, dir, week), user, dir, week)
  {
    if ConfirmBatch(w.db, who, role, items, w.now).Ok? && items != [] {
      var db0 := Opened(w.db, who, role);
      LockedRows(db0, who, items);
      SameLocked(w.db, db0, who, items);
      ConfirmItemsUsage(db0, who, role == Student, items, LockHolds(db0, who, items).value, w.now, user, dir, week);
      SameUsage(w.db, db0, user, dir, week, w.now);
    }
  }

  /** The trip keeps its direction and changes its departure. */
  ghost predicate Rescheduled(db: Db, db': Db, trip: TripId, departure: Time) {
    && trip in db.trips && db'.tickets == db.tickets && db'.holds == db.holds
    && (forall t :: t in db'.trips <==> t in db.trips)
    && (forall t :: t in db.trips && t != trip ==> db'.trips[t] == db.trips[t])
    && db'.trips[trip].direction == db.trips[trip].direction && db'.trips[trip].departure == departure
  }

  lemma MovedTickets(db: Db, db': Db, trip: TripId, departure: Time, user: UserId, dir: Direction, week: int)
    requires Rescheduled(db, db', trip, departure) && db.trips[trip].direction == dir
    requires WeekOf(db.trips[trip].departure) != week && WeekOf(departure) == week
    ensures |CountedTickets(db', user, dir, week)| ==
            |CountedTickets(db, user, dir, week)| + |TicketsOnTrip(db, user, trip)|
  {
    var a, b := CountedTickets(db, user, dir, week), TicketsOnTrip(db, user, trip);
    assert CountedTickets(db', user, dir, week) == a + b;
    assert a !! b;
  }

  lemma MovedHolds(db: Db, db': Db, trip: TripId, departure: Time, user: UserId, dir: Direction, week: int, now: Time)
    requires Rescheduled(db, db', trip, departure) && db.trips[trip].direction == dir
    requires WeekOf(db.trips[trip].departure) != week && WeekOf(departure) == week
    ensures |CountedHolds(db', user, dir, week, now)| ==
            |CountedHolds(db, user, dir, week, now)| + |LiveHoldsOnTrip(db, user, trip, now)|
  {
    var a, b := CountedHolds(db, user, dir, week, now), LiveHoldsOnTrip(db, user, trip, now);
    assert CountedHolds(db', user, dir, week, now) == a + b;
    assert a !! b;
  }

  lemma MovedIntoRises(db: Db, trip: TripId, request: TripRequest, sold: nat, user: UserId, dir: Direction, week: int,
      now: Time)
    requires MovesInto(db, trip, request, sold, dir, week)
    ensures Usage(UpdateTrip(db, trip, request, sold).value, user, dir, week, now) ==
            Usage(db, user, dir, week, now) + |TicketsOnTrip(db, user, trip)| + |LiveHoldsOnTrip(db, user, trip, now)|
  {
    var db' := UpdateTrip(db, trip, request, sold).value;
    MovedTickets(db, db', trip, request.departure, user, dir, week);
    MovedHolds(db, db', trip, request.departure, user, dir, week, now);
  }

  lemma OtherwiseChangedShrinks(db: Db, trip: TripId, request: TripRequest, sold: nat, user: UserId, dir: Direction,
      week: int, now: Time)
    requires UpdateTrip(db, trip, request, sold).Ok? && !MovesInto(db, trip, request, sold, dir, week)
    ensures Usage(UpdateTrip(db, trip, request, sold).value, user, dir, week, now) <= Usage(db, user, dir, week, now)
  {
    var db' := UpdateTrip(db, trip, request, sold).value;
    SubsetSize(CountedTickets(db', user, dir, week), CountedTickets(db, user, dir, week));
    SubsetSize(CountedHolds(db', user, dir, week, now), CountedHolds(db, user, dir, week, now));
  }

  lemma ChangeTripRises(w: World, trip: TripId, request: TripRequest, sold: nat, user: UserId, dir: Direction,
      week: int)
    ensures var s := ChangeTrip(trip, request, sold);
            RisesBy(w, Next(w, s), Adds(w, s, user, dir, week), user, dir, week)
  {
    if MovesInto(w.db, trip, request, sold, dir, week) {
      MovedIntoRises(w.db, trip, request, sold, user, dir, week, w.now);
    } else if UpdateTrip(w.db, trip, request, sold).Ok? {
      OtherwiseChangedShrinks(w.db, trip, request, sold, user, dir, week, w.now);
    }
  }

  lemma CancelTakesNothing(db: Db, read: TicketRead, role: Role)
    requires CommitCancel(db, read, role).Ok?
    ensures NothingTaken(db, CommitCancel(db, read, role).value)
            && SameWeeks(db.trips, CommitCancel(db, read, role).value.trips)
  {
    CancelInParts(db, read, role);
  }

  lemma TripCancelTakesNothing(db: Db, trip: TripId, rows: seq<TicketRead>)
    ensures var db' := Keep(db, CommitTripCancel(db, trip, rows));
            NothingTaken(db, db') && SameWeeks(db.trips, db'.trips)
  {
  }

  lemma ReapTakesNothing(db: Db, hold: HoldId, trip: TripId)
    ensures var db' := Keep(db, CleanupSingleHold(db, hold, trip));
            NothingTaken(db, db') && SameWeeks(db.trips, db'.trips)
  {
  }

  lemma ReleaseTakesNothing(db: Db, user: UserId, now: Time)
    ensures NothingTaken(db, ReleaseAllHolds(db, user, now))
            && SameWeeks(db.trips, ReleaseAllHolds(db, user, now).trips)
  {
    forall t | t in db.trips
      ensures var t' := ReleaseAllHolds(db, user, now).trips[t];
              t'.direction == db.trips[t].direction && t'.departure == db.trips[t].departure
    {
      ReturnSeatsOnly(db.trips[t], |HoldsAmong(db, ActiveHolds(db, user, now), t)|);
    }
  }

  /** A step that takes nothing and moves no trip to another week. */
  ghost predicate TakesNothing(w: World, w': World) {
    NothingTaken(w.db, w'.db) && SameWeeks(w.db.trips, w'.db.trips) && w.now <= w'.now
  }

  lemma BookingStepsTakeNothing(w: World, s: Step)
    requires Inv(w) && Enabled(w, s) && (s.Cancel? || s.CancelTrip? || s.Release? || s.Reap?)
    ensures TakesNothing(w, Next(w, s))
  {
    match s
    case Cancel(read, role) =>
      if CommitCancel(w.db, read, role).Ok? {
        CancelTakesNothing(w.db, read, role);
      }
    case Release(who) => ReleaseTakesNothing(w.db, who, w.now);
    case CancelTrip(trip, rows) => TripCancelTakesNothing(w.db, trip, rows);
    case Reap(hold, trip) => ReapTakesNothing(w.db, hold, trip);
  }

  lemma TripStepsTakeNothing(w: World, s: Step)
    requires Enabled(w, s)
    requires s.Tick? || s.AddTrip? || s.MarkManual? || s.ListExpired? || s.ReadTicket? || s.ReadTrip?
    ensures TakesNothing(w, Next(w, s))
  {
  }

  lemma PaymentStepsTakeNothing(w: World, s: Step)
    requires s.NewPayment? || s.Record? || s.CreditUser? || s.CardResult? || s.PollTimeout?
    ensures TakesNothing(w, Next(w, s))
  {
    PaymentBookings(w, s);
    assert SameBookings(w.db, Next(w, s).db) && Next(w, s).now == w.now;
  }

  lemma OtherStepsTakeNothing(w: World, s: Step)
    requires Inv(w) && Enabled(w, s) && !s.TakeHolds? && !s.Confirm? && !s.ChangeTrip?
    ensures TakesNothing(w, Next(w, s))
  {
    if s.Cancel? || s.CancelTrip? || s.Release? || s.Reap? {
      BookingStepsTakeNothing(w, s);
    } else if s.NewPayment? || s.Record? || s.CreditUser? || s.CardResult? || s.PollTimeout? {
      PaymentStepsTakeNothing(w, s);
    } else {
      TripStepsTakeNothing(w, s);
    }
  }

  lemma StepRises(w: World, s: Step, user: UserId, dir: Direction, week: int)
    requires Inv(w) && Enabled(w, s)
    ensures RisesBy(w, Next(w, s), Adds(w, s, user, dir, week), user, dir, week)
  {
    match s
    case TakeHolds(who, role, ask, ids) => TakeHoldsRises(w, who, role, ask, ids, user, dir, week);
    case Confirm(who, role, items) => ConfirmRises(w, who, role, items, user, dir, week);
    case ChangeTrip(trip, request, sold) => ChangeTripRises(w, trip, request, sold, user, dir, week);
    case _ =>
      OtherStepsTakeNothing(w, s);
      UsageShrinks(w.db, Next(w, s).db, w.now, Next(w, s).now, user, dir, week);
  }

  /** From within the limit, a step stays within it exactly when what it adds fits. */
  lemma QuotaStepIff(w: World, s: Step, user: UserId, dir: Direction, week: int, limit: int)
    requires Inv(w) && Enabled(w, s) && Within(w, user, dir, week, limit)
    ensures Within(Next(w, s), user, dir, week, limit) <==> Fits(w, s, user, dir, week, limit)
  {
    StepRises(w, s, user, dir, week);
  }

  lemma {:induction false} FittingRunWithin(ws: seq<World>, steps: seq<Step>, i: nat, user: UserId, dir: Direction,
      week: int, limit: nat)
    requires Run(ws, steps) && i <= |steps|
    requires forall j :: 0 <= j < i ==> Fits(ws[j], steps[j], user, dir, week, limit)
    ensures Within(ws[i], user, dir, week, limit)
  {
    if i == 0 {
      assert CountedTickets(ws[0].db, user, dir, week) == {}
             && CountedHolds(ws[0].db, user, dir, week, ws[0].now) == {};
    } else {
      FittingRunWithin(ws, steps, i - 1, user, dir, week, limit);
      RunKeepsInv(ws, steps, i - 1);
      QuotaStepIff(ws[i - 1], steps[i - 1], user, dir, week, limit);
    }
  }

  /** In a run a user's valid tickets and live holds in one direction and week stay
      within the limit exactly when every step fits: the holds it takes, the ticketed
      turns that find no live hold, and what it moves into the week with a trip. */
  lemma QuotaKeptIff(ws: seq<World>, steps: seq<Step>, user: UserId, dir: Direction, week: int, limit: nat)
    requires Run(ws, steps)
    ensures (forall i :: 0 <= i < |ws| ==> Within(ws[i], user, dir, week, limit)) <==>
            (forall j :: 0 <= j < |steps| ==> Fits(ws[j], steps[j], user, dir, week, limit))
  {
    if forall j :: 0 <= j < |steps| ==> Fits(ws[j], steps[j], user, dir, week, limit) {
      forall i | 0 <= i < |ws|
        ensures Within(ws[i], user, dir, week, limit)
      {
        FittingRunWithin(ws, steps, i, user, dir, week, limit);
      }
    }
    if forall i :: 0 <= i < |ws| ==> Within(ws[i], user, dir, week, limit) {
      forall j | 0 <= j < |steps|
        ensures Fits(ws[j], steps[j], user, dir, week, limit)
      {
        RunKeepsInv(ws, steps, j);
        assert Within(ws[j], user, dir, week, limit) && Within(ws[j + 1], user, dir, week, limit);
        QuotaStepIff(ws[j], steps[j], user, dir, week, limit);
      }
    }
  }

  // ----- what the checks of the code are good for

  /** Holds are asked for in the current week under a quota not above the limit,
      confirmations name distinct live holds, and no trip changes its week. */
  ghost predicate QuotaSafe(w: World, s: Step, user: UserId, dir: Direction, week: int, limit: int) {
    match s
    case TakeHolds(who, role, ask, ids) =>
      who == user && InWeek(w.db, ask.trip, dir, week) ==>
        WeekOf(w.now) == week && ((role, dir) in w.db.quotas ==> w.db.quotas[(role, dir)] <= limit)
    case Confirm(who, role, items) =>
      who == user && ConfirmBatch(w.db, who, role, items, w.now).Ok? ==> LiveBatch(w.db, items, w.now)
    case ChangeTrip(trip, request, sold) => !MovesInto(w.db, trip, request, sold, dir, week)
    case _ => true
  }

  lemma SafeStepFits(w: World, s: Step, user: UserId, dir: Direction, week: int, limit: int)
    requires Inv(w) && Enabled(w, s) && QuotaSafe(w, s, user, dir, week, limit) && Within(w, user, dir, week, limit)
    ensures Fits(w, s, user, dir, week, limit)
  {
    if s.Confirm? && s.user == user && ConfirmBatch(w.db, user, s.role, s.items, w.now).Ok? {
      StepRises(w, s, user, dir, week);
      ConfirmBatchUsageIff(w.db, user, s.role, s.items, w.now);
    }
  }

  /** In a run of such steps the limit is kept: of the checks of the code, these are
      the ones that protect it. */
  lemma {:induction false} QuotaNeverExceeded(ws: seq<World>, steps: seq<Step>, i: nat, user: UserId, dir: Direction,
      week: int, limit: nat)
    requires Run(ws, steps) && i <= |steps|
    requires forall j :: 0 <= j < i ==> QuotaSafe(ws[j], steps[j], user, dir, week, limit)
    ensures Within(ws[i], user, dir, week, limit)
  {
    if i == 0 {
      FittingRunWithin(ws, steps, 0, user, dir, week, limit);
    } else {
      QuotaNeverExceeded(ws, steps, i - 1, user, dir, week, limit);
      RunKeepsInv(ws, steps, i - 1);
      SafeStepFits(ws[i - 1], steps[i - 1], user, dir, week, limit);
      QuotaStepIff(ws[i - 1], steps[i - 1], user, dir, week, limit);
    }
  }

  // ----- the week that is checked

  /** For trips leaving at `departure`, a hold request accepted at `now` never takes
      a user who is within the limit for the week of the trip over it. */
  ghost predicate CheckProtects(now: Time, departure: Time) {
    forall db: Db, user: UserId, role: Role, ask: HoldRequest, ids: seq<HoldId> ::
      AcceptedWithin(db, user, role, ask, ids, now, departure) ==>
        Usage(HoldSeats(db, user, role, ask, now, ids).value, user, db.trips[ask.trip].direction, WeekOf(departure),
              now)
        <= db.quotas[(role, db.trips[ask.trip].direction)]
  }

  ghost predicate AcceptedWithin(db: Db, user: UserId, role: Role, ask: HoldRequest, ids: seq<HoldId>, now: Time,
      departure: Time)
  {
    && RowsOk(db) && SeatsOk(db)
    && ask.trip in db.trips && db.trips[ask.trip].departure == departure
    && (role, db.trips[ask.trip].direction) in db.quotas
    && |ids| == Max(ask.count, 0)
    && (forall i :: 0 <= i < |ids| ==> ids[i] !in db.holds)
    && (forall i, j :: 0 <= i < j < |ids| ==> ids[i] != ids[j])
    && HoldSeats(db, user, role, ask, now, ids).Ok?
    && Usage(db, user, db.trips[ask.trip].direction, WeekOf(departure), now)
       <= db.quotas[(role, db.trips[ask.trip].direction)]
  }

  /** A quota of one, and one ticket for a trip that leaves then. */
  function Spent(departure: Time): Db {
    var trip := Trip(2, 1, 0, Outbound, Student, departure, 2, 1, MarkedOpen);
    Db(EMPTY_LEDGER, map[7 := trip], map[], map[3 := Ticket(7, 1, 0, 0, 0, 0, Confirmed)], map[],
       map[(Student, Outbound) := 1])
  }

  lemma SpentUsage(departure: Time, week: int, now: Time)
    ensures Usage(Spent(departure), 1, Outbound, week, now) == if WeekOf(departure) == week then 1 else 0
  {
    var db := Spent(departure);
    assert CountedHolds(db, 1, Outbound, week, now) == {};
    assert CountedTickets(db, 1, Outbound, week) == if WeekOf(departure) == week then {3} else {};
  }

  lemma SpentRows(departure: Time)
    ensures RowsOk(Spent(departure)) && SeatsOk(Spent(departure))
  {
    assert HoldsOn(Spent(departure), 7) == {} && SoldOn(Spent(departure), 7) == {3};
  }

  /** A full week's quota spent on a trip of another week than the current one. */
  lemma OtherWeekUnchecked(now: Time, departure: Time) returns (db: Db, ask: HoldRequest, ids: seq<HoldId>)
    requires WeekOf(now) != WeekOf(departure)
    ensures AcceptedWithin(db, 1, Student, ask, ids, now, departure)
    ensures Usage(HoldSeats(db, 1, Student, ask, now, ids).value, 1, db.trips[ask.trip].direction, WeekOf(departure),
                  now)
            > db.quotas[(Student, db.trips[ask.trip].direction)]
  {
    db, ask, ids := Spent(departure), HoldRequest(7, 1, 0, 0), [5];
    SpentRows(departure);
    SpentUsage(departure, WeekOf(now), now);
    SpentUsage(departure, WeekOf(departure), now);
    assert CheckHold(db, 1, Student, ask, now) == Ok(());
    OneSeatTaken(db, Hold(7, 1, 0, 0, now + HoldSeconds(Student)), now);
  }

  lemma OneSeatTaken(db: Db, hold: Hold, now: Time)
    requires hold.trip in db.trips && db.trips[hold.trip].available > 0 && 5 !in db.holds
    requires hold.expiresAt > now
    ensures var r := TakeSeats(db, hold, [5]);
            && r.Ok?
            && Usage(r.value, hold.user, db.trips[hold.trip].direction, WeekOf(db.trips[hold.trip].departure), now) ==
               Usage(db, hold.user, db.trips[hold.trip].direction, WeekOf(db.trips[hold.trip].departure), now) + 1
  {
    var trip := db.trips[hold.trip];
    var db1 := db.(trips := db.trips[hold.trip := trip.(available := trip.available - 1)],
                   holds := db.holds[5 := hold]);
    assert [5][1..] == [] && TakeSeats(db, hold, [5]) == TakeSeats(db1, hold, [5][1..]) == Ok(db1);
    TakeSeatsRows(db, hold, [5]);
    TakenUsage(db, db1, hold, [5], now, hold.user, trip.direction, WeekOf(trip.departure));
  }

  /** The usage query looks at the current week only, whatever week the trip is in,
      so the check protects the limit exactly for trips of the current week. */
  lemma QuotaCheckedIffCurrentWeek(now: Time, departure: Time)
    ensures CheckProtects(now, departure) <==> WeekOf(now) == WeekOf(departure)
  {
    if WeekOf(now) == WeekOf(departure) {
      forall db: Db, user: UserId, role: Role, ask: HoldRequest, ids: seq<HoldId>
        | AcceptedWithin(db, user, role, ask, ids, now, departure)
        ensures Usage(HoldSeats(db, user, role, ask, now, ids).value, user, db.trips[ask.trip].direction,
                      WeekOf(departure), now)
                <= db.quotas[(role, db.trips[ask.trip].direction)]
      {
        var hold := Hold(ask.trip, user, ask.pickup, ask.dropoff, now + HoldSeconds(role));
        TakeSeatsRows(db, hold, ids);
        TakenUsage(db, HoldSeats(db, user, role, ask, now, ids).value, hold, ids, now, user,
                   db.trips[ask.trip].direction, WeekOf(departure));
      }
    } else {
      var db, ask, ids := OtherWeekUnchecked(now, departure);
    }
  }
}
