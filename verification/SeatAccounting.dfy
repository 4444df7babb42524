/** Where the seats of a trip are: free, held, or sold.  `Slack` is what the three
    fail to account for; each operation is shown to keep it at zero, or exactly
    when it does. */
module SeatAccounting {
  import opened Ledgers
  import opened Tables
  import opened Bookings

  function HoldsOn(db: Db, trip: TripId): set<HoldId> {
    set h | h in db.holds && db.holds[h].trip == trip
  }

  /** Tickets whose seat has not been given back: an administrator's trip
      cancellation cancels tickets without returning seats. */
  function SoldOn(db: Db, trip: TripId): set<TicketId> {
    set t | t in db.tickets && db.tickets[t].trip == trip && db.tickets[t].status != Cancelled
  }

  function Slack(db: Db, trip: TripId): int
    requires trip in db.trips
  {
    db.trips[trip].capacity - db.trips[trip].available - |HoldsOn(db, trip)| - |SoldOn(db, trip)|
  }

  ghost predicate SeatsOk(db: Db) {
    forall t :: t in db.trips ==> db.trips[t].available >= 0 && Slack(db, t) == 0
  }

  /** Foreign keys and column checks of the schema. */
  ghost predicate RowsOk(db: Db) {
    && (forall h :: h in db.holds ==> db.holds[h].trip in db.trips)
    && (forall t :: t in db.tickets ==> db.tickets[t].trip in db.trips)
    && (forall t :: t in db.trips ==> db.trips[t].price >= 0)
  }

  /** What `SeatsOk` gives every trip, whether or not it was ever cancelled. */
  lemma SeatsNeverExceedCapacity(db: Db, trip: TripId)
    requires SeatsOk(db) && trip in db.trips
    ensures 0 <= db.trips[trip].available <= db.trips[trip].capacity
    ensures db.trips[trip].available + |HoldsOn(db, trip)| + |ConfirmedTickets(db, trip)| <= db.trips[trip].capacity
    ensures (forall t :: t in db.tickets && db.tickets[t].trip == trip ==> db.tickets[t].status != CancelledByAdmin) ==>
              db.trips[trip].available + |HoldsOn(db, trip)| + |ConfirmedTickets(db, trip)| == db.trips[trip].capacity
  {
    assert Slack(db, trip) == 0;
    SubsetSize(ConfirmedTickets(db, trip), SoldOn(db, trip));
    if forall t :: t in db.tickets && db.tickets[t].trip == trip ==> db.tickets[t].status != CancelledByAdmin {
      assert ConfirmedTickets(db, trip) == SoldOn(db, trip);
    }
  }

  lemma SubsetSize<T>(a: set<T>, b: set<T>)
    requires a <= b
    ensures |a| <= |b|
  {
    assert b == a + (b - a);
  }

  // ----- single statements

  lemma AddHold(db: Db, id: HoldId, hold: Hold, trip: TripId)
    requires id !in db.holds
    ensures |HoldsOn(db.(holds := db.holds[id := hold]), trip)| ==
            |HoldsOn(db, trip)| + if hold.trip == trip then 1 else 0
  {
    var db' := db.(holds := db.holds[id := hold]);
    if hold.trip == trip {
      assert HoldsOn(db', trip) == HoldsOn(db, trip) + {id};
    } else {
      assert HoldsOn(db', trip) == HoldsOn(db, trip);
    }
  }

  lemma DropHold(db: Db, id: HoldId, trip: TripId)
    ensures |HoldsOn(DeleteHold(db, id), trip)| ==
            |HoldsOn(db, trip)| - if id in db.holds && db.holds[id].trip == trip then 1 else 0
  {
    assert HoldsOn(DeleteHold(db, id), trip) == HoldsOn(db, trip) - {id};
  }

  lemma AddTicket(db: Db, id: TicketId, ticket: Ticket, trip: TripId)
    requires id !in db.tickets && ticket.status == Confirmed
    ensures |SoldOn(db.(tickets := db.tickets[id := ticket]), trip)| ==
            |SoldOn(db, trip)| + if ticket.trip == trip then 1 else 0
  {
    var db' := db.(tickets := db.tickets[id := ticket]);
    if ticket.trip == trip {
      assert SoldOn(db', trip) == SoldOn(db, trip) + {id};
    } else {
      assert SoldOn(db', trip) == SoldOn(db, trip);
    }
  }

  lemma DropTicket(db: Db, id: TicketId, trip: TripId)
    ensures |SoldOn(SetTicketCancelled(db, id), trip)| ==
            |SoldOn(db, trip)| -
              if id in db.tickets && db.tickets[id].trip == trip && db.tickets[id].status == Confirmed then 1 else 0
  {
    if id in db.tickets && db.tickets[id].status == Confirmed {
      var db' := SetTicketCancelled(db, id);
      assert db'.tickets == db.tickets[id := db.tickets[id].(status := Cancelled)];
      assert SoldOn(db', trip) == SoldOn(db, trip) - {id};
      assert db.tickets[id].trip == trip <==> id in SoldOn(db, trip);
    }
  }

  // ----- operations

  lemma CreateTripKeepsSeats(db: Db, id: TripId, req: TripRequest)
    requires RowsOk(db) && SeatsOk(db) && id !in db.trips && CreateTrip(db, id, req).Ok?
    ensures SeatsOk(CreateTrip(db, id, req).value)
  {
  }

  /** The statement that resizes a trip looks at tickets only, not at holds.  It
      keeps the seats accounted for exactly when no held or sold seat is cut. */
  lemma UpdateTripKeepsSeatsIff(db: Db, id: TripId, req: TripRequest, sold: nat)
    requires SeatsOk(db) && id in db.trips && UpdateTrip(db, id, req, sold).Ok?
    ensures SeatsOk(UpdateTrip(db, id, req, sold).value) <==>
            |HoldsOn(db, id)| + |SoldOn(db, id)| <= req.capacity
  {
    var db' := UpdateTrip(db, id, req, sold).value;
    assert Slack(db, id) == 0;
    forall t | t in db'.trips
      ensures HoldsOn(db', t) == HoldsOn(db, t) && SoldOn(db', t) == SoldOn(db, t)
      ensures t != id ==> db'.trips[t].available >= 0 && Slack(db', t) == 0
    {
      assert HoldsOn(db', t) == HoldsOn(db, t) && SoldOn(db', t) == SoldOn(db, t);
      if t != id {
        assert Slack(db, t) == 0;
      }
    }
    assert SeatsOk(db') ==> Slack(db', id) == 0;
  }

  /** Its own guard, capacity not below the confirmed tickets, is not enough:
      one seat sold, one held, capacity cut to one. */
  lemma UpdateTripCanOversell()
    ensures exists db: Db, id, req: TripRequest ::
              && SeatsOk(db) && RowsOk(db) && id in db.trips
              && UpdateTrip(db, id, req, |ConfirmedTickets(db, id)|).Ok?
              && !SeatsOk(UpdateTrip(db, id, req, |ConfirmedTickets(db, id)|).value)
  {
    var trip := Trip(2, 0, 0, Outbound, Student, 0, 2, 1, Unset);
    var db := Db(EMPTY_LEDGER, map[7 := trip], map[1 := Hold(7, 1, 0, 0, 0)],
                 map[2 := Ticket(7, 1, 0, 0, 0, 0, Confirmed)], map[], map[]);
    var req := TripRequest(1, 0, Outbound, Student, 0, 2, 1);
    assert HoldsOn(db, 7) == {1} && SoldOn(db, 7) == {2} && ConfirmedTickets(db, 7) == {2};
    assert SeatsOk(db);
    assert UpdateTrip(db, 7, req, 1).Ok?;
    UpdateTripKeepsSeatsIff(db, 7, req, 1);
  }

  /** The loop over the seats moves each from free to held. */
  lemma {:induction false} TakeSeatsSlack(db: Db, hold: Hold, ids: seq<HoldId>, trip: TripId)
    requires TakeSeats(db, hold, ids).Ok? && trip in db.trips
    requires forall i :: 0 <= i < |ids| ==> ids[i] !in db.holds
    requires forall i, j :: 0 <= i < j < |ids| ==> ids[i] != ids[j]
    ensures var db' := TakeSeats(db, hold, ids).value;
            && trip in db'.trips && Slack(db', trip) == Slack(db, trip)
            && (db.trips[trip].available >= 0 ==> db'.trips[trip].available >= 0)
    decreases |ids|
  {
    if ids != [] {
      var row := db.trips[hold.trip];
      var db1 := db.(
        trips := db.trips[hold.trip := row.(available := row.available - 1)],
        holds := db.holds[ids[0] := hold]);
      AddHold(db, ids[0], hold, trip);
      assert HoldsOn(db1, trip) == HoldsOn(db.(holds := db.holds[ids[0] := hold]), trip);
      assert SoldOn(db1, trip) == SoldOn(db, trip);
      assert forall i :: 0 <= i < |ids[1..]| ==> ids[1..][i] == ids[i + 1];
      TakeSeatsSlack(db1, hold, ids[1..], trip);
    }
  }

  lemma {:induction false} TakeSeatsKeys(db: Db, hold: Hold, ids: seq<HoldId>)
    requires TakeSeats(db, hold, ids).Ok?
    ensures TakeSeats(db, hold, ids).value.trips.Keys == db.trips.Keys
    decreases |ids|
  {
    if ids != [] {
      var row := db.trips[hold.trip];
      TakeSeatsKeys(db.(trips := db.trips[hold.trip := row.(available := row.available - 1)],
                        holds := db.holds[ids[0] := hold]), hold, ids[1..]);
    }
  }

  lemma TakeSeatsKeepsSeats(db: Db, hold: Hold, ids: seq<HoldId>)
    requires SeatsOk(db) && TakeSeats(db, hold, ids).Ok?
    requires forall i :: 0 <= i < |ids| ==> ids[i] !in db.holds
    requires forall i, j :: 0 <= i < j < |ids| ==> ids[i] != ids[j]
    ensures SeatsOk(TakeSeats(db, hold, ids).value)
  {
    TakeSeatsKeys(db, hold, ids);
    forall t | t in db.trips
      ensures var db' := TakeSeats(db, hold, ids).value;
              t in db'.trips && db'.trips[t].available >= 0 && Slack(db', t) == 0
    {
      assert Slack(db, t) == 0;
      TakeSeatsSlack(db, hold, ids, t);
    }
  }

  /** A ticket takes over the seat of its hold; without the hold it takes one
      that is not there. */
  lemma ConfirmItemSlack(db: Db, user: UserId, student: bool, item: Item, row: Hold, now: Time, trip: TripId)
    requires trip in db.trips && item.ticket !in db.tickets
    requires item.hold in db.holds ==> db.holds[item.hold] == row
    requires ConfirmItem(db, user, student, item, row, now).Ok?
    ensures var db' := ConfirmItem(db, user, student, item, row, now).value;
            && db'.trips == db.trips
            && Slack(db', trip) == Slack(db, trip) - if row.trip == trip && item.hold !in db.holds then 1 else 0
  {
    var db1 := InsertTicket(db, item.ticket, TicketFor(db, user, item, row)).value;
    var db2 := DeleteHold(db1, item.hold);
    var db' := ConfirmItem(db, user, student, item, row, now).value;
    AddTicket(db, item.ticket, TicketFor(db, user, item, row), trip);
    DropHold(db1, item.hold, trip);
    assert HoldsOn(db1, trip) == HoldsOn(db, trip) && SoldOn(db2, trip) == SoldOn(db1, trip);
    assert HoldsOn(db', trip) == HoldsOn(db2, trip) && SoldOn(db', trip) == SoldOn(db2, trip);
  }

  ghost predicate FreshTickets(db: Db, items: seq<Item>) {
    && (forall i :: 0 <= i < |items| ==> items[i].ticket !in db.tickets)
    && (forall i, j :: 0 <= i < j < |items| ==> items[i].ticket != items[j].ticket)
  }

  ghost predicate DistinctHolds(items: seq<Item>) {
    forall i, j :: 0 <= i < j < |items| ==> items[i].hold != items[j].hold
  }

  ghost predicate AllHeld(db: Db, items: seq<Item>) {
    forall i :: 0 <= i < |items| ==> items[i].hold in db.holds
  }

  ghost predicate RowsRead(db: Db, items: seq<Item>, rows: seq<Hold>)
    requires |items| == |rows|
  {
    forall i :: 0 <= i < |items| ==> items[i].hold in db.holds ==> db.holds[items[i].hold] == rows[i]
  }

  /** The turns over one trip that do not find their hold any more. */
  function Unheld(held: set<HoldId>, items: seq<Item>, rows: seq<Hold>, trip: TripId): nat
    requires |items| == |rows|
  {
    if items == [] then 0
    else
      Unheld(held - {items[0].hold}, items[1..], rows[1..], trip) +
      if rows[0].trip == trip && items[0].hold !in held then 1 else 0
  }

  lemma FreshRest(db: Db, db1: Db, items: seq<Item>, rows: seq<Hold>)
    requires |items| == |rows| > 0 && RowsRead(db, items, rows) && FreshTickets(db, items)
    requires db1.holds == db.holds - {items[0].hold} && db1.tickets.Keys == db.tickets.Keys + {items[0].ticket}
    ensures RowsRead(db1, items[1..], rows[1..]) && FreshTickets(db1, items[1..])
  {
    assert forall i :: 0 <= i < |items[1..]| ==> items[1..][i] == items[i + 1] && rows[1..][i] == rows[i + 1];
  }

  /** Over the whole loop a trip loses exactly a seat for each such turn. */
  lemma {:induction false} ConfirmItemsUnheld(db: Db, user: UserId, student: bool, items: seq<Item>, rows: seq<Hold>,
      now: Time, trip: TripId)
    requires |items| == |rows| && RowsRead(db, items, rows) && FreshTickets(db, items) && trip in db.trips
    requires ConfirmItems(db, user, student, items, rows, now).Ok?
    ensures var db' := ConfirmItems(db, user, student, items, rows, now).value;
            && db'.trips == db.trips
            && Slack(db', trip) == Slack(db, trip) - Unheld(db.holds.Keys, items, rows, trip)
    decreases |items|
  {
    if items != [] {
      var db1 := ConfirmItem(db, user, student, items[0], rows[0], now).value;
      ConfirmItemSlack(db, user, student, items[0], rows[0], now, trip);
      assert db1.holds == db.holds - {items[0].hold} && db1.holds.Keys == db.holds.Keys - {items[0].hold};
      FreshRest(db, db1, items, rows);
      ConfirmItemsUnheld(db1, user, student, items[1..], rows[1..], now, trip);
    }
  }

  ghost predicate UnheldNowhere(trips: set<TripId>, held: set<HoldId>, items: seq<Item>, rows: seq<Hold>)
    requires |items| == |rows|
  {
    forall t :: t in trips ==> Unheld(held, items, rows, t) == 0
  }

  lemma {:induction false} UnheldNowhereIff(trips: set<TripId>, held: set<HoldId>, items: seq<Item>, rows: seq<Hold>)
    requires |items| == |rows| && forall i :: 0 <= i < |rows| ==> rows[i].trip in trips
    ensures UnheldNowhere(trips, held, items, rows) <==>
            DistinctHolds(items) && forall i :: 0 <= i < |items| ==> items[i].hold in held
  {
    if items != [] {
      var later := held - {items[0].hold};
      UnheldNowhereIff(trips, later, items[1..], rows[1..]);
      assert UnheldNowhere(trips, held, items, rows) <==>
             items[0].hold in held && UnheldNowhere(trips, later, items[1..], rows[1..]) by {
        UnheldSplit(trips, held, items, rows);
      }
      HeldSplit(held, items);
    }
  }

  lemma UnheldSplit(trips: set<TripId>, held: set<HoldId>, items: seq<Item>, rows: seq<Hold>)
    requires |items| == |rows| > 0 && rows[0].trip in trips
    ensures UnheldNowhere(trips, held, items, rows) <==>
            items[0].hold in held && UnheldNowhere(trips, held - {items[0].hold}, items[1..], rows[1..])
  {
    assert Unheld(held, items, rows, rows[0].trip) == 0 ==> items[0].hold in held;
    assert forall t :: Unheld(held, items, rows, t) >= Unheld(held - {items[0].hold}, items[1..], rows[1..], t);
  }

  lemma HeldSplit(held: set<HoldId>, items: seq<Item>)
    requires items != []
    ensures (DistinctHolds(items) && forall i :: 0 <= i < |items| ==> items[i].hold in held) <==>
            (items[0].hold in held && DistinctHolds(items[1..])
             && forall i :: 0 <= i < |items[1..]| ==> items[1..][i].hold in held - {items[0].hold})
  {
    assert forall i :: 0 <= i < |items[1..]| ==> items[1..][i] == items[i + 1];
    assert forall i :: 0 < i < |items| ==> items[i] == items[1..][i - 1];
  }

  /** So the slack of no trip grows, and none changes exactly when every turn finds its
      hold still there. */
  lemma ConfirmItemsSlack(db: Db, user: UserId, student: bool, items: seq<Item>, rows: seq<Hold>, now: Time)
    requires |items| == |rows| && RowsRead(db, items, rows) && FreshTickets(db, items)
    requires ConfirmItems(db, user, student, items, rows, now).Ok?
    ensures var db' := ConfirmItems(db, user, student, items, rows, now).value;
            && db'.trips == db.trips
            && (forall t :: t in db.trips ==> Slack(db', t) <= Slack(db, t))
            && ((forall t :: t in db.trips ==> Slack(db', t) == Slack(db, t)) <==>
                AllHeld(db, items) && DistinctHolds(items))
  {
    var db' := ConfirmItems(db, user, student, items, rows, now).value;
    ConfirmItemsTrips(db, user, student, items, rows, now);
    forall t | t in db.trips
      ensures Slack(db', t) == Slack(db, t) - Unheld(db.holds.Keys, items, rows, t)
    {
      ConfirmItemsUnheld(db, user, student, items, rows, now, t);
    }
    UnheldNowhereIff(db.trips.Keys, db.holds.Keys, items, rows);
  }

  lemma {:induction false} ConfirmItemsTrips(db: Db, user: UserId, student: bool, items: seq<Item>, rows: seq<Hold>,
      now: Time)
    requires |items| == |rows| && ConfirmItems(db, user, student, items, rows, now).Ok?
    ensures ConfirmItems(db, user, student, items, rows, now).value.trips == db.trips
    ensures forall i :: 0 <= i < |rows| ==> rows[i].trip in db.trips
    decreases |items|
  {
    if items != [] {
      ConfirmItemsTrips(ConfirmItem(db, user, student, items[0], rows[0], now).value, user, student, items[1..],
                        rows[1..], now);
      assert rows == [rows[0]] + rows[1..];
    }
  }

  lemma {:induction false} LockedRows(db: Db, user: UserId, items: seq<Item>)
    requires LockHolds(db, user, items).Ok?
    ensures |LockHolds(db, user, items).value| == |items|
    ensures forall i :: 0 <= i < |items| ==>
              items[i].hold in db.holds && db.holds[items[i].hold] == LockHolds(db, user, items).value[i]
                && db.holds[items[i].hold].user == user
  {
    if items != [] {
      LockedRows(db, user, items[1..]);
      forall i | 0 < i < |items|
        ensures items[i].hold in db.holds && db.holds[items[i].hold] == LockHolds(db, user, items).value[i]
                && db.holds[items[i].hold].user == user
      {
        assert items[i] == items[1..][i - 1];
      }
    }
  }

  lemma {:induction false} SameLocked(db: Db, db0: Db, user: UserId, items: seq<Item>)
    requires db0.holds == db.holds
    ensures LockHolds(db0, user, items) == LockHolds(db, user, items)
  {
    if items != [] {
      SameLocked(db, db0, user, items[1..]);
    }
  }

  /** Nothing stops a request from naming a hold twice.  A batch that goes through
      keeps the seats accounted for exactly when it does not. */
  lemma ConfirmBatchKeepsSeatsIff(db: Db, user: UserId, role: Role, items: seq<Item>, now: Time)
    requires SeatsOk(db) && FreshTickets(db, items) && ConfirmBatch(db, user, role, items, now).Ok?
    ensures SeatsOk(ConfirmBatch(db, user, role, items, now).value) <==> DistinctHolds(items)
  {
    if items == [] {
      return;
    }
    var student := role == Student;
    var db0 := Opened(db, user, role);
    var rows := LockHolds(db0, user, items).value;
    LockedRows(db0, user, items);
    forall t | t in db.trips
      ensures Slack(db0, t) == 0
    {
      assert Slack(db, t) == 0;
      assert HoldsOn(db0, t) == HoldsOn(db, t) && SoldOn(db0, t) == SoldOn(db, t);
    }
    ConfirmItemsSlack(db0, user, student, items, rows, now);
    var db' := ConfirmItems(db0, user, student, items, rows, now).value;
    assert SeatsOk(db') <==> forall t :: t in db0.trips ==> Slack(db', t) == Slack(db0, t);
  }

  // ----- seats given back

  lemma {:induction false} ReturnSeatsClosed(t: Trip, k: nat)
    requires t.available + k <= t.capacity
    ensures ReturnSeats(t, k) == t.(available := t.available + k)
  {
    if k > 0 {
      ReturnSeatsClosed(t, k - 1);
    }
  }

  lemma ReleasedHolds(db: Db, user: UserId, now: Time, trip: TripId)
    ensures var db' := ReleaseAllHolds(db, user, now);
            && |HoldsOn(db', trip)| == |HoldsOn(db, trip)| - |HoldsAmong(db, ActiveHolds(db, user, now), trip)|
            && SoldOn(db', trip) == SoldOn(db, trip)
            && HoldsOn(db, trip) - HoldsOn(db', trip) == HoldsAmong(db, ActiveHolds(db, user, now), trip)
  {
    var gone := ActiveHolds(db, user, now);
    var holds' := db.holds - gone;
    var on, mine := HoldsOn(db, trip), HoldsAmong(db, gone, trip);
    var on' := set h | h in holds' && holds'[h].trip == trip;
    assert on' == on - mine;
    assert on == (on - mine) + mine;
    assert ReleaseAllHolds(db, user, now).holds == holds';
    assert HoldsOn(ReleaseAllHolds(db, user, now), trip) == on';
  }

  /** Every released hold gives back exactly its own seat. */
  lemma ReleaseReturnsEachSeat(db: Db, user: UserId, now: Time, trip: TripId)
    requires SeatsOk(db) && trip in db.trips
    ensures var db' := ReleaseAllHolds(db, user, now);
            var mine := HoldsAmong(db, ActiveHolds(db, user, now), trip);
            db'.trips[trip] == db.trips[trip].(available := db.trips[trip].available + |mine|)
    ensures Slack(ReleaseAllHolds(db, user, now), trip) == 0
  {
    var mine := HoldsAmong(db, ActiveHolds(db, user, now), trip);
    var db' := ReleaseAllHolds(db, user, now);
    assert Slack(db, trip) == 0;
    ReleasedHolds(db, user, now, trip);
    ReturnSeatsClosed(db.trips[trip], |mine|);
  }

  lemma ReleaseKeepsSeats(db: Db, user: UserId, now: Time)
    requires SeatsOk(db)
    ensures SeatsOk(ReleaseAllHolds(db, user, now))
  {
    forall t | t in db.trips
      ensures ReleaseAllHolds(db, user, now).trips[t].available >= 0 && Slack(ReleaseAllHolds(db, user, now), t) == 0
    {
      assert Slack(db, t) == 0;
      ReleaseReturnsEachSeat(db, user, now, t);
    }
  }

  /** A reaped hold gives back one seat when it is still there and none when it
      has already gone, however old the list it was taken from. */
  lemma CleanupReturnsOneSeat(db: Db, hold: HoldId, trip: TripId)
    requires SeatsOk(db) && RowsOk(db) && (hold in db.holds ==> db.holds[hold].trip == trip)
    ensures var r := CleanupSingleHold(db, hold, trip);
            && r.Ok?
            && SeatsOk(r.value)
            && r.value.holds == db.holds - {hold}
            && r.value.trips.Keys == db.trips.Keys
            && (hold !in db.holds ==> r.value == db)
            && (hold in db.holds ==> r.value.trips[trip].available == db.trips[trip].available + 1)
  {
    if hold in db.holds {
      var db1 := IncrementTripSeat(db, trip);
      var db' := DeleteHold(db1, hold);
      forall t | t in db'.trips
        ensures db'.trips[t].available >= 0 && Slack(db', t) == 0
        ensures t == trip ==> db'.trips[t].available == db.trips[t].available + 1
      {
        assert Slack(db, t) == 0;
        DropHold(db1, hold, t);
        assert HoldsOn(db1, t) == HoldsOn(db, t) && SoldOn(db', t) == SoldOn(db, t);
        if t == trip {
          assert hold in HoldsOn(db, t);
        }
      }
    }
  }

  /** What a cancellation does to the seats of each trip. */
  lemma CancelSeats(db: Db, read: TicketRead, role: Role, trip: TripId)
    requires read.id in db.tickets && read.trip == db.tickets[read.id].trip && trip in db.trips
    requires CommitCancel(db, read, role).Ok?
    ensures var db' := CommitCancel(db, read, role).value;
            && trip in db'.trips
            && db'.trips[trip] == (if trip == read.trip then IncrementSeat(db.trips[trip]) else db.trips[trip])
            && HoldsOn(db', trip) == HoldsOn(db, trip)
            && |SoldOn(db', trip)| ==
               |SoldOn(db, trip)| - if trip == read.trip && db.tickets[read.id].status == Confirmed then 1 else 0
  {
    var db0 := db.(ledger := RefundOnCancel(db.ledger, read, role).value);
    var db1, db' := SetTicketCancelled(db0, read.id), CommitCancel(db, read, role).value;
    DropTicket(db0, read.id, trip);
    assert SoldOn(db0, trip) == SoldOn(db, trip) && SoldOn(db', trip) == SoldOn(db1, trip);
    assert HoldsOn(db', trip) == HoldsOn(db, trip);
  }

  /** The cancellation acts on a ticket it read without a lock.  When the ticket has
      left CONFIRMED in between, the seat statement still runs, so the seats stay
      accounted for exactly when the ticket is still confirmed or the trip has no
      seat out. */
  lemma CommitCancelKeepsSeatsIff(db: Db, read: TicketRead, role: Role)
    requires SeatsOk(db) && read.id in db.tickets && read.trip == db.tickets[read.id].trip && read.trip in db.trips
    requires CommitCancel(db, read, role).Ok?
    ensures SeatsOk(CommitCancel(db, read, role).value) <==>
            db.tickets[read.id].status == Confirmed || db.trips[read.trip].available == db.trips[read.trip].capacity
  {
    var db' := CommitCancel(db, read, role).value;
    assert db'.trips.Keys == db.trips.Keys;
    forall t | t in db.trips
      ensures t != read.trip ==> db'.trips[t].available >= 0 && Slack(db', t) == 0
    {
      assert Slack(db, t) == 0;
      CancelSeats(db, read, role, t);
    }
    assert Slack(db, read.trip) == 0;
    CancelSeats(db, read, role, read.trip);
    if db.tickets[read.id].status == Confirmed {
      assert read.id in SoldOn(db, read.trip);
    }
    assert SeatsOk(db') <==> db'.trips[read.trip].available >= 0 && Slack(db', read.trip) == 0;
  }

  lemma TripCancelKeepsSeats(db: Db, trip: TripId, rows: seq<TicketRead>)
    requires SeatsOk(db) && CommitTripCancel(db, trip, rows).Ok?
    ensures SeatsOk(CommitTripCancel(db, trip, rows).value)
  {
    var db' := CommitTripCancel(db, trip, rows).value;
    forall t | t in db'.trips
      ensures db'.trips[t].available >= 0 && Slack(db', t) == 0
    {
      assert Slack(db, t) == 0;
      assert HoldsOn(db', t) == HoldsOn(db, t) && SoldOn(db', t) == SoldOn(db, t);
    }
  }
}
