/** What becomes of a hold. */
module HoldFates {
  import opened Ledgers
  import opened Tables
  import opened Bookings
  import opened SeatAccounting
  import opened Confirmation
  import opened System
  import opened Invariants
  import opened Reachable
  import opened SeatRuns

  /** Step i takes the hold away. */
  ghost predicate LeavesAt(ws: seq<World>, i: nat, h: HoldId)
    requires i + 1 < |ws|
  {
    h in ws[i].db.holds && h !in ws[i + 1].db.holds
  }

  /** Trips, payments and reads leave the holds alone. */
  lemma UnrelatedSteps(w: World, s: Step)
    requires Enabled(w, s) && !s.TakeHolds? && !s.Confirm? && !s.Release? && !s.Reap?
    ensures Next(w, s).db.holds == w.db.holds && Next(w, s).born == w.born
  {
    if s.NewPayment? || s.Record? || s.CreditUser? || s.CardResult? || s.PollTimeout? {
      PaymentBookings(w, s);
    } else if s.Cancel? || s.CancelTrip? {
      CancellingKeepsHolds(w, s);
    } else {
      RowStepsKeepHolds(w, s);
    }
  }

  lemma CancellingKeepsHolds(w: World, s: Step)
    requires s.Cancel? || s.CancelTrip?
    ensures Next(w, s).db.holds == w.db.holds && Next(w, s).born == w.born
  {
  }

  lemma RowStepsKeepHolds(w: World, s: Step)
    requires s.Tick? || s.AddTrip? || s.ChangeTrip? || s.MarkManual? || s.ListExpired? || s.ReadTicket? || s.ReadTrip?
    ensures Next(w, s).db.holds == w.db.holds && Next(w, s).born == w.born
  {
  }

  lemma TakingAddsNew(w: World, user: UserId, role: Role, ask: HoldRequest, ids: seq<HoldId>)
    requires Inv(w) && Enabled(w, TakeHolds(user, role, ask, ids))
    ensures var w' := Next(w, TakeHolds(user, role, ask, ids));
            && (forall h :: h in w.db.holds ==> h in w'.db.holds)
            && (forall h :: h in w'.db.holds ==> h in w.db.holds || h !in w.born)
            && (forall h :: h in w.born ==> h in w'.born)
  {
    if HoldSeats(w.db, user, role, ask, w.now, ids).Ok? {
      TakeSeatsRows(w.db, Hold(ask.trip, user, ask.pickup, ask.dropoff, w.now + HoldSeconds(role)), ids);
    }
  }

  lemma ConfirmOnlyTakesAway(w: World, user: UserId, role: Role, items: seq<Item>)
    requires Inv(w) && Enabled(w, Confirm(user, role, items))
    ensures Next(w, Confirm(user, role, items)).db.holds.Keys <= w.db.holds.Keys
    ensures Next(w, Confirm(user, role, items)).born == w.born
  {
    if ConfirmBatch(w.db, user, role, items, w.now).Ok? {
      ConfirmBatchKeepsOk(w.db, w.reported, user, role, items, w.now);
    }
  }

  lemma TakenHoldsAreNew(w: World, s: Step)
    requires Inv(w) && Enabled(w, s)
    ensures forall h :: h in Next(w, s).db.holds ==> h in w.db.holds || h !in w.born
    ensures forall h :: h in w.born ==> h in Next(w, s).born
  {
    match s
    case TakeHolds(user, role, ask, ids) => TakingAddsNew(w, user, role, ask, ids);
    case Confirm(user, role, items) => ConfirmOnlyTakesAway(w, user, role, items);
    case Release(_) =>
    case Reap(_, _) =>
    case _ => UnrelatedSteps(w, s);
  }

  lemma {:induction false} GoneForGood(ws: seq<World>, steps: seq<Step>, i: nat, j: nat, h: HoldId)
    requires Run(ws, steps) && i <= j <= |steps|
    requires h in ws[i].born && h !in ws[i].db.holds
    ensures h in ws[j].born && h !in ws[j].db.holds
  {
    if i < j {
      GoneForGood(ws, steps, i, j - 1, h);
      RunKeepsInv(ws, steps, j - 1);
      TakenHoldsAreNew(ws[j - 1], steps[j - 1]);
    }
  }

  /** A hold goes at most once in a whole run. */
  lemma OneFate(ws: seq<World>, steps: seq<Step>, h: HoldId, i: nat, j: nat)
    requires Run(ws, steps) && i < |steps| && j < |steps|
    requires LeavesAt(ws, i, h) && LeavesAt(ws, j, h)
    ensures i == j
  {
    if i < j {
      LeftEarlier(ws, steps, h, i, j);
    } else if j < i {
      LeftEarlier(ws, steps, h, j, i);
    }
  }

  lemma LeftEarlier(ws: seq<World>, steps: seq<Step>, h: HoldId, i: nat, j: nat)
    requires Run(ws, steps) && i < j < |steps| && LeavesAt(ws, i, h)
    ensures h !in ws[j].db.holds
  {
    RunKeepsInv(ws, steps, i);
    TakenHoldsAreNew(ws[i], steps[i]);
    GoneForGood(ws, steps, i + 1, j, h);
  }

  /** The ticket a confirmation makes of a hold. */
  ghost predicate TicketedBy(w: World, w': World, h: HoldId, items: seq<Item>)
    requires h in w.db.holds
  {
    exists k :: 0 <= k < |items| && items[k].hold == h
                && items[k].ticket !in w.db.tickets && items[k].ticket in w'.db.tickets
                && (var t := w'.db.tickets[items[k].ticket];
                    t.trip == w.db.holds[h].trip && t.user == w.db.holds[h].user && t.status == Confirmed
                    && t.pickup == w.db.holds[h].pickup && t.dropoff == w.db.holds[h].dropoff)
  }

  lemma FreshTicketsAreUnbilled(w: World, items: seq<Item>)
    requires Inv(w) && FreshTickets(w.db, items)
    ensures UnbilledTickets(w.db.ledger, items)
  {
    forall i | 0 <= i < |items|
      ensures Header(TransportBooking, items[i].ticket) !in w.db.ledger.headers
    {
      if Header(TransportBooking, items[i].ticket) in w.db.ledger.headers {
        BilledTicketExists(w.db, w.reported, TransportBooking, items[i].ticket);
      }
    }
  }

  lemma ConfirmFate(w: World, user: UserId, role: Role, items: seq<Item>, h: HoldId)
    requires Inv(w) && Enabled(w, Confirm(user, role, items))
    requires h in w.db.holds && h !in Next(w, Confirm(user, role, items)).db.holds
    ensures TicketedBy(w, Next(w, Confirm(user, role, items)), h, items)
    ensures Next(w, Confirm(user, role, items)).db.trips == w.db.trips
  {
    var w' := Next(w, Confirm(user, role, items));
    FreshTicketsAreUnbilled(w, items);
    ConfirmBatchOutcome(w.db, user, role, items, w.now);
    assert h in HoldIds(items);
    var k :| 0 <= k < |items| && items[k].hold == h;
    assert w'.db.tickets[items[k].ticket] == TicketFor(w.db, user, items[k], RowsOf(w.db, items)[k]);
  }

  /** Statements that stop at the capacity return all of `k` seats exactly when there
      is room for all of them. */
  lemma {:induction false} SeatsReturnedIff(t: Trip, k: nat)
    ensures ReturnSeats(t, k) == t.(available := ReturnSeats(t, k).available)
    ensures ReturnSeats(t, k).available ==
            if t.available + k <= t.capacity then t.available + k else Max(t.available, t.capacity)
  {
    if k > 0 {
      SeatsReturnedIff(t, k - 1);
    }
  }

  lemma ReleaseFate(w: World, user: UserId, h: HoldId)
    requires Inv(w) && h in w.db.holds && h !in Next(w, Release(user)).db.holds
    ensures var w', trip := Next(w, Release(user)), w.db.holds[h].trip;
            var returned := |HoldsOn(w.db, trip) - HoldsOn(w'.db, trip)|;
            && w.db.holds[h].user == user && w.now < w.db.holds[h].expiresAt
            && trip in w.db.trips && trip in w'.db.trips && returned > 0
            && w'.db.trips[trip] == ReturnSeats(w.db.trips[trip], returned)
            && (w'.db.trips[trip].available == w.db.trips[trip].available + returned <==>
                w.db.trips[trip].available + returned <= w.db.trips[trip].capacity)
  {
    var trip := w.db.holds[h].trip;
    var gone := HoldsAmong(w.db, ActiveHolds(w.db, user, w.now), trip);
    HeldByUser(w.db, user, w.now, h);
    ReleasedHolds(w.db, user, w.now, trip);
    assert h in gone;
    SeatsReturnedIff(w.db.trips[trip], |gone|);
  }

  lemma HeldByUser(db: Db, user: UserId, now: Time, h: HoldId)
    requires h in db.holds && h !in ReleaseAllHolds(db, user, now).holds
    ensures db.holds[h].user == user && now < db.holds[h].expiresAt
  {
  }

  lemma ReapFate(w: World, hold: HoldId, t: TripId, h: HoldId)
    requires Inv(w) && Enabled(w, Reap(hold, t))
    requires h in w.db.holds && h !in Next(w, Reap(hold, t)).db.holds
    ensures var w' := Next(w, Reap(hold, t));
            && hold == h && t == w.db.holds[h].trip && t in w.db.trips && t in w'.db.trips
            && w'.db.trips[t] == IncrementSeat(w.db.trips[t])
            && (w'.db.trips[t].available == w.db.trips[t].available + 1 <==>
                w.db.trips[t].available < w.db.trips[t].capacity)
            && HoldsOn(w.db, t) - HoldsOn(w'.db, t) == {h}
  {
    assert Next(w, Reap(hold, t)).db.holds == w.db.holds - {h};
  }

  lemma OtherStepsKeepHolds(w: World, s: Step)
    requires Inv(w) && Enabled(w, s) && !s.Confirm? && !s.Release? && !s.Reap?
    ensures forall h :: h in w.db.holds ==> h in Next(w, s).db.holds
  {
    match s
    case TakeHolds(user, role, ask, ids) => TakingAddsNew(w, user, role, ask, ids);
    case _ => UnrelatedSteps(w, s);
  }

  /** There are three ways for a hold to go, in every reachable world.  A confirmation
      makes it a ticket of the same user for the same trip and stops and touches no
      seat.  A release by its user, while it is live, returns a seat for each hold of
      the trip it takes; the reaper returns one.  The seats do come back exactly when
      the trip has room for them below its capacity. */
  lemma FateOfHold(ws: seq<World>, steps: seq<Step>, h: HoldId, i: nat)
    requires Run(ws, steps) && i < |steps| && LeavesAt(ws, i, h)
    ensures ws[i].db.holds[h].trip in ws[i].db.trips && ws[i].db.holds[h].trip in ws[i + 1].db.trips
    ensures var w, w' := ws[i], ws[i + 1];
            var trip := w.db.holds[h].trip;
            var before, after := w.db.trips[trip], w'.db.trips[trip];
            var returned := |HoldsOn(w.db, trip) - HoldsOn(w'.db, trip)|;
            match steps[i]
            case Confirm(user, role, items) => TicketedBy(w, w', h, items) && w'.db.trips == w.db.trips
            case Release(user) =>
              && w.db.holds[h].user == user && w.now < w.db.holds[h].expiresAt
              && after == ReturnSeats(before, returned)
              && (after.available == before.available + returned <==> before.available + returned <= before.capacity)
            case Reap(hold, t) =>
              && hold == h && t == trip && HoldsOn(w.db, trip) - HoldsOn(w'.db, trip) == {h}
              && after == IncrementSeat(before)
              && (after.available == before.available + 1 <==> before.available < before.capacity)
            case _ => false
  {
    var w, s := ws[i], steps[i];
    RunKeepsInv(ws, steps, i);
    match s
    case Confirm(user, role, items) => ConfirmFate(w, user, role, items, h);
    case Release(user) => ReleaseFate(w, user, h);
    case Reap(hold, t) => ReapFate(w, hold, t, h);
    case _ => OtherStepsKeepHolds(w, s);
  }

  /** While all seats are accounted for, there is always room: each hold that does not
      become a ticket gives its seat back. */
  lemma SeatOfHoldComesBack(ws: seq<World>, steps: seq<Step>, h: HoldId, i: nat)
    requires Run(ws, steps) && i < |steps| && LeavesAt(ws, i, h) && SeatsOk(ws[i].db)
    ensures ws[i].db.holds[h].trip in ws[i].db.trips && ws[i].db.holds[h].trip in ws[i + 1].db.trips
    ensures var trip := ws[i].db.holds[h].trip;
            ws[i + 1].db.trips[trip].available == ws[i].db.trips[trip].available +
              if steps[i].Confirm? then 0 else |HoldsOn(ws[i].db, trip) - HoldsOn(ws[i + 1].db, trip)|
  {
    var trip := ws[i].db.holds[h].trip;
    var on, on' := HoldsOn(ws[i].db, trip), HoldsOn(ws[i + 1].db, trip);
    FateOfHold(ws, steps, h, i);
    assert Slack(ws[i].db, trip) == 0;
    SubsetSize(on - on', on);
  }
}
