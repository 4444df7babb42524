/** The transport service (backend/internal/transport/service.go and cleanup.go),
    statement by statement.  Each method is one transaction, or a loop of them, and
    is shown to do to the tables what the functions of `Bookings` say. */
module TransportService {
  import opened Outcomes
  import opened Uuids
  import opened Ledgers
  import opened Tables
  import opened Bookings
  import opened Stores
  import opened WalletService

  class Transport {
    const store: Store
    const wallets: Wallets

    constructor (store: Store, wallets: Wallets)
      requires wallets.store == store
      ensures this.store == store && this.wallets == wallets
    {
      this.store, this.wallets := store, wallets;
    }

    ghost predicate Wired() {
      wallets.store == store
    }

    method HoldSeats(user: UserId, role: Role, ask: HoldRequest, now: Time, ids: seq<HoldId>, commits: bool)
      returns (r: Result<seq<HoldId>>)
      requires |ids| == Max(ask.count, 0)
      modifies store
      ensures var begun := old(store.View());
              var (db', out) := WithTransaction(begun, Bookings.HoldSeats(begun, user, role, ask, now, ids), commits);
              store.View() == db' && r == (match out case Ok(_) => Ok(ids) case Err(e) => Err(e))
    {
      ghost var before := store.View();
      var begun := store.View();
      var checked := CheckHold(begun, user, role, ask, now);
      if checked.Err? {
        return Err(checked.error);
      }
      var hold := Hold(ask.trip, user, ask.pickup, ask.dropoff, now + HoldSeconds(role));
      var taken: seq<HoldId> := [];
      var i := 0;
      while i < ask.count
        invariant 0 <= i <= |ids|
        invariant taken == ids[..i]
        invariant ask.trip in store.trips
        invariant TakeSeats(before, hold, ids) == TakeSeats(store.View(), hold, ids[i..])
      {
        if store.trips[ask.trip].available <= 0 {
          store.Rollback(begun);
          return Err(Database);
        }
        store.trips :=
          store.trips[ask.trip := store.trips[ask.trip].(available := store.trips[ask.trip].available - 1)];
        store.holds := store.holds[ids[i] := hold];
        taken := taken + [ids[i]];
        assert ids[i..][1..] == ids[i + 1..];
        i := i + 1;
      }
      assert ids[..i] == ids;
      var done := store.Commit(begun, commits);
      return match done case Ok(_) => Ok(taken) case Err(e) => Err(e);
    }

    /** The first loop of a confirmation: reads and locks the holds. */
    method LockHoldRows(user: UserId, items: seq<Item>) returns (r: Result<seq<Hold>>, trips: set<TripId>)
      ensures r == LockHolds(store.View(), user, items)
      ensures r.Ok? ==> |r.value| == |items| && trips == set h | h in r.value :: h.trip
    {
      var rows: seq<Hold> := [];
      trips := {};
      var i := 0;
      assert items[0..] == items && forall rest: seq<Hold> :: [] + rest == rest;
      while i < |items|
        invariant 0 <= i <= |items| && |rows| == i
        invariant trips == set h | h in rows :: h.trip
        invariant LockHolds(store.View(), user, items) ==
                  (match LockHolds(store.View(), user, items[i..])
                   case Err(e) => Err(e)
                   case Ok(rest) => Ok(rows + rest))
      {
        assert items[i..][1..] == items[i + 1..];
        if items[i].hold !in store.holds {
          return Err(Database), {};
        }
        var hold := store.holds[items[i].hold];
        if hold.user != user {
          return Err(Unauthorized), {};
        }
        assert forall rest: seq<Hold> :: rows + ([hold] + rest) == rows + [hold] + rest;
        rows := rows + [hold];
        trips := trips + {hold.trip};
        i := i + 1;
      }
      assert rows + [] == rows;
      return Ok(rows), trips;
    }

    /** Locks the trips of a batch in ascending order, whatever order the set hands
        them out in. */
    method LockTripsSorted(trips: set<TripId>) returns (locked: seq<TripId>, missing: bool)
      ensures missing <==> exists t :: t in trips && t !in store.trips
      ensures !missing ==> StrictlyAscending(locked) && (set t | t in locked) == trips
    {
      var list: seq<TripId> := [];
      var todo := trips;
      while todo != {}
        invariant todo <= trips && (forall t :: t in list <==> t in trips && t !in todo)
        invariant forall i, j :: 0 <= i < j < |list| ==> list[i] != list[j]
        decreases |todo|
      {
        var t :| t in todo;
        list := list + [t];
        todo := todo - {t};
      }
      var ids := new TripId[|list|](i requires 0 <= i < |list| => list[i]);
      assert ids[..] == list;
      SortUuids(ids);
      AscendingDistinct(list, ids[..]);
      forall t
        ensures t in ids[..] <==> t in trips
      {
        assert t in multiset(ids[..]) <==> t in multiset(list);
      }
      locked := [];
      missing := false;
      var i := 0;
      while i < ids.Length
        invariant 0 <= i <= ids.Length && locked == ids[..i]
        invariant forall t :: t in locked ==> t in store.trips
      {
        if ids[i] !in store.trips {
          assert ids[i] in ids[..];
          missing := true;
          return;
        }
        locked := locked + [ids[i]];
        i := i + 1;
      }
      assert locked == ids[..];
      forall t | t in trips
        ensures t in store.trips
      {
        assert t in locked;
      }
    }

    /** Draws codes until an insert goes through; a collision fails the database
        transaction, and with it every later draw. */
    method InsertWithRedraws(id: TicketId, ticket: Ticket, draws: seq<nat>) returns (ok: bool)
      requires |draws| == CODE_DRAWS && ticket.code == draws[0]
      modifies store
      ensures match InsertTicket(old(store.View()), id, ticket)
              case Ok(db') => ok && store.View() == db'
              case Err(_) => !ok && store.View() == old(store.View())
    {
      var failed := false;
      var attempt := 0;
      while attempt < CODE_DRAWS
        invariant 0 <= attempt <= CODE_DRAWS
        invariant failed <==> attempt > 0
        invariant failed ==> CodeTaken(store.View(), ticket.trip, draws[0])
        invariant store.View() == old(store.View())
      {
        if failed {
          return false;
        }
        if CodeTaken(store.View(), ticket.trip, draws[attempt]) {
          failed := true;
        } else {
          store.tickets := store.tickets[id := ticket.(code := draws[attempt])];
          return true;
        }
        attempt := attempt + 1;
      }
      return false;
    }

    method ConfirmBatch(user: UserId, role: Role, items: seq<Item>, now: Time, commits: bool)
      returns (r: Result<seq<TicketId>>)
      requires Wired() && forall i :: 0 <= i < |items| ==> |items[i].draws| == CODE_DRAWS
      modifies store
      ensures items == [] ==> r == Ok([]) && store.View() == old(store.View())
      ensures items != [] ==>
                var begun := old(store.View());
                var (db', out) := WithTransaction(begun, Bookings.ConfirmBatch(begun, user, role, items, now), commits);
                && store.View() == db'
                && (out.Err? ==> r == Err(out.error))
                && (out.Ok? ==> r == Ok(seq(|items|, i requires 0 <= i < |items| => items[i].ticket)))
    {
      if items == [] {
        return Ok([]);
      }
      var begun := store.View();
      if role == Student {
        wallets.GetOrCreateWallet(user);
      }
      ghost var db0 := store.View();
      assert db0 == Opened(begun, user, role);
      var locked, trips := LockHoldRows(user, items);
      if locked.Err? {
        store.Rollback(begun);
        return Err(locked.error);
      }
      var rows := locked.value;
      var order, missing := LockTripsSorted(trips);
      if missing {
        store.Rollback(begun);
        return Err(Database);
      }
      var tickets, failure := ConfirmRows(user, role == Student, items, rows, now);
      if failure.Err? {
        store.Rollback(begun);
        return Err(failure.error);
      }
      var done := store.Commit(begun, commits);
      return match done case Ok(_) => Ok(tickets) case Err(e) => Err(e);
    }

    /** The second loop of a confirmation.  Trip rows are read once and kept in
        `tripCache`; the prices are those of the rows all the same. */
    method ConfirmRows(user: UserId, student: bool, items: seq<Item>, rows: seq<Hold>, now: Time)
      returns (tickets: seq<TicketId>, r: Result<()>)
      requires Wired() && |items| == |rows| && (forall i :: 0 <= i < |items| ==> |items[i].draws| == CODE_DRAWS)
      modifies store
      ensures match ConfirmItems(old(store.View()), user, student, items, rows, now)
              case Ok(db') =>
                r.Ok? && store.View() == db' && tickets == seq(|items|, i requires 0 <= i < |items| => items[i].ticket)
              case Err(e) => r == Err(e)
    {
      ghost var db0 := store.View();
      var tripCache: map<TripId, Trip> := map[];
      tickets := [];
      var i := 0;
      while i < |items|
        invariant 0 <= i <= |items|
        invariant ConfirmItems(db0, user, student, items, rows, now) ==
                  ConfirmItems(store.View(), user, student, items[i..], rows[i..], now)
        invariant forall t :: t in tripCache ==> t in store.trips && tripCache[t] == store.trips[t]
        invariant tickets == seq(i, k requires 0 <= k < i => items[k].ticket)
      {
        var item, hold := items[i], rows[i];
        ghost var here := store.View();
        assert items[i..][0] == item && rows[i..][0] == hold && items[i..][1..] == items[i + 1..]
               && rows[i..][1..] == rows[i + 1..];
        if now > hold.expiresAt {
          return [], Err(HoldExpired);
        }
        var trip: Trip;
        if hold.trip in tripCache {
          trip := tripCache[hold.trip];
        } else if hold.trip in store.trips {
          trip := store.trips[hold.trip];
          tripCache := tripCache[hold.trip := trip];
        } else {
          return [], Err(Database);
        }
        var price := trip.price;
        var ticket := Ticket(hold.trip, user, item.draws[0], hold.pickup, hold.dropoff, price, Confirmed);
        assert ticket == TicketFor(here, user, item, hold);
        var inserted := InsertWithRedraws(item.ticket, ticket, item.draws);
        if !inserted {
          return [], Err(Database);
        }
        store.holds := store.holds - {item.hold};
        if student && price > 0 {
          var paid := wallets.ExecuteDoubleEntry(PersonalOf(user), Revenue, price, TransportBooking, item.ticket);
          if paid.Err? {
            return [], Err(paid.error);
          }
        }
        assert ConfirmItem(here, user, student, item, hold, now) == Ok(store.View());
        tickets := tickets + [item.ticket];
        i := i + 1;
      }
      return tickets, Ok(());
    }

    /** Deletes the user's unexpired holds; the database returns them in some order. */
    method ReleaseAllHolds(user: UserId, now: Time, returned: seq<HoldId>, commits: bool) returns (r: Result<()>)
      requires forall h :: h in returned <==> h in ActiveHolds(store.View(), user, now)
      requires forall i, j :: 0 <= i < j < |returned| ==> returned[i] != returned[j]
      modifies store
      ensures (store.View(), r) ==
              WithTransaction(old(store.View()), Ok(Bookings.ReleaseAllHolds(old(store.View()), user, now)), commits)
    {
      var begun := store.View();
      ghost var gone := ActiveHolds(begun, user, now);
      assert forall i :: 0 <= i < |returned| ==> returned[i] in gone;
      var tripIds := TripsOf(begun, returned);
      store.holds := store.holds - ActiveHolds(begun, user, now);
      IncrementEach(tripIds);
      assert Listed(returned) == gone;
      forall t
        ensures Times(tripIds, t) == |HoldsAmong(begun, gone, t)|
      {
        TimesIsHolds(begun, returned, t);
      }
      assert store.trips == Bookings.ReleaseAllHolds(begun, user, now).trips;
      assert store.View() == Bookings.ReleaseAllHolds(begun, user, now);
      r := store.Commit(begun, commits);
    }

    method IncrementEach(tripIds: seq<TripId>)
      modifies store`trips
      ensures store.trips == map t | t in old(store.trips) :: ReturnSeats(old(store.trips)[t], Times(tripIds, t))
    {
      ghost var before := store.trips;
      var i := 0;
      while i < |tripIds|
        invariant 0 <= i <= |tripIds|
        invariant store.trips.Keys == before.Keys
        invariant forall t :: t in before ==> store.trips[t] == ReturnSeats(before[t], Times(tripIds[..i], t))
      {
        assert tripIds[..i + 1][..i] == tripIds[..i];
        if tripIds[i] in store.trips {
          store.trips := store.trips[tripIds[i] := IncrementSeat(store.trips[tripIds[i]])];
        }
        i := i + 1;
      }
      assert tripIds[..i] == tripIds;
    }

    method CleanupSingleHold(hold: HoldId, trip: TripId, commits: bool) returns (r: Result<()>)
      modifies store
      ensures hold !in old(store.holds) ==> r == Ok(()) && store.View() == old(store.View())
      ensures hold in old(store.holds) ==>
                (store.View(), r) ==
                  WithTransaction(old(store.View()), Bookings.CleanupSingleHold(old(store.View()), hold, trip), commits)
    {
      var begun := store.View();
      if hold !in store.holds {
        return Ok(());
      }
      if trip !in store.trips {
        return Err(Database);
      }
      store.trips := store.trips[trip := IncrementSeat(store.trips[trip])];
      store.holds := store.holds - {hold};
      r := store.Commit(begun, commits);
    }

    /** Works through a list that was read before; one failure does not stop the
        rest, and a hold that is already gone counts as a success. */
    method CleanupExpiredHolds(list: seq<(HoldId, TripId)>, commits: seq<bool>) returns (successes: nat)
      requires |commits| == |list|
      modifies store
      ensures (store.View(), successes) == CleanupAll(old(store.View()), list, commits)
    {
      ghost var before := store.View();
      successes := 0;
      var i := 0;
      while i < |list|
        invariant 0 <= i <= |list|
        invariant CleanupAll(before, list, commits) ==
                  (var rest := CleanupAll(store.View(), list[i..], commits[i..]); (rest.0, successes + rest.1))
      {
        assert list[i..][1..] == list[i + 1..] && commits[i..][1..] == commits[i + 1..];
        var r := CleanupSingleHold(list[i].0, list[i].1, commits[i]);
        if r.Ok? {
          successes := successes + 1;
        }
        i := i + 1;
      }
    }

    method CancelTicketWithRole(requester: UserId, ticket: TicketId, role: Role, now: Time, commits: bool)
      returns (r: Result<()>)
      requires Wired()
      modifies store
      ensures (store.View(), r) ==
              WithTransaction(old(store.View()), Bookings.CancelTicket(old(store.View()), requester, ticket, role, now),
                              commits)
    {
      var begun := store.View();
      var read := ReadForCancellation(begun, requester, ticket, now);
      if read.Err? {
        return Err(read.error);
      }
      var row := read.value;
      if role == Student {
        var refundAmount := row.price;
        if refundAmount > 0 {
          var debitExists := Header(TransportBooking, ticket) in store.headers;
          if debitExists {
            wallets.GetOrCreateWallet(row.user);
            var refunded := wallets.ExecuteDoubleEntry(Revenue, PersonalOf(row.user), refundAmount, Refund, ticket);
            if refunded.Err? {
              store.Rollback(begun);
              return Err(RefundFailed);
            }
          }
        }
      }
      if ticket in store.tickets && store.tickets[ticket].status == Confirmed {
        store.tickets := store.tickets[ticket := store.tickets[ticket].(status := Cancelled)];
      }
      if row.trip in store.trips {
        store.trips := store.trips[row.trip := IncrementSeat(store.trips[row.trip])];
      }
      r := store.Commit(begun, commits);
    }

    /** `rows` is the list of confirmed tickets of the trip. */
    method CancelTrip(trip: TripId, rows: seq<TicketRead>, commits: bool) returns (r: Result<()>)
      requires Wired()
      modifies store
      ensures (store.View(), r) ==
              WithTransaction(old(store.View()), CommitTripCancel(old(store.View()), trip, rows), commits)
    {
      var begun := store.View();
      var i := 0;
      while i < |rows|
        invariant 0 <= i <= |rows|
        invariant store.View() == begun.(ledger := store.View().ledger)
        invariant RefundAll(begun.ledger, rows) == RefundAll(store.View().ledger, rows[i..])
      {
        assert rows[i..][0] == rows[i] && rows[i..][1..] == rows[i + 1..];
        if Header(TransportBooking, rows[i].id) in store.headers {
          wallets.GetOrCreateWallet(rows[i].user);
          var refunded := wallets.ExecuteDoubleEntry(Revenue, PersonalOf(rows[i].user), rows[i].price, Refund,
                                                     rows[i].id);
          if refunded.Err? {
            store.Rollback(begun);
            return Err(RefundFailed);
          }
        }
        i := i + 1;
      }
      store.tickets := CancelTicketsOf(store.tickets, trip);
      store.trips := MarkTrip(store.trips, trip, MarkedCancelled);
      r := store.Commit(begun, commits);
    }
  }

  function Listed(hs: seq<HoldId>): set<HoldId> {
    set h | h in hs
  }

  function TripsOf(db: Db, hs: seq<HoldId>): seq<TripId>
    requires forall i :: 0 <= i < |hs| ==> hs[i] in db.holds
  {
    seq(|hs|, i requires 0 <= i < |hs| => db.holds[hs[i]].trip)
  }

  function Times(ts: seq<TripId>, t: TripId): nat {
    if ts == [] then 0
    else Times(ts[..|ts| - 1], t) + if ts[|ts| - 1] == t then 1 else 0
  }

  lemma ListedAmong(db: Db, init: seq<HoldId>, last: HoldId, t: TripId)
    requires last in db.holds && last !in init
    ensures |HoldsAmong(db, Listed(init + [last]), t)| ==
            |HoldsAmong(db, Listed(init), t)| + if db.holds[last].trip == t then 1 else 0
  {
    var a, b := HoldsAmong(db, Listed(init), t), HoldsAmong(db, Listed(init + [last]), t);
    assert b == if db.holds[last].trip == t then a + {last} else a;
  }

  lemma {:induction false} TimesIsHolds(db: Db, hs: seq<HoldId>, t: TripId)
    requires forall i :: 0 <= i < |hs| ==> hs[i] in db.holds
    requires forall i, j :: 0 <= i < j < |hs| ==> hs[i] != hs[j]
    ensures Times(TripsOf(db, hs), t) == |HoldsAmong(db, Listed(hs), t)|
  {
    if hs == [] {
      assert HoldsAmong(db, Listed(hs), t) == {};
    } else {
      var init, last := hs[..|hs| - 1], hs[|hs| - 1];
      TimesIsHolds(db, init, t);
      assert TripsOf(db, hs)[..|hs| - 1] == TripsOf(db, init);
      assert hs == init + [last] && last !in init;
      ListedAmong(db, init, last, t);
    }
  }
}
