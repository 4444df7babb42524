/** When a trip may be booked and what a hold request answers, said of the rows alone
    (backend/internal/transport/service.go, sql/queries.sql). */
module Holding {
  import opened Outcomes
  import opened Ledgers
  import opened Tables
  import opened Bookings

  predicate Administrates(role: Role) {
    role == TransportAdmin || role == SuperAdmin
  }

  /** The trip leaves in the calendar week of `now`. */
  predicate LeavesThisWeek(trip: Trip, dir: Direction, now: Time) {
    trip.direction == dir && trip.departure / 604800 == now / 604800
  }

  /** The user's valid tickets and unexpired holds for trips of this week. */
  function PlacesThisWeek(db: Db, user: UserId, dir: Direction, now: Time): nat {
    var tickets := set t | t in db.tickets && db.tickets[t].user == user && db.tickets[t].status == Confirmed
                           && db.tickets[t].trip in db.trips && LeavesThisWeek(db.trips[db.tickets[t].trip], dir, now);
    var holds := set h | h in db.holds && db.holds[h].user == user && now < db.holds[h].expiresAt
                         && db.holds[h].trip in db.trips && LeavesThisWeek(db.trips[db.holds[h].trip], dir, now);
    |tickets| + |holds|
  }

  /** A student or an employee may book now: somebody has opened the trip by hand, or
      nobody has touched it and the booking window is open. */
  predicate Bookable(trip: Trip, now: Time) {
    && trip.available > 0
    && (trip.manual == MarkedOpen
        || (trip.manual == Unset
            && trip.departure - 60 * trip.openOffset <= now < trip.departure - 60 * trip.closeOffset))
  }

  function LifetimeOf(role: Role): int {
    if role == Student then 180 else 420
  }

  /** One free seat less and one hold more for each identifier. */
  function Moved(db: Db, hold: Hold, ids: seq<HoldId>): Db
    requires hold.trip in db.trips
  {
    var trip := db.trips[hold.trip];
    db.(trips := db.trips[hold.trip := trip.(available := trip.available - |ids|)],
        holds := db.holds + map h | h in ids :: hold)
  }

  /** The rows after a request that went through. */
  function HoldsTaken(db: Db, user: UserId, role: Role, ask: HoldRequest, now: Time, ids: seq<HoldId>): Db
    requires ask.trip in db.trips
  {
    Moved(db, Hold(ask.trip, user, ask.pickup, ask.dropoff, now + LifetimeOf(role)), ids)
  }

  // ----- the loop over the seats

  lemma MovedNothing(db: Db, hold: Hold)
    requires hold.trip in db.trips
    ensures Moved(db, hold, []) == db
  {
    var none: seq<HoldId> := [];
    assert db.trips[hold.trip := db.trips[hold.trip]] == db.trips;
    assert db.holds + (map h | h in none :: hold) == db.holds;
  }

  lemma MovedFirst(db: Db, hold: Hold, ids: seq<HoldId>)
    requires hold.trip in db.trips && ids != []
    ensures Moved(Moved(db, hold, [ids[0]]), hold, ids[1..]) == Moved(db, hold, ids)
  {
    assert ids == [ids[0]] + ids[1..];
    var one := Moved(db, hold, [ids[0]]);
    assert one.holds + (map h | h in ids[1..] :: hold) == db.holds + (map h | h in ids :: hold);
    assert Moved(one, hold, ids[1..]).trips == Moved(db, hold, ids).trips;
  }

  lemma {:induction false} TakeSeatsIs(db: Db, hold: Hold, ids: seq<HoldId>)
    requires hold.trip in db.trips
    ensures TakeSeats(db, hold, ids) ==
            if ids == [] || |ids| <= db.trips[hold.trip].available then Ok(Moved(db, hold, ids)) else Err(Database)
    decreases |ids|
  {
    if ids == [] {
      MovedNothing(db, hold);
    } else if db.trips[hold.trip].available > 0 {
      var db1 := Moved(db, hold, [ids[0]]);
      assert db1.holds == db.holds[ids[0] := hold];
      TakeSeatsIs(db1, hold, ids[1..]);
      MovedFirst(db, hold, ids);
    }
  }

  lemma StatusIsOpenIff(trip: Trip, now: Time)
    ensures ComputedStatus(trip, now) == StatusOpen <==> Bookable(trip, now)
  {
  }

  lemma UsageIsPlaces(db: Db, user: UserId, dir: Direction, now: Time)
    ensures Usage(db, user, dir, WeekOf(now), now) == PlacesThisWeek(db, user, dir, now)
  {
    assert CountedTickets(db, user, dir, WeekOf(now)) ==
           set t | t in db.tickets && db.tickets[t].user == user && db.tickets[t].status == Confirmed
                   && db.tickets[t].trip in db.trips && LeavesThisWeek(db.trips[db.tickets[t].trip], dir, now);
    assert CountedHolds(db, user, dir, WeekOf(now), now) ==
           set h | h in db.holds && db.holds[h].user == user && now < db.holds[h].expiresAt
                   && db.holds[h].trip in db.trips && LeavesThisWeek(db.trips[db.holds[h].trip], dir, now);
  }

  // ----- the answer

  /** The request is for a trip of the user's own kind that can be booked; an
      administrator is asked for neither. */
  predicate MayBook(trip: Trip, role: Role, now: Time) {
    Administrates(role) || (trip.busFor == role && Bookable(trip, now))
  }

  predicate WithinQuota(db: Db, user: UserId, role: Role, dir: Direction, count: int, now: Time) {
    (role, dir) in db.quotas && PlacesThisWeek(db, user, dir, now) + count <= db.quotas[(role, dir)]
  }

  lemma CheckHoldAnswers(db: Db, user: UserId, role: Role, ask: HoldRequest, now: Time)
    requires ask.trip in db.trips
    ensures var trip := db.trips[ask.trip];
            CheckHold(db, user, role, ask, now) ==
            if !Administrates(role) && trip.busFor != role then Err(BusTypeMismatch)
            else if !Administrates(role) && !Bookable(trip, now) then Err(TripNotOpen)
            else if (role, trip.direction) !in db.quotas then Err(NoQuotaPolicy)
            else if !WithinQuota(db, user, role, trip.direction, ask.count, now) then Err(QuotaExceeded)
            else Ok(())
  {
    StatusIsOpenIff(db.trips[ask.trip], now);
    UsageIsPlaces(db, user, db.trips[ask.trip].direction, now);
  }

  /** Which error a request meets first, and what it does when it meets none. */
  lemma HoldSeatsAnswers(db: Db, user: UserId, role: Role, ask: HoldRequest, now: Time, ids: seq<HoldId>)
    ensures HoldSeats(db, user, role, ask, now, ids) ==
            if ask.trip !in db.trips then Err(TripNotFound)
            else
              var trip := db.trips[ask.trip];
              if !Administrates(role) && trip.busFor != role then Err(BusTypeMismatch)
              else if !Administrates(role) && !Bookable(trip, now) then Err(TripNotOpen)
              else if (role, trip.direction) !in db.quotas then Err(NoQuotaPolicy)
              else if !WithinQuota(db, user, role, trip.direction, ask.count, now) then Err(QuotaExceeded)
              else if ids != [] && trip.available < |ids| then Err(Database)
              else Ok(HoldsTaken(db, user, role, ask, now, ids))
  {
    if ask.trip in db.trips {
      CheckHoldAnswers(db, user, role, ask, now);
      TakeSeatsIs(db, Hold(ask.trip, user, ask.pickup, ask.dropoff, now + HoldSeconds(role)), ids);
    }
  }

  /** A request goes through exactly when the trip is there, may be booked by this role
      at this time, the quota of the week has room, and so has the bus. */
  lemma HoldSeatsIff(db: Db, user: UserId, role: Role, ask: HoldRequest, now: Time, ids: seq<HoldId>)
    requires ask.count > 0 && |ids| == ask.count
    ensures HoldSeats(db, user, role, ask, now, ids).Ok? <==>
            && ask.trip in db.trips
            && MayBook(db.trips[ask.trip], role, now)
            && WithinQuota(db, user, role, db.trips[ask.trip].direction, ask.count, now)
            && ask.count <= db.trips[ask.trip].available
  {
    HoldSeatsAnswers(db, user, role, ask, now, ids);
  }

  // ----- a trip from its request to its holds

  /** Only a request with seats, no negative price and an opening before the closing
      makes a trip; then everybody it is for can book it from the one to the other. */
  lemma CreatedTripBookable(db: Db, id: TripId, request: TripRequest, now: Time)
    ensures CreateTrip(db, id, request).Ok? <==>
            request.capacity > 0 && request.price >= 0 && request.closeOffset < request.openOffset
    ensures CreateTrip(db, id, request).Ok? ==>
              var db' := CreateTrip(db, id, request).value;
              && id in db'.trips && db' == db.(trips := db.trips[id := db'.trips[id]])
              && db'.trips[id].busFor == request.busFor && db'.trips[id].direction == request.direction
              && db'.trips[id].price == request.price && db'.trips[id].capacity == request.capacity
              && (Bookable(db'.trips[id], now) <==>
                  request.departure - 60 * request.openOffset <= now < request.departure - 60 * request.closeOffset)
  {
  }

  /** An update moves the window of a trip nobody has marked and leaves a mark alone. */
  lemma UpdatedTripBookable(db: Db, id: TripId, request: TripRequest, sold: nat, now: Time)
    requires id in db.trips
    ensures UpdateTrip(db, id, request, sold).Ok? <==>
            && request.capacity > 0 && request.price >= 0 && request.closeOffset < request.openOffset
            && sold <= request.capacity
    ensures UpdateTrip(db, id, request, sold).Ok? ==>
              var db', trip := UpdateTrip(db, id, request, sold).value, db.trips[id];
              && id in db'.trips && db' == db.(trips := db.trips[id := db'.trips[id]])
              && db'.trips[id].busFor == request.busFor && db'.trips[id].direction == trip.direction
              && db'.trips[id].price == request.price && db'.trips[id].capacity == request.capacity
              && (Bookable(db'.trips[id], now) <==>
                  && request.capacity - trip.capacity + trip.available > 0
                  && (trip.manual == MarkedOpen
                      || (trip.manual == Unset && request.departure - 60 * request.openOffset <= now
                          < request.departure - 60 * request.closeOffset)))
  {
  }

  // ----- seats given back

  /** A trip with `k` seats more, as far as the capacity goes. */
  function Refilled(trip: Trip, k: nat): Trip {
    trip.(available := if trip.available + k <= trip.capacity then trip.available + k
                       else if trip.available < trip.capacity then trip.capacity
                       else trip.available)
  }

  lemma {:induction false} ReturnSeatsRefill(trip: Trip, k: nat)
    ensures ReturnSeats(trip, k) == Refilled(trip, k)
  {
    if k > 0 {
      ReturnSeatsRefill(trip, k - 1);
    }
  }

  /** A release takes all unexpired holds of the user and no other, and each trip gets as
      many seats back as it had holds among them. */
  lemma ReleaseRows(db: Db, user: UserId, now: Time)
    ensures var db' := ReleaseAllHolds(db, user, now);
            && db' == db.(holds := db'.holds, trips := db'.trips) && db'.trips.Keys == db.trips.Keys
            && (forall h :: h in db'.holds <==>
                  h in db.holds && !(db.holds[h].user == user && now < db.holds[h].expiresAt))
            && (forall h :: h in db'.holds ==> db'.holds[h] == db.holds[h])
            && (forall t :: t in db.trips ==>
                  var mine := set h | h in db.holds && db.holds[h].user == user && now < db.holds[h].expiresAt
                                      && db.holds[h].trip == t;
                  db'.trips[t] == Refilled(db.trips[t], |mine|))
  {
    forall t | t in db.trips
      ensures var mine := set h | h in db.holds && db.holds[h].user == user && now < db.holds[h].expiresAt
                                  && db.holds[h].trip == t;
              ReleaseAllHolds(db, user, now).trips[t] == Refilled(db.trips[t], |mine|)
    {
      var mine := set h | h in db.holds && db.holds[h].user == user && now < db.holds[h].expiresAt
                          && db.holds[h].trip == t;
      assert HoldsAmong(db, ActiveHolds(db, user, now), t) == mine;
      ReturnSeatsRefill(db.trips[t], |mine|);
    }
  }

  // ----- the reaper's list

  function Count(bs: seq<bool>): nat {
    if bs == [] then 0 else Count(bs[1..]) + if bs[0] then 1 else 0
  }

  /** Which listed holds are worked through: those gone before, and those whose own
      transaction commits. */
  function Worked(db: Db, list: seq<(HoldId, TripId)>, commits: seq<bool>): (r: seq<bool>)
    requires |commits| == |list|
    ensures |r| == |list| && forall i :: 0 <= i < |r| ==> r[i] == (commits[i] || list[i].0 !in db.holds)
  {
    seq(|list|, i requires 0 <= i < |list| => commits[i] || list[i].0 !in db.holds)
  }

  /** Which of them give a seat back to the trip. */
  function Returned(db: Db, list: seq<(HoldId, TripId)>, commits: seq<bool>, trip: TripId): (r: seq<bool>)
    requires |commits| == |list|
    ensures |r| == |list|
    ensures forall i :: 0 <= i < |r| ==> r[i] == (commits[i] && list[i].0 in db.holds && list[i].1 == trip)
  {
    seq(|list|, i requires 0 <= i < |list| => commits[i] && list[i].0 in db.holds && list[i].1 == trip)
  }

  lemma RefilledTwice(trip: Trip, j: nat, k: nat)
    ensures Refilled(Refilled(trip, j), k) == Refilled(trip, j + k)
  {
  }

  ghost predicate Reapable(db: Db, list: seq<(HoldId, TripId)>) {
    && (forall i :: 0 <= i < |list| ==> list[i].1 in db.trips)
    && (forall i, j :: 0 <= i < j < |list| ==> list[i].0 != list[j].0)
  }

  /** The reaper's turn at the first hold of its list. */
  function AfterFirst(db: Db, list: seq<(HoldId, TripId)>, commits: seq<bool>): Db
    requires |commits| == |list| > 0 && list[0].1 in db.trips
  {
    if list[0].0 in db.holds && commits[0]
    then db.(holds := db.holds - {list[0].0}, trips := db.trips[list[0].1 := Refilled(db.trips[list[0].1], 1)])
    else db
  }

  lemma RestOfList(db: Db, list: seq<(HoldId, TripId)>, commits: seq<bool>, trip: TripId)
    requires |commits| == |list| > 0 && Reapable(db, list)
    ensures Reapable(AfterFirst(db, list, commits), list[1..])
    ensures Worked(AfterFirst(db, list, commits), list[1..], commits[1..]) == Worked(db, list, commits)[1..]
    ensures Returned(AfterFirst(db, list, commits), list[1..], commits[1..], trip) ==
            Returned(db, list, commits, trip)[1..]
  {
    assert forall i :: 0 <= i < |list[1..]| ==> list[1..][i] == list[i + 1] && commits[1..][i] == commits[i + 1];
  }

  lemma CleanupSteps(db: Db, list: seq<(HoldId, TripId)>, commits: seq<bool>)
    requires |commits| == |list| > 0 && Reapable(db, list)
    ensures var (db2, n) := CleanupAll(AfterFirst(db, list, commits), list[1..], commits[1..]);
            CleanupAll(db, list, commits) == (db2, n + if Worked(db, list, commits)[0] then 1 else 0)
  {
  }

  lemma ListedFirst(list: seq<(HoldId, TripId)>, commits: seq<bool>, h: HoldId)
    requires |commits| == |list| > 0
    ensures (exists i :: 0 <= i < |list| && list[i].0 == h && commits[i]) <==>
            (list[0].0 == h && commits[0])
            || exists i :: 0 <= i < |list[1..]| && list[1..][i].0 == h && commits[1..][i]
  {
    assert forall i :: 0 <= i < |list[1..]| ==> list[1..][i] == list[i + 1] && commits[1..][i] == commits[i + 1];
    if i :| 0 <= i < |list| && list[i].0 == h && commits[i] {
      if i > 0 {
        assert list[1..][i - 1].0 == h && commits[1..][i - 1];
      }
    }
  }

  lemma {:induction false} CleanupAllHolds(db: Db, list: seq<(HoldId, TripId)>, commits: seq<bool>)
    requires |commits| == |list| && Reapable(db, list)
    ensures var db' := CleanupAll(db, list, commits).0;
            && db' == db.(holds := db'.holds, trips := db'.trips)
            && (forall h :: h in db'.holds <==>
                  h in db.holds && !(exists i :: 0 <= i < |list| && list[i].0 == h && commits[i]))
            && (forall h :: h in db'.holds ==> db'.holds[h] == db.holds[h])
    decreases |list|
  {
    if list != [] {
      RestOfList(db, list, commits, list[0].1);
      CleanupSteps(db, list, commits);
      CleanupAllHolds(AfterFirst(db, list, commits), list[1..], commits[1..]);
      var db' := CleanupAll(db, list, commits).0;
      forall h
        ensures h in db'.holds <==> h in db.holds && !(exists i :: 0 <= i < |list| && list[i].0 == h && commits[i])
      {
        ListedFirst(list, commits, h);
      }
    }
  }

  lemma {:induction false} CleanupAllCount(db: Db, list: seq<(HoldId, TripId)>, commits: seq<bool>)
    requires |commits| == |list| && Reapable(db, list)
    ensures CleanupAll(db, list, commits).1 == Count(Worked(db, list, commits))
    decreases |list|
  {
    if list != [] {
      RestOfList(db, list, commits, list[0].1);
      CleanupSteps(db, list, commits);
      CleanupAllCount(AfterFirst(db, list, commits), list[1..], commits[1..]);
    }
  }

  lemma {:induction false} CleanupAllTrip(db: Db, list: seq<(HoldId, TripId)>, commits: seq<bool>, trip: TripId)
    requires |commits| == |list| && Reapable(db, list)
    ensures var db' := CleanupAll(db, list, commits).0;
            && (trip in db'.trips <==> trip in db.trips)
            && (trip in db.trips ==>
                  db'.trips[trip] == Refilled(db.trips[trip], Count(Returned(db, list, commits, trip))))
    decreases |list|
  {
    if list != [] {
      var db1 := AfterFirst(db, list, commits);
      RestOfList(db, list, commits, trip);
      CleanupSteps(db, list, commits);
      CleanupAllTrip(db1, list[1..], commits[1..], trip);
      if trip in db.trips {
        RefilledTwice(db.trips[trip], 1, Count(Returned(db1, list[1..], commits[1..], trip)));
      }
    }
  }

  /** One failure does not stop the rest: whatever the fate of its neighbours, each
      listed hold is reaped exactly if it is there and its own transaction commits.  No
      other hold goes, each trip gets its seats back, and the count is of the turns that
      met no error. */
  lemma CleanupAllRows(db: Db, list: seq<(HoldId, TripId)>, commits: seq<bool>)
    requires |commits| == |list| && Reapable(db, list)
    ensures var (db', n) := CleanupAll(db, list, commits);
            && db' == db.(holds := db'.holds, trips := db'.trips) && db'.trips.Keys == db.trips.Keys
            && n == Count(Worked(db, list, commits))
            && (forall h :: h in db'.holds <==>
                  h in db.holds && !(exists i :: 0 <= i < |list| && list[i].0 == h && commits[i]))
            && (forall h :: h in db'.holds ==> db'.holds[h] == db.holds[h])
            && (forall t :: t in db.trips ==>
                  db'.trips[t] == Refilled(db.trips[t], Count(Returned(db, list, commits, t))))
  {
    CleanupAllHolds(db, list, commits);
    CleanupAllCount(db, list, commits);
    forall t: TripId
      ensures var db' := CleanupAll(db, list, commits).0;
              && (t in db'.trips <==> t in db.trips)
              && (t in db.trips ==> db'.trips[t] == Refilled(db.trips[t], Count(Returned(db, list, commits, t))))
    {
      CleanupAllTrip(db, list, commits, t);
    }
  }
}
