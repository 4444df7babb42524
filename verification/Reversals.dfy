/** A batch that is confirmed and then cancelled, ticket by ticket, against the reaper
    going over its holds. */
module Reversals {
  import opened Outcomes
  import opened Ledgers
  import opened Tables
  import opened Bookings
  import opened SeatAccounting
  import opened Confirmation

  /** Cancellations one after the other, each from what it read. */
  function CancelAll(db: Db, seen: seq<TicketRead>, role: Role): Result<Db>
    decreases |seen|
  {
    if seen == [] then Ok(db)
    else
      match CommitCancel(db, seen[0], role)
      case Err(e) => Err(e)
      case Ok(db1) => CancelAll(db1, seen[1..], role)
  }

  /** The reaper's turns over a list of holds and their trips. */
  function ReapAll(db: Db, list: seq<(HoldId, TripId)>): Result<Db>
    decreases |list|
  {
    if list == [] then Ok(db)
    else
      match CleanupSingleHold(db, list[0].0, list[0].1)
      case Err(e) => Err(e)
      case Ok(db1) => ReapAll(db1, list[1..])
  }

  /** What the cancellations of the batch's tickets read. */
  function ReadsOf(db: Db, items: seq<Item>): (r: seq<TicketRead>)
    requires forall i :: 0 <= i < |items| ==> items[i].ticket in db.tickets
    ensures |r| == |items| && forall i :: 0 <= i < |r| ==> r[i] == ReadOf(db, items[i].ticket)
  {
    seq(|items|, i requires 0 <= i < |items| => ReadOf(db, items[i].ticket))
  }

  /** What a reaper lists for the batch's holds. */
  function Listed(db: Db, items: seq<Item>): (r: seq<(HoldId, TripId)>)
    requires forall i :: 0 <= i < |items| ==> items[i].hold in db.holds
    ensures |r| == |items|
    ensures forall i :: 0 <= i < |r| ==> r[i] == (items[i].hold, db.holds[items[i].hold].trip)
  {
    seq(|items|, i requires 0 <= i < |items| => (items[i].hold, db.holds[items[i].hold].trip))
  }

  function WithPrices(trips: map<TripId, Trip>, prices: map<TripId, int>): map<TripId, Trip> {
    map t | t in trips :: if t in prices then trips[t].(price := prices[t]) else trips[t]
  }

  // ----- seats

  function SeatBack(trips: map<TripId, Trip>, t: TripId): map<TripId, Trip> {
    if t in trips then trips[t := IncrementSeat(trips[t])] else trips
  }

  function SeatsBack(trips: map<TripId, Trip>, ts: seq<TripId>): map<TripId, Trip>
    decreases |ts|
  {
    if ts == [] then trips else SeatsBack(SeatBack(trips, ts[0]), ts[1..])
  }

  /** Returning seats does not look at prices. */
  lemma {:induction false} SeatsBackPriced(trips: map<TripId, Trip>, prices: map<TripId, int>, ts: seq<TripId>)
    ensures SeatsBack(WithPrices(trips, prices), ts) == WithPrices(SeatsBack(trips, ts), prices)
    decreases |ts|
  {
    if ts != [] {
      assert SeatBack(WithPrices(trips, prices), ts[0]) == WithPrices(SeatBack(trips, ts[0]), prices);
      SeatsBackPriced(SeatBack(trips, ts[0]), prices, ts[1..]);
    }
  }

  function TripsRead(seen: seq<TicketRead>): (r: seq<TripId>)
    ensures |r| == |seen| && forall i :: 0 <= i < |r| ==> r[i] == seen[i].trip
  {
    seq(|seen|, i requires 0 <= i < |seen| => seen[i].trip)
  }

  function TripsListed(list: seq<(HoldId, TripId)>): (r: seq<TripId>)
    ensures |r| == |list| && forall i :: 0 <= i < |r| ==> r[i] == list[i].1
  {
    seq(|list|, i requires 0 <= i < |list| => list[i].1)
  }

  function HoldsListed(list: seq<(HoldId, TripId)>): set<HoldId> {
    set i | 0 <= i < |list| :: list[i].0
  }

  lemma {:induction false} ReapAllEffect(db: Db, list: seq<(HoldId, TripId)>)
    requires forall i :: 0 <= i < |list| ==> list[i].0 in db.holds && list[i].1 in db.trips
    requires forall i, j :: 0 <= i < j < |list| ==> list[i].0 != list[j].0
    ensures ReapAll(db, list) ==
            Ok(db.(holds := db.holds - HoldsListed(list), trips := SeatsBack(db.trips, TripsListed(list))))
    decreases |list|
  {
    if list == [] {
      assert db.holds - HoldsListed(list) == db.holds;
    } else {
      var db1, rest := CleanupSingleHold(db, list[0].0, list[0].1).value, list[1..];
      assert forall i :: 0 <= i < |rest| ==> rest[i] == list[i + 1];
      ReapAllEffect(db1, rest);
      assert HoldsListed(list) == {list[0].0} + HoldsListed(rest);
      assert db1.holds - HoldsListed(rest) == db.holds - HoldsListed(list);
      assert TripsListed(list)[1..] == TripsListed(rest);
    }
  }

  // ----- money

  function Fare(seen: seq<TicketRead>): int {
    if seen == [] then 0 else seen[0].price + Fare(seen[1..])
  }

  /** All tickets are the user's, and what was paid for one has not been paid back. */
  ghost predicate Refundable(l: Ledger, seen: seq<TicketRead>, user: UserId, role: Role) {
    && LedgerOk(l)
    && (role == Student ==> PersonalOf(user) in l.wallets)
    && (forall i :: 0 <= i < |seen| ==>
          && seen[i].user == user && seen[i].price >= 0
          && (role == Student && seen[i].price > 0 ==> BookingDebitExists(l, seen[i].id))
          && Header(Refund, seen[i].id) !in l.headers)
    && (forall i, j :: 0 <= i < j < |seen| ==> seen[i].id != seen[j].id)
  }

  lemma RefundsOne(l: Ledger, read: TicketRead, user: UserId, role: Role)
    requires Refundable(l, [read], user, role)
    ensures var r := RefundOnCancel(l, read, role);
            && r.Ok? && LedgerOk(r.value) && r.value.wallets == l.wallets
            && (forall h :: h in l.headers ==> h in r.value.headers)
            && (forall h :: h in r.value.headers ==> h in l.headers || h == Header(Refund, read.id))
            && Paid(l, r.value, user, role == Student, -read.price)
  {
    assert [read][0] == read;
    if role == Student && read.price > 0 {
      assert OpenWallet(l, user) == l;
      TransferKeepsOk(l, Revenue, PersonalOf(user), read.price, Refund, read.id);
      forall w
        ensures Balance(Post(l, Revenue, PersonalOf(user), read.price, Refund, read.id), w) ==
                Balance(l, w) - (if w == Revenue then read.price else if w == PersonalOf(user) then -read.price else 0)
      {
        PostBalances(l, Revenue, PersonalOf(user), read.price, Refund, read.id, w);
      }
    }
  }

  lemma RefundableRest(l: Ledger, l1: Ledger, seen: seq<TicketRead>, user: UserId, role: Role)
    requires seen != [] && Refundable(l, seen, user, role) && LedgerOk(l1) && l1.wallets == l.wallets
    requires forall h :: h in l.headers ==> h in l1.headers
    requires forall h :: h in l1.headers ==> h in l.headers || h == Header(Refund, seen[0].id)
    ensures Refundable(l, [seen[0]], user, role) && Refundable(l1, seen[1..], user, role)
  {
    var rest := seen[1..];
    assert forall i :: 0 <= i < |rest| ==> rest[i] == seen[i + 1] && rest[i].id != seen[0].id;
  }

  lemma CancelParts(db: Db, read: TicketRead, role: Role)
    requires RefundOnCancel(db.ledger, read, role).Ok?
    ensures var r := CommitCancel(db, read, role);
            && r.Ok? && r.value.ledger == RefundOnCancel(db.ledger, read, role).value
            && r.value.holds == db.holds && r.value.trips == SeatBack(db.trips, read.trip)
  {
  }

  lemma {:induction false} CancelAllEffect(db: Db, seen: seq<TicketRead>, user: UserId, role: Role)
    requires Refundable(db.ledger, seen, user, role)
    ensures var r := CancelAll(db, seen, role);
            && r.Ok? && LedgerOk(r.value.ledger)
            && r.value.holds == db.holds && r.value.trips == SeatsBack(db.trips, TripsRead(seen))
            && Paid(db.ledger, r.value.ledger, user, role == Student, -Fare(seen))
    decreases |seen|
  {
    if seen != [] {
      RefundableRest(db.ledger, db.ledger, seen, user, role);
      RefundsOne(db.ledger, seen[0], user, role);
      CancelParts(db, seen[0], role);
      var db1 := CommitCancel(db, seen[0], role).value;
      RefundableRest(db.ledger, db1.ledger, seen, user, role);
      CancelAllEffect(db1, seen[1..], user, role);
      assert TripsRead(seen)[1..] == TripsRead(seen[1..]);
    }
  }

  // ----- what a batch leaves to be refunded

  lemma {:induction false} ConfirmItemsBill(db: Db, user: UserId, student: bool, items: seq<Item>, rows: seq<Hold>,
      now: Time)
    requires |items| == |rows| && ConfirmItems(db, user, student, items, rows, now).Ok?
    requires forall i :: 0 <= i < |rows| ==> rows[i].trip in db.trips
    ensures var l := ConfirmItems(db, user, student, items, rows, now).value.ledger;
            && l.wallets == db.ledger.wallets
            && (forall h :: h in db.ledger.headers ==> h in l.headers)
            && (forall h :: h in l.headers ==> h in db.ledger.headers || h.kind == TransportBooking)
            && (forall i :: 0 <= i < |items| && student && db.trips[rows[i].trip].price > 0 ==>
                  Header(TransportBooking, items[i].ticket) in l.headers)
    decreases |items|
  {
    if items != [] {
      var db1 := ConfirmItem(db, user, student, items[0], rows[0], now).value;
      var l := ConfirmItems(db, user, student, items, rows, now).value.ledger;
      ItemBill(db, user, student, items[0], rows[0], now);
      assert forall i :: 0 <= i < |rows[1..]| ==> rows[1..][i] == rows[i + 1];
      ConfirmItemsBill(db1, user, student, items[1..], rows[1..], now);
      forall i | 0 <= i < |items| && student && db.trips[rows[i].trip].price > 0
        ensures Header(TransportBooking, items[i].ticket) in l.headers
      {
        if i > 0 {
          assert items[1..][i - 1] == items[i] && rows[1..][i - 1] == rows[i];
        }
      }
    }
  }

  lemma ItemBill(db: Db, user: UserId, student: bool, item: Item, row: Hold, now: Time)
    requires ConfirmItem(db, user, student, item, row, now).Ok? && row.trip in db.trips
    ensures var db' := ConfirmItem(db, user, student, item, row, now).value;
            var l, l' := db.ledger, db'.ledger;
            && db'.trips == db.trips && l'.wallets == l.wallets
            && l'.headers == l.headers +
               if student && db.trips[row.trip].price > 0 then [Header(TransportBooking, item.ticket)] else []
  {
  }

  ghost predicate Unrefunded(l: Ledger, items: seq<Item>) {
    forall i :: 0 <= i < |items| ==> Header(Refund, items[i].ticket) !in l.headers
  }

  lemma {:induction false} FareIsDue(db: Db, rows: seq<Hold>, seen: seq<TicketRead>)
    requires |seen| == |rows| && forall i :: 0 <= i < |rows| ==> rows[i].trip in db.trips
    requires forall i :: 0 <= i < |rows| ==> seen[i].price == db.trips[rows[i].trip].price
    ensures Fare(seen) == Due(db, rows)
  {
    if rows != [] {
      FareIsDue(db, rows[1..], seen[1..]);
    }
  }

  lemma BatchBill(db: Db, user: UserId, role: Role, items: seq<Item>, now: Time)
    requires items != [] && ConfirmBatch(db, user, role, items, now).Ok? && OwnHolds(db, user, items)
    requires forall i :: 0 <= i < |items| ==> db.holds[items[i].hold].trip in db.trips
    ensures var l := ConfirmBatch(db, user, role, items, now).value.ledger;
            && (role == Student ==> PersonalOf(user) in l.wallets)
            && (forall h :: h in l.headers ==> h in db.ledger.headers || h.kind == TransportBooking)
            && (forall i :: 0 <= i < |items| && role == Student && db.trips[db.holds[items[i].hold].trip].price > 0 ==>
                  BookingDebitExists(l, items[i].ticket))
  {
    var db0, rows := Opened(db, user, role), RowsOf(db, items);
    LockHoldsIff(db0, user, items);
    assert RowsOf(db0, items) == rows;
    ConfirmItemsBill(db0, user, role == Student, items, rows, now);
  }

  /** What a cancellation reads of a ticket that a batch has just issued. */
  lemma BatchReads(db: Db, db': Db, user: UserId, role: Role, items: seq<Item>)
    requires BatchDone(db, db', user, role, items)
    ensures forall i :: 0 <= i < |items| ==>
              var trip := db.holds[items[i].hold].trip;
              trip in db.trips
                && ReadsOf(db', items)[i] == TicketRead(items[i].ticket, trip, user, db.trips[trip].price)
    ensures TripsRead(ReadsOf(db', items)) == TripsListed(Listed(db, items))
    ensures Fare(ReadsOf(db', items)) == Due(db, RowsOf(db, items))
  {
    var seen, rows := ReadsOf(db', items), RowsOf(db, items);
    forall i | 0 <= i < |items|
      ensures rows[i].trip in db.trips
      ensures seen[i] == TicketRead(items[i].ticket, rows[i].trip, user, db.trips[rows[i].trip].price)
    {
      assert db'.tickets[items[i].ticket] == TicketFor(db, user, items[i], rows[i]);
    }
    FareIsDue(db, rows, seen);
  }

  /** After a batch its tickets can all be refunded. */
  lemma BatchRefundable(db: Db, user: UserId, role: Role, items: seq<Item>, now: Time)
    requires RowsOk(db) && items != [] && FreshTickets(db, items) && Unrefunded(db.ledger, items)
    requires ConfirmBatch(db, user, role, items, now).Ok?
    requires var db' := ConfirmBatch(db, user, role, items, now).value;
             BatchDone(db, db', user, role, items) && LedgerOk(db'.ledger)
    ensures var db' := ConfirmBatch(db, user, role, items, now).value;
            Refundable(db'.ledger, ReadsOf(db', items), user, role)
  {
    var db' := ConfirmBatch(db, user, role, items, now).value;
    BatchReads(db, db', user, role, items);
    BatchBill(db, user, role, items, now);
  }

  lemma PaidBack(a: Ledger, b: Ledger, c: Ledger, user: UserId, student: bool, amount: int)
    requires Paid(a, b, user, student, amount) && Paid(b, c, user, student, -amount)
    ensures SameBalances(c, a)
  {
    forall w
      ensures Balance(c, w) == Balance(a, w)
    {
      assert Balance(b, w) - Balance(a, w) == Balance(b, w) - Balance(c, w);
    }
  }

  lemma BatchCancelled(db: Db, user: UserId, role: Role, items: seq<Item>, now: Time, prices: map<TripId, int>)
    requires RowsOk(db) && items != [] && FreshTickets(db, items) && Unrefunded(db.ledger, items)
    requires ConfirmBatch(db, user, role, items, now).Ok?
    requires var confirmed := ConfirmBatch(db, user, role, items, now).value;
             BatchDone(db, confirmed, user, role, items) && LedgerOk(confirmed.ledger)
    ensures var confirmed := ConfirmBatch(db, user, role, items, now).value;
            var r := CancelAll(confirmed.(trips := WithPrices(db.trips, prices)), ReadsOf(confirmed, items), role);
            && r.Ok? && r.value.holds == db.holds - HoldIds(items)
            && r.value.trips == WithPrices(SeatsBack(db.trips, TripsListed(Listed(db, items))), prices)
            && LedgerOk(r.value.ledger) && SameBalances(r.value.ledger, db.ledger)
  {
    var confirmed := ConfirmBatch(db, user, role, items, now).value;
    var repriced, seen := confirmed.(trips := WithPrices(db.trips, prices)), ReadsOf(confirmed, items);
    BatchRefundable(db, user, role, items, now);
    BatchReads(db, confirmed, user, role, items);
    CancelAllEffect(repriced, seen, user, role);
    SeatsBackPriced(db.trips, prices, TripsRead(seen));
    PaidBack(db.ledger, confirmed.ledger, CancelAll(repriced, seen, role).value.ledger,
             user, role == Student, Fare(seen));
  }

  lemma BatchReaped(db: Db, items: seq<Item>)
    requires RowsOk(db) && DistinctHolds(items) && forall i :: 0 <= i < |items| ==> items[i].hold in db.holds
    ensures ReapAll(db, Listed(db, items)) ==
            Ok(db.(holds := db.holds - HoldIds(items), trips := SeatsBack(db.trips, TripsListed(Listed(db, items)))))
  {
    assert HoldsListed(Listed(db, items)) == HoldIds(items);
    ReapAllEffect(db, Listed(db, items));
  }

  /** Confirming any batch of distinct holds and then cancelling all its tickets leaves
      every balance, every hold and every seat as the reaper would have left them, even
      when trips have changed their prices in between. */
  lemma ConfirmThenCancelAll(db: Db, user: UserId, role: Role, items: seq<Item>, now: Time, prices: map<TripId, int>)
    requires RowsOk(db) && LedgerOk(db.ledger) && FreshTickets(db, items)
    requires UnbilledTickets(db.ledger, items) && Unrefunded(db.ledger, items)
    requires DistinctHolds(items) && ConfirmBatch(db, user, role, items, now).Ok?
    ensures var confirmed := ConfirmBatch(db, user, role, items, now).value;
            && OwnHolds(db, user, items)
            && (forall i :: 0 <= i < |items| ==> items[i].ticket in confirmed.tickets)
            && (var cancelled := CancelAll(confirmed.(trips := WithPrices(confirmed.trips, prices)),
                                           ReadsOf(confirmed, items), role);
                var reaped := ReapAll(db, Listed(db, items));
                && cancelled.Ok? && reaped.Ok?
                && cancelled.value.holds == reaped.value.holds
                && cancelled.value.trips == WithPrices(reaped.value.trips, prices)
                && LedgerOk(cancelled.value.ledger)
                && SameBalances(cancelled.value.ledger, reaped.value.ledger))
  {
    ConfirmBatchOutcome(db, user, role, items, now);
    var confirmed := ConfirmBatch(db, user, role, items, now).value;
    BatchReaped(db, items);
    if items == [] {
      assert db.holds - HoldIds(items) == db.holds;
    } else {
      BatchCancelled(db, user, role, items, now, prices);
    }
  }
}
