/** A batch confirmation as a whole: exactly when it goes through, and everything
    it changes when it does. */
module Confirmation {
  import opened Outcomes
  import opened Ledgers
  import opened Tables
  import opened Bookings
  import opened SeatAccounting

  /** The sum of the prices of the trips behind the holds. */
  function Due(db: Db, rows: seq<Hold>): int
    requires forall i :: 0 <= i < |rows| ==> rows[i].trip in db.trips
  {
    if rows == [] then 0 else db.trips[rows[0].trip].price + Due(db, rows[1..])
  }

  /** No ticket of the trip has the code, be it valid or cancelled. */
  ghost predicate CodeUnused(db: Db, trip: TripId, code: nat) {
    forall t :: t in db.tickets && db.tickets[t].trip == trip ==> db.tickets[t].code != code
  }

  ghost predicate CodesFree(db: Db, items: seq<Item>, rows: seq<Hold>)
    requires |items| == |rows|
  {
    && (forall i :: 0 <= i < |items| ==> items[i].draws != [] && CodeUnused(db, rows[i].trip, items[i].draws[0]))
    && (forall i, j :: 0 <= i < j < |items| && rows[i].trip == rows[j].trip ==> items[i].draws[0] != items[j].draws[0])
  }

  ghost predicate Unexpired(rows: seq<Hold>, now: Time) {
    forall i :: 0 <= i < |rows| ==> now <= rows[i].expiresAt
  }

  ghost predicate UnbilledTickets(l: Ledger, items: seq<Item>) {
    forall i :: 0 <= i < |items| ==> Header(TransportBooking, items[i].ticket) !in l.headers
  }

  /** The tickets a batch issues: trip, stops and owner come from the hold, the
      price from the trip. */
  ghost predicate Issued(before: Db, after: Db, user: UserId, items: seq<Item>, rows: seq<Hold>)
    requires |items| == |rows|
  {
    && after.tickets.Keys == before.tickets.Keys + TicketIds(items)
    && (forall t :: t in before.tickets ==> t in after.tickets && after.tickets[t] == before.tickets[t])
    && (forall i :: 0 <= i < |items| ==>
          rows[i].trip in before.trips && items[i].draws != [] && items[i].ticket in after.tickets
          && after.tickets[items[i].ticket] ==
             Ticket(rows[i].trip, user, items[i].draws[0], rows[i].pickup, rows[i].dropoff,
                    before.trips[rows[i].trip].price, Confirmed))
    && after.holds == before.holds - HoldIds(items)
    && after.trips == before.trips && after.payments == before.payments && after.quotas == before.quotas
  }

  ghost predicate Paid(before: Ledger, after: Ledger, user: UserId, student: bool, amount: int) {
    forall w :: Balance(after, w) ==
                Balance(before, w) +
                (if !student then 0 else if w == Revenue then amount else if w == PersonalOf(user) then -amount else 0)
  }

  ghost predicate Ready(db: Db, user: UserId, student: bool, items: seq<Item>, rows: seq<Hold>) {
    && |items| == |rows|
    && RowsOk(db)
    && LedgerOk(db.ledger)
    && (student ==> PersonalOf(user) in db.ledger.wallets)
    && (forall i :: 0 <= i < |rows| ==> rows[i].trip in db.trips)
    && FreshTickets(db, items)
    && UnbilledTickets(db.ledger, items)
  }

  ghost predicate HeadPasses(db: Db, user: UserId, student: bool, item: Item, row: Hold, now: Time)
    requires row.trip in db.trips
  {
    && now <= row.expiresAt
    && item.draws != []
    && CodeUnused(db, row.trip, item.draws[0])
    && (student ==> db.trips[row.trip].price <= Balance(db.ledger, PersonalOf(user)))
  }

  lemma ConfirmItemOutcome(db: Db, user: UserId, student: bool, item: Item, row: Hold, now: Time)
    requires Ready(db, user, student, [item], [row])
    ensures var r := ConfirmItem(db, user, student, item, row, now);
            && [row][0].trip in db.trips
            && (r.Ok? <==> HeadPasses(db, user, student, item, row, now))
            && (r.Ok? ==>
                  && item.draws != []
                  && r.value == db.(ledger := r.value.ledger,
                                    holds := db.holds - {item.hold},
                                    tickets := db.tickets[item.ticket := TicketFor(db, user, item, row)])
                  && LedgerOk(r.value.ledger)
                  && r.value.ledger.wallets == db.ledger.wallets
                  && (forall h :: h in r.value.ledger.headers ==>
                      h in db.ledger.headers || h == Header(TransportBooking, item.ticket))
                  && Paid(db.ledger, r.value.ledger, user, student, db.trips[row.trip].price))
  {
    assert [item][0] == item && [row][0] == row;
    var price := db.trips[row.trip].price;
    var pays := student && price > 0;
    var t := Transfer(db.ledger, PersonalOf(user), Revenue, price, TransportBooking, item.ticket);
    assert student ==> Balance(db.ledger, PersonalOf(user)) >= 0;
    if pays && t.Ok? {
      TransferKeepsOk(db.ledger, PersonalOf(user), Revenue, price, TransportBooking, item.ticket);
      forall w
        ensures Balance(t.value, w) ==
                Balance(db.ledger, w) + (if w == Revenue then price else if w == PersonalOf(user) then -price else 0)
      {
        PostBalances(db.ledger, PersonalOf(user), Revenue, price, TransportBooking, item.ticket, w);
      }
    }
  }

  lemma DueNonNegative(db: Db, rows: seq<Hold>)
    requires RowsOk(db) && forall i :: 0 <= i < |rows| ==> rows[i].trip in db.trips
    ensures Due(db, rows) >= 0
  {
  }

  lemma CodesFreeSplit(db: Db, db1: Db, user: UserId, items: seq<Item>, rows: seq<Hold>)
    requires |items| == |rows| > 0 && rows[0].trip in db.trips && items[0].draws != [] && items[0].ticket !in db.tickets
    requires db1.tickets == db.tickets[items[0].ticket := TicketFor(db, user, items[0], rows[0])]
    requires CodeUnused(db, rows[0].trip, items[0].draws[0])
    ensures CodesFree(db, items, rows) <==> CodesFree(db1, items[1..], rows[1..])
  {
    var rest, restRows := items[1..], rows[1..];
    forall trip, code
      ensures CodeUnused(db1, trip, code) <==>
              CodeUnused(db, trip, code) && !(trip == rows[0].trip && code == items[0].draws[0])
    {
      assert forall t :: t in db.tickets ==> t in db1.tickets && db1.tickets[t] == db.tickets[t];
      assert items[0].ticket in db1.tickets;
    }
    if CodesFree(db, items, rows) {
      forall i | 0 <= i < |rest|
        ensures rest[i].draws != [] && CodeUnused(db1, restRows[i].trip, rest[i].draws[0])
      {
        assert rest[i] == items[i + 1] && restRows[i] == rows[i + 1];
      }
      forall i, j | 0 <= i < j < |rest| && restRows[i].trip == restRows[j].trip
        ensures rest[i].draws[0] != rest[j].draws[0]
      {
        assert rest[i] == items[i + 1] && restRows[i] == rows[i + 1] && rest[j] == items[j + 1]
               && restRows[j] == rows[j + 1];
      }
    }
    if CodesFree(db1, rest, restRows) {
      forall i | 0 <= i < |items|
        ensures items[i].draws != [] && CodeUnused(db, rows[i].trip, items[i].draws[0])
      {
        if i > 0 {
          assert rest[i - 1] == items[i] && restRows[i - 1] == rows[i];
        }
      }
      forall i, j | 0 <= i < j < |items| && rows[i].trip == rows[j].trip
        ensures items[i].draws[0] != items[j].draws[0]
      {
        assert rest[j - 1] == items[j] && restRows[j - 1] == rows[j];
        if i > 0 {
          assert rest[i - 1] == items[i] && restRows[i - 1] == rows[i];
        }
      }
    }
  }

  ghost predicate Passes(db: Db, user: UserId, student: bool, items: seq<Item>, rows: seq<Hold>, now: Time)
    requires |items| == |rows| && forall i :: 0 <= i < |rows| ==> rows[i].trip in db.trips
  {
    && Unexpired(rows, now)
    && CodesFree(db, items, rows)
    && (student ==> Due(db, rows) <= Balance(db.ledger, PersonalOf(user)))
  }

  lemma ReadyRest(db: Db, db1: Db, user: UserId, student: bool, items: seq<Item>, rows: seq<Hold>, now: Time)
    requires Ready(db, user, student, items, rows) && items != []
    requires ConfirmItem(db, user, student, items[0], rows[0], now) == Ok(db1)
    ensures Ready(db, user, student, [items[0]], [rows[0]])
    ensures Ready(db1, user, student, items[1..], rows[1..])
  {
    var item, row := items[0], rows[0];
    assert [item][0] == item && [row][0] == row;
    ConfirmItemOutcome(db, user, student, item, row, now);
    var rest := items[1..];
    forall i | 0 <= i < |rest|
      ensures rest[i].ticket !in db1.tickets && Header(TransportBooking, rest[i].ticket) !in db1.ledger.headers
              && rows[1..][i].trip in db1.trips
    {
      assert rest[i] == items[i + 1] && rows[1..][i] == rows[i + 1];
      assert items[0].ticket != items[i + 1].ticket;
    }
    forall i, j | 0 <= i < j < |rest|
      ensures rest[i].ticket != rest[j].ticket
    {
      assert rest[i] == items[i + 1] && rest[j] == items[j + 1];
    }
  }

  lemma UnexpiredSplit(rows: seq<Hold>, now: Time)
    requires rows != []
    ensures Unexpired(rows, now) <==> now <= rows[0].expiresAt && Unexpired(rows[1..], now)
  {
    assert rows == [rows[0]] + rows[1..];
  }

  lemma DueSplit(db: Db, db1: Db, rows: seq<Hold>)
    requires rows != [] && db1.trips == db.trips && forall i :: 0 <= i < |rows| ==> rows[i].trip in db.trips
    ensures forall i :: 0 <= i < |rows[1..]| ==> rows[1..][i].trip in db1.trips
    ensures Due(db, rows) == db.trips[rows[0].trip].price + Due(db1, rows[1..])
  {
    SameDue(db, db1, rows[1..]);
  }

  lemma PassesSplit(db: Db, db1: Db, user: UserId, student: bool, items: seq<Item>, rows: seq<Hold>, now: Time)
    requires Ready(db, user, student, items, rows) && items != []
    requires ConfirmItem(db, user, student, items[0], rows[0], now) == Ok(db1)
    ensures forall i :: 0 <= i < |rows[1..]| ==> rows[1..][i].trip in db1.trips
    ensures Passes(db, user, student, items, rows, now) <==> Passes(db1, user, student, items[1..], rows[1..], now)
    ensures Due(db, rows) == db.trips[rows[0].trip].price + Due(db1, rows[1..])
  {
    HeadCodes(db, db1, user, student, items, rows, now);
    HeadBalance(db, db1, user, student, items, rows, now);
    UnexpiredSplit(rows, now);
    DueSplit(db, db1, rows);
  }

  lemma HeadBalance(db: Db, db1: Db, user: UserId, student: bool, items: seq<Item>, rows: seq<Hold>, now: Time)
    requires Ready(db, user, student, items, rows) && items != []
    requires ConfirmItem(db, user, student, items[0], rows[0], now) == Ok(db1)
    ensures db1.trips == db.trips
    ensures student ==>
            Balance(db1.ledger, PersonalOf(user)) == Balance(db.ledger, PersonalOf(user)) - db.trips[rows[0].trip].price
  {
    assert [items[0]][0] == items[0] && [rows[0]][0] == rows[0];
    ConfirmItemOutcome(db, user, student, items[0], rows[0], now);
  }

  lemma HeadCodes(db: Db, db1: Db, user: UserId, student: bool, items: seq<Item>, rows: seq<Hold>, now: Time)
    requires Ready(db, user, student, items, rows) && items != []
    requires ConfirmItem(db, user, student, items[0], rows[0], now) == Ok(db1)
    ensures now <= rows[0].expiresAt
    ensures CodesFree(db, items, rows) <==> CodesFree(db1, items[1..], rows[1..])
  {
    assert [items[0]][0] == items[0] && [rows[0]][0] == rows[0];
    ConfirmItemOutcome(db, user, student, items[0], rows[0], now);
    CodesFreeSplit(db, db1, user, items, rows);
  }

  lemma {:induction false} SameDue(db: Db, db1: Db, rows: seq<Hold>)
    requires db1.trips == db.trips && forall i :: 0 <= i < |rows| ==> rows[i].trip in db.trips
    ensures Due(db1, rows) == Due(db, rows)
  {
    if rows != [] {
      SameDue(db, db1, rows[1..]);
    }
  }

  lemma PassesHead(db: Db, user: UserId, student: bool, items: seq<Item>, rows: seq<Hold>, now: Time)
    requires Ready(db, user, student, items, rows) && items != []
    ensures Passes(db, user, student, items, rows, now) ==> HeadPasses(db, user, student, items[0], rows[0], now)
  {
    DueNonNegative(db, rows[1..]);
  }

  lemma {:induction false} ConfirmItemsPasses(db: Db, user: UserId, student: bool, items: seq<Item>, rows: seq<Hold>,
      now: Time)
    requires Ready(db, user, student, items, rows)
    ensures ConfirmItems(db, user, student, items, rows, now).Ok? <==> Passes(db, user, student, items, rows, now)
    decreases |items|
  {
    if items == [] {
      return;
    }
    assert [items[0]][0] == items[0] && [rows[0]][0] == rows[0];
    ConfirmItemOutcome(db, user, student, items[0], rows[0], now);
    var r := ConfirmItem(db, user, student, items[0], rows[0], now);
    if r.Ok? {
      ReadyRest(db, r.value, user, student, items, rows, now);
      PassesSplit(db, r.value, user, student, items, rows, now);
      ConfirmItemsPasses(r.value, user, student, items[1..], rows[1..], now);
    } else {
      PassesHead(db, user, student, items, rows, now);
    }
  }

  lemma {:induction false} ConfirmItemsEffect(db: Db, user: UserId, student: bool, items: seq<Item>, rows: seq<Hold>,
      now: Time)
    requires Ready(db, user, student, items, rows)
    requires ConfirmItems(db, user, student, items, rows, now).Ok?
    ensures var db' := ConfirmItems(db, user, student, items, rows, now).value;
            && Issued(db, db', user, items, rows)
            && LedgerOk(db'.ledger)
            && db'.ledger.wallets == db.ledger.wallets
            && Paid(db.ledger, db'.ledger, user, student, Due(db, rows))
            && (!student ==> db'.ledger == db.ledger)
    decreases |items|
  {
    if items == [] {
      return;
    }
    assert [items[0]][0] == items[0] && [rows[0]][0] == rows[0];
    ConfirmItemOutcome(db, user, student, items[0], rows[0], now);
    var db1 := ConfirmItem(db, user, student, items[0], rows[0], now).value;
    ReadyRest(db, db1, user, student, items, rows, now);
    PassesSplit(db, db1, user, student, items, rows, now);
    ConfirmItemsEffect(db1, user, student, items[1..], rows[1..], now);
    IssuedStep(db, db1, ConfirmItems(db, user, student, items, rows, now).value, user, items, rows);
  }

  function TicketIds(items: seq<Item>): set<TicketId> {
    set i | 0 <= i < |items| :: items[i].ticket
  }

  function HoldIds(items: seq<Item>): set<HoldId> {
    set i | 0 <= i < |items| :: items[i].hold
  }

  lemma IdsSplit(items: seq<Item>)
    requires items != []
    ensures TicketIds(items) == {items[0].ticket} + TicketIds(items[1..])
    ensures HoldIds(items) == {items[0].hold} + HoldIds(items[1..])
  {
  }

  lemma IssuedStep(db: Db, db1: Db, db': Db, user: UserId, items: seq<Item>, rows: seq<Hold>)
    requires |items| == |rows| > 0 && items[0].ticket !in db.tickets
    requires rows[0].trip in db.trips && items[0].draws != []
    requires db1 == db.(ledger := db1.ledger,
                        holds := db.holds - {items[0].hold},
                        tickets := db.tickets[items[0].ticket := TicketFor(db, user, items[0], rows[0])])
    requires Issued(db1, db', user, items[1..], rows[1..])
    ensures Issued(db, db', user, items, rows)
  {
    IdsSplit(items);
    forall i | 0 < i < |items|
      ensures items[i].ticket in db'.tickets && rows[i].trip in db.trips && items[i].draws != []
      ensures db'.tickets[items[i].ticket] == TicketFor(db, user, items[i], rows[i])
    {
      assert items[1..][i - 1] == items[i] && rows[1..][i - 1] == rows[i];
    }
    assert db'.holds == db.holds - HoldIds(items);
  }

  // ----- the whole transaction

  /** All holds are there and are the user's own. */
  ghost predicate OwnHolds(db: Db, user: UserId, items: seq<Item>) {
    forall i :: 0 <= i < |items| ==> items[i].hold in db.holds && db.holds[items[i].hold].user == user
  }

  function RowsOf(db: Db, items: seq<Item>): (rows: seq<Hold>)
    requires forall i :: 0 <= i < |items| ==> items[i].hold in db.holds
    ensures |rows| == |items|
    ensures forall i :: 0 <= i < |items| ==> rows[i] == db.holds[items[i].hold]
  {
    seq(|items|, i requires 0 <= i < |items| => db.holds[items[i].hold])
  }

  lemma {:induction false} LockHoldsIff(db: Db, user: UserId, items: seq<Item>)
    ensures LockHolds(db, user, items).Ok? <==> OwnHolds(db, user, items)
    ensures OwnHolds(db, user, items) ==> LockHolds(db, user, items) == Ok(RowsOf(db, items))
  {
    if items != [] {
      LockHoldsIff(db, user, items[1..]);
      assert forall i :: 0 <= i < |items[1..]| ==> items[1..][i] == items[i + 1];
      if OwnHolds(db, user, items) {
        assert OwnHolds(db, user, items[1..]);
        assert RowsOf(db, items) == [db.holds[items[0].hold]] + RowsOf(db, items[1..]);
      } else if items[0].hold in db.holds && db.holds[items[0].hold].user == user && OwnHolds(db, user, items[1..]) {
        forall i | 0 <= i < |items|
          ensures items[i].hold in db.holds && db.holds[items[i].hold].user == user
        {
          if i > 0 {
            assert items[1..][i - 1] == items[i];
          }
        }
        assert false;
      }
    }
  }

  ghost predicate BatchPasses(db: Db, user: UserId, role: Role, items: seq<Item>, now: Time) {
    && OwnHolds(db, user, items)
    && Unexpired(RowsOf(db, items), now)
    && CodesFree(db, items, RowsOf(db, items))
    && (forall i :: 0 <= i < |items| ==> RowsOf(db, items)[i].trip in db.trips)
    && (role == Student ==> Due(db, RowsOf(db, items)) <= Balance(db.ledger, PersonalOf(user)))
  }

  ghost predicate BatchDone(before: Db, after: Db, user: UserId, role: Role, items: seq<Item>) {
    && OwnHolds(before, user, items)
    && (forall i :: 0 <= i < |items| ==> RowsOf(before, items)[i].trip in before.trips)
    && Issued(before, after, user, items, RowsOf(before, items))
    && Paid(before.ledger, after.ledger, user, role == Student, Due(before, RowsOf(before, items)))
  }

  /** The batch once the student's wallet row exists. */
  lemma OpenedBatch(db: Db, user: UserId, role: Role, items: seq<Item>, now: Time)
    requires RowsOk(db) && LedgerOk(db.ledger) && FreshTickets(db, items) && UnbilledTickets(db.ledger, items)
    requires role == Student ==> PersonalOf(user) in db.ledger.wallets
    ensures var r := ConfirmLocked(db, user, role, items, now);
            && (r.Ok? <==> BatchPasses(db, user, role, items, now))
            && (r.Ok? ==> BatchDone(db, r.value, user, role, items) && LedgerOk(r.value.ledger))
  {
    OpenedBatchPasses(db, user, role, items, now);
    LockHoldsIff(db, user, items);
    if BatchPasses(db, user, role, items, now) {
      ConfirmItemsEffect(db, user, role == Student, items, RowsOf(db, items), now);
    }
  }

  lemma OpenedBatchPasses(db: Db, user: UserId, role: Role, items: seq<Item>, now: Time)
    requires RowsOk(db) && LedgerOk(db.ledger) && FreshTickets(db, items) && UnbilledTickets(db.ledger, items)
    requires role == Student ==> PersonalOf(user) in db.ledger.wallets
    ensures ConfirmLocked(db, user, role, items, now).Ok? <==> BatchPasses(db, user, role, items, now)
  {
    LockHoldsIff(db, user, items);
    if OwnHolds(db, user, items) {
      ConfirmItemsPasses(db, user, role == Student, items, RowsOf(db, items), now);
    }
  }

  lemma SameBatch(db: Db, db0: Db, user: UserId, role: Role, items: seq<Item>, now: Time)
    requires db0 == db.(ledger := OpenWallet(db.ledger, user))
    ensures BatchPasses(db0, user, role, items, now) <==> BatchPasses(db, user, role, items, now)
    ensures forall after: Db :: BatchDone(db0, after, user, role, items) ==> BatchDone(db, after, user, role, items)
  {
    if OwnHolds(db, user, items) {
      var rows := RowsOf(db, items);
      assert RowsOf(db0, items) == rows;
      assert CodesFree(db0, items, rows) <==> CodesFree(db, items, rows);
      if forall i :: 0 <= i < |rows| ==> rows[i].trip in db.trips {
        SameDue(db, db0, rows);
        forall after: Db | BatchDone(db0, after, user, role, items)
          ensures BatchDone(db, after, user, role, items)
        {
          SameIssued(db, db0, after, user, items, rows);
        }
      }
    }
  }

  lemma SameIssued(db: Db, db0: Db, after: Db, user: UserId, items: seq<Item>, rows: seq<Hold>)
    requires |items| == |rows| && db0 == db.(ledger := db0.ledger) && Issued(db0, after, user, items, rows)
    ensures Issued(db, after, user, items, rows)
  {
    forall i | 0 <= i < |items|
      ensures rows[i].trip in db.trips
              && TicketFor(db, user, items[i], rows[i]) == TicketFor(db0, user, items[i], rows[i])
    {
    }
  }

  /** A batch goes through exactly when every hold exists, is the user's, has not
      expired and draws a free code, and a student can pay for all of it.  Then
      exactly those holds have become tickets, a student's balance has dropped by
      exactly the sum of the prices and the revenue has risen by as much. */
  lemma ConfirmBatchOutcome(db: Db, user: UserId, role: Role, items: seq<Item>, now: Time)
    requires RowsOk(db) && LedgerOk(db.ledger) && FreshTickets(db, items) && UnbilledTickets(db.ledger, items)
    ensures var r := ConfirmBatch(db, user, role, items, now);
            && (r.Ok? <==> BatchPasses(db, user, role, items, now))
            && (r.Ok? ==> BatchDone(db, r.value, user, role, items) && LedgerOk(r.value.ledger))
  {
    if items == [] {
      EmptyBatch(db, user, role == Student);
    } else if role == Student {
      OpenWalletKeepsOk(db.ledger, user);
      OpenedBatch(Opened(db, user, role), user, role, items, now);
      SameBatch(db, Opened(db, user, role), user, role, items, now);
    } else {
      OpenedBatch(db, user, role, items, now);
    }
  }

  lemma EmptyBatch(db: Db, user: UserId, student: bool)
    requires LedgerOk(db.ledger)
    ensures RowsOf(db, []) == [] && Due(db, []) == 0
    ensures Issued(db, db, user, [], []) && Paid(db.ledger, db.ledger, user, student, 0)
    ensures student ==> 0 <= Balance(db.ledger, PersonalOf(user))
  {
    if PersonalOf(user) !in db.ledger.wallets {
      SnapshotIsSum(db.ledger.entries, PersonalOf(user));
      NoRows(db.ledger.entries, PersonalOf(user));
    }
  }

  // ----- why a batch is refused

  /** The first hold that is missing or somebody else's. */
  ghost predicate NotTheirs(db: Db, user: UserId, items: seq<Item>, e: Error) {
    exists k :: 0 <= k < |items| && OwnHolds(db, user, items[..k])
                && (if items[k].hold !in db.holds then e == Database
                    else db.holds[items[k].hold].user != user && e == Unauthorized)
  }

  lemma {:induction false} LockHoldsRefusal(db: Db, user: UserId, items: seq<Item>)
    ensures LockHolds(db, user, items).Err? ==> NotTheirs(db, user, items, LockHolds(db, user, items).error)
  {
    if LockHolds(db, user, items).Err? {
      var e := LockHolds(db, user, items).error;
      if items[0].hold !in db.holds || db.holds[items[0].hold].user != user {
        assert OwnHolds(db, user, items[..0]);
      } else {
        LockHoldsRefusal(db, user, items[1..]);
        var k :| 0 <= k < |items[1..]| && OwnHolds(db, user, items[1..][..k])
                 && (if items[1..][k].hold !in db.holds then e == Database
                     else db.holds[items[1..][k].hold].user != user && e == Unauthorized);
        assert items[..k + 1] == [items[0]] + items[1..][..k] && items[k + 1] == items[1..][k];
      }
    }
  }

  /** What a turn of the loop finds wrong first: the hold has expired, its first code is
      taken, or the balance is too low for the price. */
  ghost predicate Refused(db: Db, user: UserId, student: bool, item: Item, row: Hold, now: Time, e: Error)
    requires row.trip in db.trips
  {
    if now > row.expiresAt then e == HoldExpired
    else if item.draws == [] || !CodeUnused(db, row.trip, item.draws[0]) then e == Database
    else student && Balance(db.ledger, PersonalOf(user)) < db.trips[row.trip].price && e == InsufficientFunds
  }

  lemma ConfirmItemRefusal(db: Db, user: UserId, student: bool, item: Item, row: Hold, now: Time)
    requires Ready(db, user, student, [item], [row])
    ensures [row][0].trip in db.trips
    ensures var r := ConfirmItem(db, user, student, item, row, now);
            r.Err? ==> Refused(db, user, student, item, row, now, r.error)
  {
    assert [item][0] == item && [row][0] == row;
    assert Header(TransportBooking, item.ticket) !in db.ledger.headers;
  }

  /** Some turn, after those before it went through. */
  ghost predicate StopsAt(db: Db, dbk: Db, user: UserId, student: bool, items: seq<Item>, rows: seq<Hold>, now: Time,
      k: nat, e: Error)
    requires |items| == |rows| && k < |items|
  {
    && ConfirmItems(db, user, student, items[..k], rows[..k], now) == Ok(dbk)
    && rows[k].trip in dbk.trips && Refused(dbk, user, student, items[k], rows[k], now, e)
  }

  ghost predicate StopsSomewhere(db: Db, user: UserId, student: bool, items: seq<Item>, rows: seq<Hold>, now: Time,
      e: Error)
    requires |items| == |rows|
  {
    exists dbk, k :: 0 <= k < |items| && StopsAt(db, dbk, user, student, items, rows, now, k, e)
  }

  lemma {:induction false} ConfirmItemsStops(db: Db, user: UserId, student: bool, items: seq<Item>, rows: seq<Hold>,
      now: Time)
    returns (dbk: Db, k: nat)
    requires Ready(db, user, student, items, rows) && ConfirmItems(db, user, student, items, rows, now).Err?
    ensures k < |items|
    ensures StopsAt(db, dbk, user, student, items, rows, now, k,
                    ConfirmItems(db, user, student, items, rows, now).error)
    decreases |items|
  {
    var r := ConfirmItem(db, user, student, items[0], rows[0], now);
    if r.Err? {
      dbk, k := db, 0;
      assert [items[0]][0] == items[0] && [rows[0]][0] == rows[0];
      ConfirmItemRefusal(db, user, student, items[0], rows[0], now);
    } else {
      ReadyRest(db, r.value, user, student, items, rows, now);
      dbk, k := ConfirmItemsStops(r.value, user, student, items[1..], rows[1..], now);
      StopsLater(db, r.value, dbk, user, student, items, rows, now, k,
                 ConfirmItems(db, user, student, items, rows, now).error);
      k := k + 1;
    }
  }

  lemma StopsLater(db: Db, db1: Db, dbk: Db, user: UserId, student: bool, items: seq<Item>, rows: seq<Hold>, now: Time,
      k: nat, e: Error)
    requires |items| == |rows| && k + 1 < |items|
    requires ConfirmItem(db, user, student, items[0], rows[0], now) == Ok(db1)
    requires StopsAt(db1, dbk, user, student, items[1..], rows[1..], now, k, e)
    ensures StopsAt(db, dbk, user, student, items, rows, now, k + 1, e)
  {
    assert items[..k + 1][1..] == items[1..][..k] && rows[..k + 1][1..] == rows[1..][..k];
  }

  /** A batch is refused for the first hold that is not there or not the user's, or else
      for the first turn that meets an expired hold, a taken code or too low a balance. */
  lemma BatchRefusal(db: Db, user: UserId, role: Role, items: seq<Item>, now: Time)
    requires RowsOk(db) && LedgerOk(db.ledger) && FreshTickets(db, items) && UnbilledTickets(db.ledger, items)
    requires ConfirmBatch(db, user, role, items, now).Err?
    ensures var e := ConfirmBatch(db, user, role, items, now).error;
            if !OwnHolds(db, user, items) then NotTheirs(db, user, items, e)
            else StopsSomewhere(Opened(db, user, role), user, role == Student, items, RowsOf(db, items), now, e)
  {
    var db0 := Opened(db, user, role);
    OpenWalletKeepsOk(db.ledger, user);
    LockHoldsIff(db0, user, items);
    if OwnHolds(db, user, items) {
      assert RowsOf(db0, items) == RowsOf(db, items);
      var dbk, k := ConfirmItemsStops(db0, user, role == Student, items, RowsOf(db, items), now);
    } else {
      LockHoldsRefusal(db0, user, items);
    }
  }

  ghost predicate SameBalances(a: Ledger, b: Ledger) {
    forall w :: Balance(a, w) == Balance(b, w)
  }

  /** Booking and refund of the same price cancel out. */
  lemma RefundUndoesPayment(l: Ledger, user: UserId, price: int, ticket: TicketId)
    requires LedgerOk(l) && PersonalOf(user) in l.wallets && price > 0
    requires Header(Refund, ticket) !in l.headers
    requires Transfer(l, PersonalOf(user), Revenue, price, TransportBooking, ticket).Ok?
    ensures var paid := Post(l, PersonalOf(user), Revenue, price, TransportBooking, ticket);
            var r := Transfer(OpenWallet(paid, user), Revenue, PersonalOf(user), price, Refund, ticket);
            BookingDebitExists(paid, ticket) && r.Ok? && LedgerOk(r.value) && SameBalances(r.value, l)
  {
    var paid := Post(l, PersonalOf(user), Revenue, price, TransportBooking, ticket);
    assert paid.headers[|l.headers|] == Header(TransportBooking, ticket);
    assert OpenWallet(paid, user) == paid;
    TransferKeepsOk(l, PersonalOf(user), Revenue, price, TransportBooking, ticket);
    assert Header(Refund, ticket) !in paid.headers;
    TransferKeepsOk(paid, Revenue, PersonalOf(user), price, Refund, ticket);
    forall w
      ensures Balance(Post(paid, Revenue, PersonalOf(user), price, Refund, ticket), w) == Balance(l, w)
    {
      PostBalances(l, PersonalOf(user), Revenue, price, TransportBooking, ticket, w);
      PostBalances(paid, Revenue, PersonalOf(user), price, Refund, ticket, w);
    }
  }

  /** A batch of one is one turn of the loop. */
  lemma BatchOfOne(db: Db, user: UserId, role: Role, item: Item, now: Time)
    requires ConfirmBatch(db, user, role, [item], now).Ok?
    ensures item.hold in db.holds && db.holds[item.hold].user == user
    ensures ConfirmItem(Opened(db, user, role), user, role == Student, item, db.holds[item.hold], now) ==
            ConfirmBatch(db, user, role, [item], now)
  {
    var student, db0 := role == Student, Opened(db, user, role);
    assert [item][0] == item && [item][1..] == [];
    assert LockHolds(db0, user, []) == Ok([]);
    var row := db.holds[item.hold];
    assert LockHolds(db0, user, [item]) == Ok([row] + []);
    assert [row] + [] == [row] && [row][0] == row && [row][1..] == [];
    var r := ConfirmItem(db0, user, student, item, row, now);
    assert r.Ok? ==> ConfirmItems(r.value, user, student, [], [], now) == r;
  }

  lemma ConfirmedOne(db: Db, user: UserId, role: Role, item: Item, now: Time)
    requires RowsOk(db) && LedgerOk(db.ledger)
    requires Header(TransportBooking, item.ticket) !in db.ledger.headers
             && Header(Refund, item.ticket) !in db.ledger.headers
    requires ConfirmBatch(db, user, role, [item], now).Ok?
    ensures item.hold in db.holds && db.holds[item.hold].trip in db.trips
    ensures var row := db.holds[item.hold];
            var db1 := ConfirmBatch(db, user, role, [item], now).value;
            var read := TicketRead(item.ticket, row.trip, user, db.trips[row.trip].price);
            var refund := RefundOnCancel(db1.ledger, read, role);
            && db1.holds == db.holds - {item.hold} && db1.trips == db.trips
            && item.ticket in db1.tickets && ReadOf(db1, item.ticket) == read
            && refund.Ok? && LedgerOk(refund.value) && SameBalances(refund.value, db.ledger)
  {
    BatchOfOne(db, user, role, item, now);
    OpenWalletKeepsOk(db.ledger, user);
    var price := db.trips[db.holds[item.hold].trip].price;
    if role == Student && price > 0 {
      RefundUndoesPayment(Opened(db, user, role).ledger, user, price, item.ticket);
    }
  }

  lemma CommitCancelRows(db: Db, read: TicketRead, role: Role)
    requires RefundOnCancel(db.ledger, read, role).Ok? && read.trip in db.trips
    ensures var r := CommitCancel(db, read, role);
            && r.Ok?
            && r.value.ledger == RefundOnCancel(db.ledger, read, role).value
            && r.value.holds == db.holds
            && r.value.trips == db.trips[read.trip := IncrementSeat(db.trips[read.trip])]
            && r.value.tickets.Keys == db.tickets.Keys
  {
  }

  function Reprice(db: Db, trip: TripId, price: int): Db
    requires trip in db.trips
  {
    db.(trips := db.trips[trip := db.trips[trip].(price := price)])
  }

  /** Confirming a hold and then cancelling the ticket leaves every balance, every
      hold and every seat as reclaiming the hold would have, even when the price of
      the trip has been changed in between. */
  lemma ConfirmThenCancelIsRelease(db: Db, user: UserId, role: Role, item: Item, now: Time, newPrice: int)
    requires RowsOk(db) && LedgerOk(db.ledger)
    requires Header(TransportBooking, item.ticket) !in db.ledger.headers
             && Header(Refund, item.ticket) !in db.ledger.headers
    requires ConfirmBatch(db, user, role, [item], now).Ok?
    ensures item.hold in db.holds
    ensures var trip := db.holds[item.hold].trip;
            var db1 := ConfirmBatch(db, user, role, [item], now).value;
            && trip in db1.trips && item.ticket in db1.tickets
            && (var repriced := Reprice(db1, trip, newPrice);
                var cancelled := CommitCancel(repriced, ReadOf(repriced, item.ticket), role);
                var released := CleanupSingleHold(db, item.hold, trip);
                && cancelled.Ok? && released.Ok? && trip in released.value.trips
                && cancelled.value.holds == released.value.holds
                && cancelled.value.trips == Reprice(released.value, trip, newPrice).trips
                && LedgerOk(cancelled.value.ledger)
                && SameBalances(cancelled.value.ledger, released.value.ledger))
  {
    ConfirmedOne(db, user, role, item, now);
    var trip := db.holds[item.hold].trip;
    var db1 := ConfirmBatch(db, user, role, [item], now).value;
    var repriced := Reprice(db1, trip, newPrice);
    CommitCancelRows(repriced, ReadOf(db1, item.ticket), role);
  }
}
