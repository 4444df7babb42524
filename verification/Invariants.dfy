/** What every reachable world satisfies: the rows of the ledger are the bookings,
    refunds and deposits of the other tables. */
module Invariants {
  import opened Ledgers
  import opened Tables
  import opened Bookings
  import opened SeatAccounting
  import opened Topups
  import opened System

  /** Header i and its two rows say what the tables say. */
  ghost predicate HeaderLinked(db: Db, reported: set<TxnRef>, i: nat)
    requires 2 * i + 1 < |db.ledger.entries| && i < |db.ledger.headers|
  {
    var h, debit, credit := db.ledger.headers[i], db.ledger.entries[2 * i], db.ledger.entries[2 * i + 1];
    match h.kind
    case TransportBooking =>
      && h.ref in db.tickets
      && debit.wallet == PersonalOf(db.tickets[h.ref].user) && credit.wallet == Revenue
      && credit.amount == db.tickets[h.ref].pricePaid
    case Refund =>
      && h.ref in db.tickets
      && debit.wallet == Revenue && credit.wallet == PersonalOf(db.tickets[h.ref].user)
      && credit.amount == db.tickets[h.ref].pricePaid
      && db.tickets[h.ref].status != Confirmed
      && Header(TransportBooking, h.ref) in db.ledger.headers[..i]
    case JazzcashDeposit =>
      && h.ref in db.payments && h.ref in reported
      && debit.wallet == Liability && credit.wallet == PersonalOf(db.payments[h.ref].user)
      && credit.amount == db.payments[h.ref].amount
  }

  ghost predicate Linked(db: Db, reported: set<TxnRef>)
    requires |db.ledger.entries| == 2 * |db.ledger.headers|
  {
    forall i :: 0 <= i < |db.ledger.headers| ==> HeaderLinked(db, reported, i)
  }

  ghost predicate DbOk(db: Db, reported: set<TxnRef>) {
    && RowsOk(db)
    && LedgerOk(db.ledger)
    && Linked(db, reported)
    && (forall r :: r in db.payments ==> db.payments[r].amount > 0)
  }

  ghost predicate ReadsOk(w: World) {
    && (forall h :: h in w.db.holds ==> h in w.born && w.born[h] == w.db.holds[h])
    && (forall p :: p in w.expired ==> p.0 in w.born && w.born[p.0].trip == p.1)
    && (forall r :: r in w.ticketReads ==> r.id in w.db.tickets && r == ReadOf(w.db, r.id))
    && (forall p, r :: p in w.tripReads && r in p.1 ==>
        r.id in w.db.tickets && r == ReadOf(w.db, r.id) && r.trip == p.0)
    && (forall c :: c in w.credits ==> c.ref in w.db.payments && c == CreditOf(w.db, c.ref) && c.ref in w.reported)
  }

  ghost predicate Inv(w: World) {
    DbOk(w.db, w.reported) && ReadsOk(w)
  }

  // ----- what no step takes back

  /** Tickets and payments stay, with their owner, trip and amount; a ticket that is
      no longer confirmed never is again. */
  ghost predicate RowsPersist(db: Db, db': Db) {
    && (forall t :: t in db.tickets ==>
          && t in db'.tickets
          && db'.tickets[t].trip == db.tickets[t].trip && db'.tickets[t].user == db.tickets[t].user
          && db'.tickets[t].pricePaid == db.tickets[t].pricePaid
          && (db.tickets[t].status != Confirmed ==> db'.tickets[t].status != Confirmed))
    && (forall r :: r in db.payments ==>
          r in db'.payments && db'.payments[r].user == db.payments[r].user
            && db'.payments[r].amount == db.payments[r].amount)
  }

  /** And the ledger only ever grows at its end. */
  ghost predicate Persists(db: Db, db': Db) {
    && RowsPersist(db, db')
    && db.ledger.headers <= db'.ledger.headers
    && db.ledger.entries <= db'.ledger.entries
  }

  lemma PersistsTransitive(a: Db, b: Db, c: Db)
    requires Persists(a, b) && Persists(b, c)
    ensures Persists(a, c)
  {
  }

  lemma LinkedPersists(db: Db, db': Db, reported: set<TxnRef>, reported': set<TxnRef>, i: nat)
    requires i < |db.ledger.headers| && 2 * i + 1 < |db.ledger.entries|
    requires HeaderLinked(db, reported, i) && Persists(db, db') && reported <= reported'
    ensures 2 * i + 1 < |db'.ledger.entries| && i < |db'.ledger.headers|
    ensures HeaderLinked(db', reported', i)
  {
    assert db'.ledger.headers[i] == db.ledger.headers[i];
    assert db'.ledger.headers[..i] == db.ledger.headers[..i];
  }

  /** Changes of the other tables that leave the ledger alone. */
  lemma SameLedgerKeepsOk(db: Db, db': Db, reported: set<TxnRef>, reported': set<TxnRef>)
    requires DbOk(db, reported) && RowsOk(db') && reported <= reported'
    requires RowsPersist(db, db')
    requires db'.ledger.headers == db.ledger.headers && db'.ledger.entries == db.ledger.entries && LedgerOk(db'.ledger)
    requires forall r :: r in db'.payments ==> db'.payments[r].amount > 0
    ensures DbOk(db', reported') && Persists(db, db')
  {
    forall i | 0 <= i < |db'.ledger.headers|
      ensures HeaderLinked(db', reported', i)
    {
      LinkedPersists(db, db', reported, reported', i);
    }
  }

  /** One more transfer, when the tables say what its header means. */
  lemma PostKeepsOk(db: Db, reported: set<TxnRef>, sender: WalletId, receiver: WalletId, amount: int, kind: TxnKind,
      ref: nat)
    requires DbOk(db, reported) && sender != receiver
    requires Transfer(db.ledger, sender, receiver, amount, kind, ref).Ok?
    requires var l := db.ledger;
             var l' := Post(l, sender, receiver, amount, kind, ref);
             HeaderLinked(db.(ledger := l'), reported, |l.headers|)
    ensures var db' := db.(ledger := Post(db.ledger, sender, receiver, amount, kind, ref));
            DbOk(db', reported) && Persists(db, db')
  {
    var l := db.ledger;
    var l' := Post(l, sender, receiver, amount, kind, ref);
    var db' := db.(ledger := l');
    TransferKeepsOk(l, sender, receiver, amount, kind, ref);
    assert l'.entries[..|l.entries|] == l.entries;
    forall i | 0 <= i < |l'.headers|
      ensures HeaderLinked(db', reported, i)
    {
      if i < |l.headers| {
        LinkedPersists(db, db', reported, reported, i);
      }
    }
  }

  lemma OpenKeepsOk(db: Db, reported: set<TxnRef>, user: UserId)
    requires DbOk(db, reported)
    ensures var db' := db.(ledger := OpenWallet(db.ledger, user));
            DbOk(db', reported) && Persists(db, db')
  {
    OpenWalletKeepsOk(db.ledger, user);
    SameLedgerKeepsOk(db, db.(ledger := OpenWallet(db.ledger, user)), reported, reported);
  }

  lemma BilledTicketExists(db: Db, reported: set<TxnRef>, kind: TxnKind, t: TicketId)
    requires DbOk(db, reported) && kind != JazzcashDeposit && Header(kind, t) in db.ledger.headers
    ensures t in db.tickets
    ensures kind == Refund ==> db.tickets[t].status != Confirmed && Header(TransportBooking, t) in db.ledger.headers
  {
    var i :| 0 <= i < |db.ledger.headers| && db.ledger.headers[i] == Header(kind, t);
    assert HeaderLinked(db, reported, i);
  }

  // ----- the steps that post

  lemma ConfirmItemKeepsOk(db: Db, reported: set<TxnRef>, user: UserId, student: bool, item: Item, row: Hold, now: Time)
    requires DbOk(db, reported) && item.ticket !in db.tickets
    requires ConfirmItem(db, user, student, item, row, now).Ok?
    ensures var db' := ConfirmItem(db, user, student, item, row, now).value;
            && DbOk(db', reported) && Persists(db, db')
            && db'.tickets.Keys == db.tickets.Keys + {item.ticket}
            && db'.holds == db.holds - {item.hold} && db'.payments == db.payments && db'.trips == db.trips
  {
    var db1 := DeleteHold(InsertTicket(db, item.ticket, TicketFor(db, user, item, row)).value, item.hold);
    SameLedgerKeepsOk(db, db1, reported, reported);
    PayKeepsOk(db1, reported, user, student, db.trips[row.trip].price, item.ticket);
  }

  lemma PayKeepsOk(db: Db, reported: set<TxnRef>, user: UserId, student: bool, price: int, ticket: TicketId)
    requires DbOk(db, reported) && Pay(db, user, student, price, ticket).Ok?
    requires ticket in db.tickets && db.tickets[ticket].user == user && db.tickets[ticket].pricePaid == price
    ensures var db' := Pay(db, user, student, price, ticket).value;
            DbOk(db', reported) && Persists(db, db') && db' == db.(ledger := db'.ledger)
  {
    if student && price > 0 {
      var n := |db.ledger.headers|;
      assert |db.ledger.entries| == 2 * n;
      PostKeepsOk(db, reported, PersonalOf(user), Revenue, price, TransportBooking, ticket);
    }
  }

  lemma {:induction false} ConfirmItemsKeepOk(db: Db, reported: set<TxnRef>, user: UserId, student: bool,
      items: seq<Item>, rows: seq<Hold>, now: Time)
    requires |items| == |rows| && DbOk(db, reported) && FreshTickets(db, items)
    requires ConfirmItems(db, user, student, items, rows, now).Ok?
    ensures var db' := ConfirmItems(db, user, student, items, rows, now).value;
            && DbOk(db', reported) && Persists(db, db')
            && db'.holds.Keys <= db.holds.Keys && (forall h :: h in db'.holds ==> db'.holds[h] == db.holds[h])
            && db'.payments == db.payments && db'.trips == db.trips
    decreases |items|
  {
    if items != [] {
      var db1 := ConfirmItem(db, user, student, items[0], rows[0], now).value;
      ConfirmItemKeepsOk(db, reported, user, student, items[0], rows[0], now);
      assert forall i :: 0 <= i < |items[1..]| ==> items[1..][i] == items[i + 1];
      ConfirmItemsKeepOk(db1, reported, user, student, items[1..], rows[1..], now);
    }
  }

  lemma ConfirmBatchKeepsOk(db: Db, reported: set<TxnRef>, user: UserId, role: Role, items: seq<Item>, now: Time)
    requires DbOk(db, reported) && FreshTickets(db, items) && ConfirmBatch(db, user, role, items, now).Ok?
    ensures var db' := ConfirmBatch(db, user, role, items, now).value;
            && DbOk(db', reported) && Persists(db, db')
            && db'.holds.Keys <= db.holds.Keys && (forall h :: h in db'.holds ==> db'.holds[h] == db.holds[h])
            && db'.payments == db.payments && db'.trips == db.trips
  {
    if items != [] {
      var db0 := Opened(db, user, role);
      OpenKeepsOk(db, reported, user);
      LockedLength(db0, user, items);
      ConfirmItemsKeepOk(db0, reported, user, role == Student, items, LockHolds(db0, user, items).value, now);
    }
  }

  /** A refund for a ticket that has left CONFIRMED and whose debit is on record. */
  lemma RefundKeepsOk(db: Db, reported: set<TxnRef>, row: TicketRead)
    requires DbOk(db, reported) && row.id in db.tickets && row == ReadOf(db, row.id)
    requires db.tickets[row.id].status != Confirmed && BookingDebitExists(db.ledger, row.id)
    requires Transfer(OpenWallet(db.ledger, row.user), Revenue, PersonalOf(row.user), row.price, Refund, row.id).Ok?
    ensures var db' := db.(ledger := Transfer(OpenWallet(db.ledger, row.user), Revenue, PersonalOf(row.user), row.price,
                                              Refund, row.id).value);
            DbOk(db', reported) && Persists(db, db')
  {
    var db1 := db.(ledger := OpenWallet(db.ledger, row.user));
    OpenKeepsOk(db, reported, row.user);
    var l' := Post(db1.ledger, Revenue, PersonalOf(row.user), row.price, Refund, row.id);
    var n := |db.ledger.headers|;
    assert |db.ledger.entries| == 2 * n && l'.headers[..n] == db.ledger.headers;
    PostKeepsOk(db1, reported, Revenue, PersonalOf(row.user), row.price, Refund, row.id);
  }

  lemma SetCancelledPersists(db: Db, ticket: TicketId)
    ensures RowsPersist(db, SetTicketCancelled(db, ticket))
    ensures SetTicketCancelled(db, ticket) == db.(tickets := SetTicketCancelled(db, ticket).tickets)
    ensures SetTicketCancelled(db, ticket).tickets.Keys == db.tickets.Keys
  {
  }

  lemma SetCancelledKeepsOk(db: Db, reported: set<TxnRef>, ticket: TicketId)
    requires DbOk(db, reported)
    ensures var db' := SetTicketCancelled(db, ticket);
            && DbOk(db', reported) && Persists(db, db')
            && (ticket in db.tickets ==>
                ReadOf(db', ticket) == ReadOf(db, ticket) && db'.tickets[ticket].status != Confirmed)
  {
    var db' := SetTicketCancelled(db, ticket);
    SetCancelledPersists(db, ticket);
    assert RowsOk(db');
    SameLedgerKeepsOk(db, db', reported, reported);
  }

  lemma IncrementKeepsOk(db: Db, reported: set<TxnRef>, trip: TripId)
    requires DbOk(db, reported)
    ensures DbOk(IncrementTripSeat(db, trip), reported) && Persists(db, IncrementTripSeat(db, trip))
  {
    SameLedgerKeepsOk(db, IncrementTripSeat(db, trip), reported, reported);
  }

  lemma RefundOnCancelKeepsOk(db: Db, reported: set<TxnRef>, read: TicketRead, role: Role)
    requires DbOk(db, reported) && read.id in db.tickets && read == ReadOf(db, read.id)
    requires db.tickets[read.id].status != Confirmed && RefundOnCancel(db.ledger, read, role).Ok?
    ensures var db' := db.(ledger := RefundOnCancel(db.ledger, read, role).value);
            DbOk(db', reported) && Persists(db, db')
  {
    if role == Student && read.price > 0 && BookingDebitExists(db.ledger, read.id) {
      RefundKeepsOk(db, reported, read);
    }
  }

  lemma CancelInParts(db: Db, read: TicketRead, role: Role)
    requires CommitCancel(db, read, role).Ok?
    ensures var r := RefundOnCancel(db.ledger, read, role);
            var db1 := SetTicketCancelled(db, read.id);
            var db' := CommitCancel(db, read, role).value;
            && r.Ok? && db1.ledger == db.ledger
            && db' == IncrementTripSeat(db1.(ledger := r.value), read.trip)
            && db'.holds == db.holds && db'.payments == db.payments && db'.trips.Keys == db.trips.Keys
  {
  }

  lemma CommitCancelKeepsOk(db: Db, reported: set<TxnRef>, read: TicketRead, role: Role)
    requires DbOk(db, reported) && read.id in db.tickets && read == ReadOf(db, read.id)
    requires CommitCancel(db, read, role).Ok?
    ensures var db' := CommitCancel(db, read, role).value;
            && DbOk(db', reported) && Persists(db, db')
            && db'.holds == db.holds && db'.payments == db.payments && db'.trips.Keys == db.trips.Keys
  {
    var db1 := SetTicketCancelled(db, read.id);
    var db2 := db1.(ledger := RefundOnCancel(db.ledger, read, role).value);
    SetCancelledKeepsOk(db, reported, read.id);
    CancelInParts(db, read, role);
    RefundOnCancelKeepsOk(db1, reported, read, role);
    IncrementKeepsOk(db2, reported, read.trip);
    PersistsTransitive(db, db1, db2);
    PersistsTransitive(db, db2, IncrementTripSeat(db2, read.trip));
  }

  lemma {:induction false} RefundAllKeepsOk(db: Db, reported: set<TxnRef>, rows: seq<TicketRead>)
    requires DbOk(db, reported)
    requires forall row :: row in rows ==>
             row.id in db.tickets && row == ReadOf(db, row.id) && db.tickets[row.id].status != Confirmed
    requires RefundAll(db.ledger, rows).Ok?
    ensures var db' := db.(ledger := RefundAll(db.ledger, rows).value);
            DbOk(db', reported) && Persists(db, db')
    decreases |rows|
  {
    if rows != [] {
      var row := rows[0];
      assert row in rows;
      var db1 := db;
      if BookingDebitExists(db.ledger, row.id) {
        RefundKeepsOk(db, reported, row);
        db1 := db.(ledger := Transfer(OpenWallet(db.ledger, row.user), Revenue, PersonalOf(row.user), row.price, Refund,
                                      row.id).value);
      }
      RefundAllKeepsOk(db1, reported, rows[1..]);
    }
  }

  lemma CommitTripCancelKeepsOk(db: Db, reported: set<TxnRef>, trip: TripId, rows: seq<TicketRead>)
    requires DbOk(db, reported)
    requires forall row :: row in rows ==> row.id in db.tickets && row == ReadOf(db, row.id) && row.trip == trip
    requires CommitTripCancel(db, trip, rows).Ok?
    ensures var db' := CommitTripCancel(db, trip, rows).value;
            && DbOk(db', reported) && Persists(db, db')
            && db'.holds == db.holds && db'.payments == db.payments && db'.trips.Keys == db.trips.Keys
  {
    var db1 := db.(tickets := CancelTicketsOf(db.tickets, trip), trips := MarkTrip(db.trips, trip, MarkedCancelled));
    SameLedgerKeepsOk(db, db1, reported, reported);
    RefundAllKeepsOk(db1, reported, rows);
  }

  lemma CreditKeepsOk(db: Db, reported: set<TxnRef>, ref: TxnRef)
    requires DbOk(db, reported) && ref in db.payments && ref in reported
    requires CreditLedger(db.ledger, CreditOf(db, ref)).Ok?
    ensures var db' := db.(ledger := CreditLedger(db.ledger, CreditOf(db, ref)).value);
            DbOk(db', reported) && Persists(db, db')
  {
    var c := CreditOf(db, ref);
    var db1 := db.(ledger := OpenWallet(db.ledger, c.user));
    OpenKeepsOk(db, reported, c.user);
    var n := |db.ledger.headers|;
    assert |db.ledger.entries| == 2 * n;
    PostKeepsOk(db1, reported, Liability, PersonalOf(c.user), c.amount, JazzcashDeposit, ref);
  }

  /** Status and polling flag of a payment mean nothing to the ledger. */
  lemma PaymentsKeepOk(db: Db, db': Db, reported: set<TxnRef>, reported': set<TxnRef>)
    requires DbOk(db, reported) && reported <= reported'
    requires db' == db.(payments := db'.payments) && db'.payments.Keys == db.payments.Keys
    requires forall r :: r in db.payments ==> CreditOf(db', r) == CreditOf(db, r)
    ensures DbOk(db', reported') && Persists(db, db')
  {
    forall r | r in db'.payments
      ensures db'.payments[r].amount == db.payments[r].amount && db'.payments[r].user == db.payments[r].user
    {
      assert CreditOf(db', r) == CreditOf(db, r);
    }
    SameLedgerKeepsOk(db, db', reported, reported');
  }

  lemma RecordKeepsOk(db: Db, reported: set<TxnRef>, ref: TxnRef, status: PaymentStatus, reported': set<TxnRef>)
    requires DbOk(db, reported) && reported <= reported'
    ensures DbOk(SetStatus(db, ref, status), reported') && Persists(db, SetStatus(db, ref, status))
    ensures var db' := ClearPolling(SetStatus(db, ref, status), ref);
            DbOk(db', reported') && Persists(db, db')
  {
    PaymentsKeepOk(db, SetStatus(db, ref, status), reported, reported');
    PaymentsKeepOk(db, ClearPolling(SetStatus(db, ref, status), ref), reported, reported');
  }

  // ----- the steps that do not post

  ghost predicate OnlySeats(before: map<TripId, Trip>, after: map<TripId, Trip>) {
    after.Keys == before.Keys && forall t :: t in before ==> after[t] == before[t].(available := after[t].available)
  }

  /** The rows a successful loop over the seats writes. */
  ghost predicate SeatsTaken(db: Db, db': Db, hold: Hold, ids: seq<HoldId>) {
    && db' == db.(trips := db'.trips, holds := db'.holds)
    && OnlySeats(db.trips, db'.trips)
    && (forall h :: h in db'.holds <==> h in db.holds || h in ids)
    && (forall h :: h in db.holds ==> db'.holds[h] == db.holds[h])
    && (forall h :: h in ids ==> db'.holds[h] == hold)
  }

  lemma {:induction false} TakeSeatsRows(db: Db, hold: Hold, ids: seq<HoldId>)
    requires TakeSeats(db, hold, ids).Ok?
    requires forall i :: 0 <= i < |ids| ==> ids[i] !in db.holds
    requires forall i, j :: 0 <= i < j < |ids| ==> ids[i] != ids[j]
    ensures SeatsTaken(db, TakeSeats(db, hold, ids).value, hold, ids)
    decreases |ids|
  {
    if ids != [] {
      var trip := db.trips[hold.trip];
      var db1 := db.(
        trips := db.trips[hold.trip := trip.(available := trip.available - 1)],
        holds := db.holds[ids[0] := hold]);
      var rest := ids[1..];
      assert forall i :: 0 <= i < |rest| ==> rest[i] == ids[i + 1];
      TakeSeatsRows(db1, hold, rest);
      SeatsTakenFirst(db, db1, TakeSeats(db1, hold, rest).value, hold, ids);
    }
  }

  lemma SeatsTakenFirst(db: Db, db1: Db, db': Db, hold: Hold, ids: seq<HoldId>)
    requires ids != [] && hold.trip in db.trips && ids[0] !in db.holds
    requires db1 ==
             db.(trips := db.trips[hold.trip := db.trips[hold.trip].(available := db.trips[hold.trip].available - 1)],
                        holds := db.holds[ids[0] := hold])
    requires SeatsTaken(db1, db', hold, ids[1..])
    ensures SeatsTaken(db, db', hold, ids)
  {
    assert ids == [ids[0]] + ids[1..];
  }

  lemma {:induction false} ReturnSeatsOnly(t: Trip, k: nat)
    ensures ReturnSeats(t, k) == t.(available := ReturnSeats(t, k).available)
  {
    if k > 0 {
      ReturnSeatsOnly(t, k - 1);
    }
  }

  lemma ReleaseKeepsOk(db: Db, reported: set<TxnRef>, user: UserId, now: Time)
    requires DbOk(db, reported)
    ensures DbOk(ReleaseAllHolds(db, user, now), reported) && Persists(db, ReleaseAllHolds(db, user, now))
  {
    var db' := ReleaseAllHolds(db, user, now);
    forall t | t in db.trips
      ensures db'.trips[t].price == db.trips[t].price
    {
      ReturnSeatsOnly(db.trips[t], |HoldsAmong(db, ActiveHolds(db, user, now), t)|);
    }
    SameLedgerKeepsOk(db, db', reported, reported);
  }
}
