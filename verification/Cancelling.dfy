/** Who may cancel what, and what a cancellation leaves, said of the rows alone
    (backend/internal/transport/service.go, sql/queries.sql). */
module Cancelling {
  import opened Outcomes
  import opened Ledgers
  import opened Tables
  import opened Bookings
  import opened Holding
  import opened System
  import opened Invariants
  import opened Reachable

  // ----- one ticket

  /** The ticket is valid and its trip still takes bookings by the clock. */
  predicate Cancellable(db: Db, ticket: TicketId, now: Time) {
    && ticket in db.tickets && db.tickets[ticket].trip in db.trips && db.tickets[ticket].status == Confirmed
    && (var trip := db.trips[db.tickets[ticket].trip]; now < trip.departure - 60 * trip.closeOffset)
  }

  /** A student gets back what the ledger says was paid. */
  predicate RefundDue(db: Db, ticket: TicketId, role: Role) {
    ticket in db.tickets && role == Student && db.tickets[ticket].pricePaid > 0
    && Header(TransportBooking, ticket) in db.ledger.headers
  }

  /** Balances move from the revenue to one user, and no others. */
  ghost predicate PaidTo(before: Ledger, after: Ledger, user: UserId, amount: int) {
    forall w :: Balance(after, w) ==
                Balance(before, w) + (if w == PersonalOf(user) then amount else if w == Revenue then -amount else 0)
  }

  lemma RefundAnswers(l: Ledger, read: TicketRead, role: Role)
    requires LedgerOk(l)
    ensures var due := role == Student && read.price > 0 && Header(TransportBooking, read.id) in l.headers;
            var r := RefundOnCancel(l, read, role);
            && (r.Ok? <==> !due || Header(Refund, read.id) !in l.headers)
            && (r.Err? ==> r.error == RefundFailed)
            && (r.Ok? ==>
                  && LedgerOk(r.value)
                  && r.value.headers == l.headers + (if due then [Header(Refund, read.id)] else [])
                  && PaidTo(l, r.value, read.user, if due then read.price else 0))
  {
    var l0, mine := OpenWallet(l, read.user), PersonalOf(read.user);
    OpenWalletKeepsOk(l, read.user);
    if role == Student && read.price > 0 && Header(TransportBooking, read.id) in l.headers
       && Header(Refund, read.id) !in l.headers {
      TransferKeepsOk(l0, Revenue, mine, read.price, Refund, read.id);
      forall w
        ensures Balance(Post(l0, Revenue, mine, read.price, Refund, read.id), w) ==
                Balance(l, w) + (if w == mine then read.price else if w == Revenue then -read.price else 0)
      {
        PostBalances(l0, Revenue, mine, read.price, Refund, read.id, w);
      }
    }
  }

  /** Only the owner of a valid ticket may cancel it, only before the booking closes, and
      only if a refund that is due has not been paid. */
  lemma CancelTicketIff(db: Db, requester: UserId, ticket: TicketId, role: Role, now: Time)
    requires LedgerOk(db.ledger)
    ensures CancelTicket(db, requester, ticket, role, now).Ok? <==>
            && Cancellable(db, ticket, now)
            && db.tickets[ticket].user == requester
            && (RefundDue(db, ticket, role) ==> Header(Refund, ticket) !in db.ledger.headers)
    ensures CancelTicket(db, requester, ticket, role, now).Err? ==>
              CancelTicket(db, requester, ticket, role, now).error ==
              if !Cancellable(db, ticket, now) then CancellationClosed
              else if db.tickets[ticket].user != requester then Unauthorized
              else RefundFailed
  {
    if Cancellable(db, ticket, now) {
      RefundAnswers(db.ledger, ReadOf(db, ticket), role);
    }
  }

  /** And then the ticket is cancelled, its seat is free again unless all are, the refund
      that is due goes to the owner, and nothing else changes. */
  lemma CancelTicketRows(db: Db, requester: UserId, ticket: TicketId, role: Role, now: Time)
    requires LedgerOk(db.ledger) && CancelTicket(db, requester, ticket, role, now).Ok?
    ensures Cancellable(db, ticket, now)
    ensures var db' := CancelTicket(db, requester, ticket, role, now).value;
            var row := db.tickets[ticket];
            var trip, due := db.trips[row.trip], RefundDue(db, ticket, role);
            && db' == db.(ledger := db'.ledger, tickets := db'.tickets, trips := db'.trips)
            && db'.tickets == db.tickets[ticket := row.(status := Cancelled)]
            && db'.trips == db.trips[row.trip := trip.(available := db'.trips[row.trip].available)]
            && db'.trips[row.trip].available ==
               (if trip.available < trip.capacity then trip.available + 1 else trip.available)
            && LedgerOk(db'.ledger)
            && db'.ledger.headers == db.ledger.headers + (if due then [Header(Refund, ticket)] else [])
            && PaidTo(db.ledger, db'.ledger, row.user, if due then row.pricePaid else 0)
  {
    CancelTicketIff(db, requester, ticket, role, now);
    RefundAnswers(db.ledger, ReadOf(db, ticket), role);
  }

  /** In every reachable world the refund of a valid ticket goes through. */
  lemma OwnerCanCancelIff(ws: seq<World>, steps: seq<Step>, i: nat, requester: UserId, ticket: TicketId, role: Role)
    requires Run(ws, steps) && i <= |steps|
    ensures CancelTicket(ws[i].db, requester, ticket, role, ws[i].now).Ok? <==>
            Cancellable(ws[i].db, ticket, ws[i].now) && ws[i].db.tickets[ticket].user == requester
  {
    var w := ws[i];
    RunKeepsInv(ws, steps, i);
    CancelTicketIff(w.db, requester, ticket, role, w.now);
    if Cancellable(w.db, ticket, w.now) && Header(Refund, ticket) in w.db.ledger.headers {
      BilledTicketExists(w.db, w.reported, Refund, ticket);
    }
  }

  // ----- a whole trip

  /** The trip is marked cancelled, its valid tickets are cancelled by the administrator,
      and no other trip, ticket, hold or payment changes. */
  lemma CancelTripRows(db: Db, trip: TripId, rows: seq<TicketRead>)
    requires CommitTripCancel(db, trip, rows).Ok?
    ensures var db' := CommitTripCancel(db, trip, rows).value;
            && db' == db.(ledger := db'.ledger, tickets := db'.tickets, trips := db'.trips)
            && db'.trips.Keys == db.trips.Keys && db'.tickets.Keys == db.tickets.Keys
            && (forall t :: t in db.trips ==>
                  db'.trips[t] == if t == trip then db.trips[t].(manual := MarkedCancelled) else db.trips[t])
            && (forall t :: t in db.tickets ==>
                  db'.tickets[t] == if db.tickets[t].trip == trip && db.tickets[t].status == Confirmed
                                    then db.tickets[t].(status := CancelledByAdmin) else db.tickets[t])
            && ConfirmedTickets(db', trip) == {}
  {
  }

  /** Whoever asks afterwards is refused, unless an administrator asks. */
  lemma CancelledTripRefuses(db: Db, trip: TripId, rows: seq<TicketRead>,
      user: UserId, role: Role, ask: HoldRequest, now: Time, ids: seq<HoldId>)
    requires CommitTripCancel(db, trip, rows).Ok? && ask.trip == trip && !Administrates(role)
    ensures HoldSeats(CommitTripCancel(db, trip, rows).value, user, role, ask, now, ids).Err?
  {
    HoldSeatsAnswers(CommitTripCancel(db, trip, rows).value, user, role, ask, now, ids);
  }

  /** What a list of tickets is owed by the ledger, for one wallet. */
  function Owed(l: Ledger, rows: seq<TicketRead>, w: WalletId): int {
    if rows == [] then 0
    else
      Owed(l, rows[1..], w) +
      if Header(TransportBooking, rows[0].id) !in l.headers then 0
      else if w == PersonalOf(rows[0].user) then rows[0].price
      else if w == Revenue then -rows[0].price
      else 0
  }

  /** Each listed ticket that was paid for can still be refunded, and is listed once. */
  ghost predicate RefundableOnce(l: Ledger, rows: seq<TicketRead>) {
    && (forall i :: 0 <= i < |rows| && Header(TransportBooking, rows[i].id) in l.headers ==>
          rows[i].price > 0 && Header(Refund, rows[i].id) !in l.headers)
    && (forall i, j :: 0 <= i < j < |rows| && rows[i].id == rows[j].id ==>
          Header(TransportBooking, rows[i].id) !in l.headers)
  }

  lemma RefundFirst(l: Ledger, row: TicketRead)
    requires LedgerOk(l) && Header(TransportBooking, row.id) in l.headers
    ensures var r := Transfer(OpenWallet(l, row.user), Revenue, PersonalOf(row.user), row.price, Refund, row.id);
            && (r.Ok? <==> row.price > 0 && Header(Refund, row.id) !in l.headers)
            && (r.Ok? ==>
                  LedgerOk(r.value) && r.value.headers == l.headers + [Header(Refund, row.id)]
                  && PaidTo(l, r.value, row.user, row.price))
  {
    RefundAnswers(l, row, Student);
    OpenWalletKeepsOk(l, row.user);
  }

  lemma RefundableRest(l: Ledger, l1: Ledger, rows: seq<TicketRead>)
    requires rows != [] && l1.headers == l.headers + [Header(Refund, rows[0].id)]
    requires Header(TransportBooking, rows[0].id) in l.headers
    requires rows[0].price > 0 && Header(Refund, rows[0].id) !in l.headers
    ensures RefundableOnce(l, rows) <==> RefundableOnce(l1, rows[1..])
  {
    var rest := rows[1..];
    assert forall i :: 0 <= i < |rest| ==> rest[i] == rows[i + 1];
    assert forall i :: 0 < i < |rows| ==> rows[i] == rest[i - 1];
    assert forall h: Header :: h in l1.headers <==> h in l.headers || h == Header(Refund, rows[0].id);
  }

  lemma {:induction false} OwedSame(l: Ledger, l1: Ledger, rows: seq<TicketRead>, w: WalletId)
    requires forall t :: Header(TransportBooking, t) in l1.headers <==> Header(TransportBooking, t) in l.headers
    ensures Owed(l1, rows, w) == Owed(l, rows, w)
  {
    if rows != [] {
      OwedSame(l, l1, rows[1..], w);
    }
  }

  /** The refunds of a cancelled trip go through exactly when no listed ticket that was
      paid for has been refunded or is listed twice; then each owner gets exactly the
      prices paid and the revenue gives exactly their sum. */
  lemma {:induction false} RefundAllPays(l: Ledger, rows: seq<TicketRead>)
    requires LedgerOk(l)
    ensures RefundAll(l, rows).Ok? <==> RefundableOnce(l, rows)
    ensures RefundAll(l, rows).Ok? ==>
              var l' := RefundAll(l, rows).value;
              LedgerOk(l') && forall w :: Balance(l', w) == Balance(l, w) + Owed(l, rows, w)
    decreases |rows|
  {
    if rows == [] {
      return;
    }
    var row, rest := rows[0], rows[1..];
    if Header(TransportBooking, row.id) !in l.headers {
      RefundAllPays(l, rest);
      SkippedFirst(l, rows);
    } else {
      RefundFirst(l, row);
      var r := Transfer(OpenWallet(l, row.user), Revenue, PersonalOf(row.user), row.price, Refund, row.id);
      if r.Ok? {
        RefundAllPays(r.value, rest);
        RefundableRest(l, r.value, rows);
        forall w
          ensures Owed(r.value, rest, w) == Owed(l, rest, w)
        {
          OwedSame(l, r.value, rest, w);
        }
      }
    }
  }

  lemma SkippedFirst(l: Ledger, rows: seq<TicketRead>)
    requires rows != [] && Header(TransportBooking, rows[0].id) !in l.headers
    ensures RefundableOnce(l, rows) <==> RefundableOnce(l, rows[1..])
  {
    var rest := rows[1..];
    assert forall i :: 0 <= i < |rest| ==> rest[i] == rows[i + 1];
    assert forall i :: 0 < i < |rows| ==> rows[i] == rest[i - 1];
  }
}
