/** When the revenue is exactly the prices of the valid paid tickets. */
module LiveFares {
  import opened Sums
  import opened Ledgers
  import opened Tables
  import opened Bookings
  import opened Topups
  import opened System
  import opened Invariants
  import opened Reachable

  /** Every ticket that was paid for and is no longer valid has been refunded. */
  ghost predicate AllRefunded(db: Db) {
    forall t :: t in db.tickets && BookingDebitExists(db.ledger, t) && db.tickets[t].status != Confirmed ==>
      Header(Refund, t) in db.ledger.headers
  }

  ghost function LiveFares(db: Db): map<TicketId, int> {
    map t | t in db.tickets && db.tickets[t].status == Confirmed && BookingDebitExists(db.ledger, t)
          :: db.tickets[t].pricePaid
  }

  /** What was paid for tickets that are no longer valid and has not been paid back. */
  ghost function OwedFares(db: Db): map<TicketId, int> {
    map t | t in db.tickets && db.tickets[t].status != Confirmed && BookingDebitExists(db.ledger, t)
            && Header(Refund, t) !in db.ledger.headers
          :: db.tickets[t].pricePaid
  }

  /** The steps that could drop a refund, and when they do not: a paid ticket is
      cancelled under the role it was paid under, and a trip is cancelled with a list
      that still names every paid ticket. */
  ghost predicate RefundSafe(w: World, s: Step) {
    match s
    case Cancel(read, role) =>
      CommitCancel(w.db, read, role).Ok? && read.id in w.db.tickets && w.db.tickets[read.id].status == Confirmed
      && BookingDebitExists(w.db.ledger, read.id) ==>
        role == Student
    case CancelTrip(trip, rows) =>
      CommitTripCancel(w.db, trip, rows).Ok? ==>
        forall t :: t in w.db.tickets && w.db.tickets[t].trip == trip && w.db.tickets[t].status == Confirmed
                    && BookingDebitExists(w.db.ledger, t) ==>
          exists row :: row in rows && row.id == t
    case _ => true
  }

  // ----- which headers a step adds

  lemma RefundOnCancelHeaders(l: Ledger, read: TicketRead, role: Role)
    requires RefundOnCancel(l, read, role).Ok?
    ensures forall h :: h in RefundOnCancel(l, read, role).value.headers <==>
              h in l.headers
                || (h == Header(Refund, read.id) && role == Student && read.price > 0 && BookingDebitExists(l, read.id))
  {
  }

  lemma {:induction false} RefundAllHeaders(l: Ledger, rows: seq<TicketRead>)
    requires RefundAll(l, rows).Ok?
    ensures forall h :: h in RefundAll(l, rows).value.headers <==>
              h in l.headers
                || (exists row :: row in rows && h == Header(Refund, row.id) && BookingDebitExists(l, row.id))
    decreases |rows|
  {
    if rows != [] {
      var l1 := if BookingDebitExists(l, rows[0].id)
        then Transfer(OpenWallet(l, rows[0].user), Revenue, PersonalOf(rows[0].user), rows[0].price, Refund,
                      rows[0].id).value
        else l;
      RefundAllHeaders(l1, rows[1..]);
      assert forall h :: h in l1.headers <==>
             h in l.headers || (h == Header(Refund, rows[0].id) && BookingDebitExists(l, rows[0].id));
      assert rows == [rows[0]] + rows[1..];
    }
  }

  lemma {:induction false} ConfirmItemsHeaders(db: Db, user: UserId, student: bool, items: seq<Item>, rows: seq<Hold>,
      now: Time)
    requires |items| == |rows| && ConfirmItems(db, user, student, items, rows, now).Ok?
    ensures var db' := ConfirmItems(db, user, student, items, rows, now).value;
            && (forall h :: h in db'.ledger.headers ==>
                  h in db.ledger.headers
                    || (exists i :: 0 <= i < |items| && h == Header(TransportBooking, items[i].ticket)))
            && (forall t :: t in db'.tickets ==>
                  (t in db.tickets && db'.tickets[t] == db.tickets[t]) || db'.tickets[t].status == Confirmed)
    decreases |items|
  {
    if items != [] {
      var db1 := ConfirmItem(db, user, student, items[0], rows[0], now).value;
      var db' := ConfirmItems(db, user, student, items, rows, now).value;
      ConfirmItemsHeaders(db1, user, student, items[1..], rows[1..], now);
      forall h | h in db'.ledger.headers && h !in db.ledger.headers
        ensures exists i :: 0 <= i < |items| && h == Header(TransportBooking, items[i].ticket)
      {
        if h in db1.ledger.headers {
          assert h == Header(TransportBooking, items[0].ticket);
        } else {
          var i :| 0 <= i < |items[1..]| && h == Header(TransportBooking, items[1..][i].ticket);
          assert items[i + 1] == items[1..][i];
        }
      }
    }
  }

  // ----- one step

  lemma ConfirmKeepsRefunded(w: World, user: UserId, role: Role, items: seq<Item>)
    requires Inv(w) && AllRefunded(w.db) && Enabled(w, Confirm(user, role, items))
    ensures AllRefunded(Next(w, Confirm(user, role, items)).db)
  {
    if items != [] && ConfirmBatch(w.db, user, role, items, w.now).Ok? {
      var db0, db' := Opened(w.db, user, role), ConfirmBatch(w.db, user, role, items, w.now).value;
      LockedLength(db0, user, items);
      ConfirmItemsHeaders(db0, user, role == Student, items, LockHolds(db0, user, items).value, w.now);
      ConfirmBatchKeepsOk(w.db, w.reported, user, role, items, w.now);
      forall t | t in db'.tickets && BookingDebitExists(db'.ledger, t) && db'.tickets[t].status != Confirmed
        ensures Header(Refund, t) in db'.ledger.headers
      {
        assert t in w.db.tickets && db'.tickets[t] == w.db.tickets[t];
        assert BookingDebitExists(w.db.ledger, t);
        assert Header(Refund, t) in w.db.ledger.headers;
      }
    }
  }

  /** A booking on record was for a positive price. */
  lemma BookedPrice(w: World, t: TicketId)
    requires Inv(w) && BookingDebitExists(w.db.ledger, t)
    ensures t in w.db.tickets && w.db.tickets[t].pricePaid > 0
  {
    var i :| 0 <= i < |w.db.ledger.headers| && w.db.ledger.headers[i] == Header(TransportBooking, t);
    assert HeaderLinked(w.db, w.reported, i) && PairAt(w.db.ledger.entries, i);
  }

  lemma ConfirmedNotRefunded(w: World, t: TicketId)
    requires Inv(w) && t in w.db.tickets && w.db.tickets[t].status == Confirmed
    ensures Header(Refund, t) !in w.db.ledger.headers
  {
    if Header(Refund, t) in w.db.ledger.headers {
      BilledTicketExists(w.db, w.reported, Refund, t);
    }
  }

  lemma CancelEffect(db: Db, read: TicketRead, role: Role)
    requires CommitCancel(db, read, role).Ok?
    ensures var db' := CommitCancel(db, read, role).value;
            && db'.tickets.Keys == db.tickets.Keys
            && (forall t :: t in db.tickets && t != read.id ==> db'.tickets[t] == db.tickets[t])
            && (read.id in db.tickets ==>
                  db'.tickets[read.id].status ==
                    (if db.tickets[read.id].status == Confirmed then Cancelled else db.tickets[read.id].status))
            && (forall h :: h in db'.ledger.headers <==>
                  h in db.ledger.headers
                    || (h == Header(Refund, read.id) && role == Student && read.price > 0
                        && BookingDebitExists(db.ledger, read.id)))
  {
    RefundOnCancelHeaders(db.ledger, read, role);
  }

  lemma CancelRefundedIff(w: World, read: TicketRead, role: Role)
    requires Inv(w) && AllRefunded(w.db) && Enabled(w, Cancel(read, role))
    ensures AllRefunded(Next(w, Cancel(read, role)).db) <==> RefundSafe(w, Cancel(read, role))
  {
    if CommitCancel(w.db, read, role).Ok? {
      var db' := CommitCancel(w.db, read, role).value;
      CancelEffect(w.db, read, role);
      if BookingDebitExists(w.db.ledger, read.id) {
        BookedPrice(w, read.id);
        if w.db.tickets[read.id].status == Confirmed {
          ConfirmedNotRefunded(w, read.id);
          assert BookingDebitExists(db'.ledger, read.id) && db'.tickets[read.id].status != Confirmed;
        }
      }
      if RefundSafe(w, Cancel(read, role)) {
        forall t | t in db'.tickets && BookingDebitExists(db'.ledger, t) && db'.tickets[t].status != Confirmed
          ensures Header(Refund, t) in db'.ledger.headers
        {
          assert BookingDebitExists(w.db.ledger, t);
        }
      }
    }
  }

  lemma CancelTripRefundedIff(w: World, trip: TripId, rows: seq<TicketRead>)
    requires Inv(w) && AllRefunded(w.db) && Enabled(w, CancelTrip(trip, rows))
    ensures AllRefunded(Next(w, CancelTrip(trip, rows)).db) <==> RefundSafe(w, CancelTrip(trip, rows))
  {
    if CommitTripCancel(w.db, trip, rows).Ok? {
      var db' := CommitTripCancel(w.db, trip, rows).value;
      RefundAllHeaders(w.db.ledger, rows);
      forall t | t in w.db.tickets && BookingDebitExists(w.db.ledger, t)
        ensures BookingDebitExists(db'.ledger, t)
        ensures w.db.tickets[t].status == Confirmed ==>
                  (Header(Refund, t) in db'.ledger.headers <==> exists row :: row in rows && row.id == t)
      {
        if w.db.tickets[t].status == Confirmed {
          ConfirmedNotRefunded(w, t);
        }
      }
      if AllRefunded(db') {
        forall t | t in w.db.tickets && w.db.tickets[t].trip == trip && w.db.tickets[t].status == Confirmed
                   && BookingDebitExists(w.db.ledger, t)
          ensures exists row :: row in rows && row.id == t
        {
          assert db'.tickets[t].status == CancelledByAdmin;
          assert Header(Refund, t) in db'.ledger.headers;
        }
      }
      if RefundSafe(w, CancelTrip(trip, rows)) {
        forall t | t in db'.tickets && BookingDebitExists(db'.ledger, t) && db'.tickets[t].status != Confirmed
          ensures Header(Refund, t) in db'.ledger.headers
        {
          assert BookingDebitExists(w.db.ledger, t);
          if w.db.tickets[t].status != Confirmed {
            assert Header(Refund, t) in w.db.ledger.headers;
          }
        }
      }
    }
  }

  /** Tickets and the headers about them are as before. */
  ghost predicate OnlyDeposits(db: Db, db': Db) {
    && db'.tickets == db.tickets && db.ledger.headers <= db'.ledger.headers
    && (forall h :: h in db'.ledger.headers ==> h in db.ledger.headers || h.kind == JazzcashDeposit)
  }

  lemma DepositsKeepRefunded(db: Db, db': Db)
    requires AllRefunded(db) && OnlyDeposits(db, db')
    ensures AllRefunded(db')
  {
    forall t | t in db'.tickets && BookingDebitExists(db'.ledger, t) && db'.tickets[t].status != Confirmed
      ensures Header(Refund, t) in db'.ledger.headers
    {
      assert BookingDebitExists(db.ledger, t);
      assert Header(Refund, t) in db.ledger.headers;
    }
  }

  lemma CreditOnly(db: Db, c: Credit)
    ensures OnlyDeposits(db, CreditWallet(db, c, true).0)
  {
  }

  lemma CardOnly(db: Db, ref: TxnRef, status: PaymentStatus)
    ensures OnlyDeposits(db, CompleteCardPayment(db, ref, status, true).0)
  {
  }

  lemma StatusOnly(db: Db, ref: TxnRef, status: PaymentStatus)
    ensures OnlyDeposits(db, Keep(db, RecordOutcome(db, ref, status)))
    ensures OnlyDeposits(db, HandlePollingTimeout(db, ref))
  {
  }

  lemma TakeHoldsOnly(w: World, user: UserId, role: Role, ask: HoldRequest, ids: seq<HoldId>)
    requires Inv(w) && Enabled(w, TakeHolds(user, role, ask, ids))
    ensures OnlyDeposits(w.db, Next(w, TakeHolds(user, role, ask, ids)).db)
  {
    if HoldSeats(w.db, user, role, ask, w.now, ids).Ok? {
      TakeSeatsRows(w.db, Hold(ask.trip, user, ask.pickup, ask.dropoff, w.now + HoldSeconds(role)), ids);
    }
  }

  lemma OtherStepsOnlyDeposit(w: World, s: Step)
    requires Inv(w) && Enabled(w, s) && !s.Confirm? && !s.Cancel? && !s.CancelTrip?
    ensures OnlyDeposits(w.db, Next(w, s).db)
  {
    match s
    case TakeHolds(user, role, ask, ids) => TakeHoldsOnly(w, user, role, ask, ids);
    case CreditUser(c) => CreditOnly(w.db, c);
    case CardResult(ref, status) => CardOnly(w.db, ref, status);
    case Record(ref, status) => StatusOnly(w.db, ref, status);
    case PollTimeout(ref) => StatusOnly(w.db, ref, Failed);
    case _ => TripStepsOnly(w, s);
  }

  lemma TripStepsOnly(w: World, s: Step)
    requires s.Tick? || s.AddTrip? || s.ChangeTrip? || s.MarkManual? || s.Release? || s.ListExpired? || s.Reap?
             || s.ReadTicket? || s.ReadTrip? || s.NewPayment?
    ensures Next(w, s).db.tickets == w.db.tickets && Next(w, s).db.ledger == w.db.ledger
  {
  }

  /** Starting from complete refunds, a step leaves them complete exactly when it
      is safe. */
  lemma RefundsStepIff(w: World, s: Step)
    requires Inv(w) && Enabled(w, s) && AllRefunded(w.db)
    ensures AllRefunded(Next(w, s).db) <==> RefundSafe(w, s)
  {
    match s
    case Confirm(user, role, items) => ConfirmKeepsRefunded(w, user, role, items);
    case Cancel(read, role) => CancelRefundedIff(w, read, role);
    case CancelTrip(trip, rows) => CancelTripRefundedIff(w, trip, rows);
    case _ =>
      OtherStepsOnlyDeposit(w, s);
      DepositsKeepRefunded(w.db, Next(w, s).db);
  }

  // ----- whole runs

  lemma {:induction false} SafeRunRefunds(ws: seq<World>, steps: seq<Step>, i: nat)
    requires Run(ws, steps) && i <= |steps|
    requires forall j :: 0 <= j < i ==> RefundSafe(ws[j], steps[j])
    ensures AllRefunded(ws[i].db)
  {
    if i > 0 {
      SafeRunRefunds(ws, steps, i - 1);
      RunKeepsInv(ws, steps, i - 1);
      RefundsStepIff(ws[i - 1], steps[i - 1]);
    }
  }

  /** No paid ticket ever loses its validity without its refund exactly when every
      cancellation of the run is safe. */
  lemma RefundsCompleteIff(ws: seq<World>, steps: seq<Step>)
    requires Run(ws, steps)
    ensures (forall i :: 0 <= i < |ws| ==> AllRefunded(ws[i].db)) <==>
            (forall j :: 0 <= j < |steps| ==> RefundSafe(ws[j], steps[j]))
  {
    if forall j :: 0 <= j < |steps| ==> RefundSafe(ws[j], steps[j]) {
      forall i | 0 <= i < |ws|
        ensures AllRefunded(ws[i].db)
      {
        SafeRunRefunds(ws, steps, i);
      }
    }
    if forall i :: 0 <= i < |ws| ==> AllRefunded(ws[i].db) {
      forall j | 0 <= j < |steps|
        ensures RefundSafe(ws[j], steps[j])
      {
        RunKeepsInv(ws, steps, j);
        assert AllRefunded(ws[j].db) && AllRefunded(ws[j + 1].db);
        RefundsStepIff(ws[j], steps[j]);
      }
    }
  }

  // ----- the revenue

  lemma FaresLiveOrOwed(w: World)
    requires Inv(w)
    ensures SumMap(Fares(w.db)) == SumMap(LiveFares(w.db)) + SumMap(OwedFares(w.db))
  {
    forall t: TicketId
      ensures SplitAt(Fares(w.db), LiveFares(w.db), OwedFares(w.db), t)
    {
      FareLiveOrOwed(w, t);
    }
    SumMapSplit(Fares(w.db), LiveFares(w.db), OwedFares(w.db));
  }

  lemma FareLiveOrOwed(w: World, t: TicketId)
    requires Inv(w)
    ensures SplitAt(Fares(w.db), LiveFares(w.db), OwedFares(w.db), t)
  {
    var hs := w.db.ledger.headers;
    assert hs[..|hs|] == hs;
    if t in w.db.tickets && w.db.tickets[t].status == Confirmed {
      ConfirmedNotRefunded(w, t);
    }
  }

  lemma NothingOwedIff(w: World)
    requires Inv(w)
    ensures SumMap(OwedFares(w.db)) >= 0
    ensures SumMap(OwedFares(w.db)) == 0 <==> AllRefunded(w.db)
  {
    forall t | t in OwedFares(w.db)
      ensures OwedFares(w.db)[t] > 0
    {
      BookedPrice(w, t);
    }
    PositiveSum(OwedFares(w.db));
    if OwedFares(w.db) == map[] {
      forall t | t in w.db.tickets && BookingDebitExists(w.db.ledger, t) && w.db.tickets[t].status != Confirmed
        ensures Header(Refund, t) in w.db.ledger.headers
      {
        assert t !in OwedFares(w.db);
      }
    } else {
      var t :| t in OwedFares(w.db);
    }
  }

  /** In every reachable world the revenue is the prices of the valid paid tickets and
      what invalid ones are still owed, which is never less than nothing; so it is the
      former alone exactly when every paid ticket that lost its validity was refunded. */
  lemma RevenueLiveIff(ws: seq<World>, steps: seq<Step>, i: nat)
    requires Run(ws, steps) && i <= |steps|
    ensures var db := ws[i].db;
            && Balance(db.ledger, Revenue) == SumMap(LiveFares(db)) + SumMap(OwedFares(db))
            && Balance(db.ledger, Revenue) >= SumMap(LiveFares(db))
            && (Balance(db.ledger, Revenue) == SumMap(LiveFares(db)) <==> AllRefunded(db))
  {
    RunKeepsInv(ws, steps, i);
    MoneyIdentity(ws, steps, i);
    FaresLiveOrOwed(ws[i]);
    NothingOwedIff(ws[i]);
  }

  /** In a run the revenue is the prices of the valid paid tickets in every world
      exactly when every cancellation is safe. */
  lemma RevenueAlwaysLiveIff(ws: seq<World>, steps: seq<Step>)
    requires Run(ws, steps)
    ensures (forall i :: 0 <= i < |ws| ==> Balance(ws[i].db.ledger, Revenue) == SumMap(LiveFares(ws[i].db))) <==>
            (forall j :: 0 <= j < |steps| ==> RefundSafe(ws[j], steps[j]))
  {
    forall i | 0 <= i < |ws|
      ensures Balance(ws[i].db.ledger, Revenue) == SumMap(LiveFares(ws[i].db)) <==> AllRefunded(ws[i].db)
    {
      RevenueLiveIff(ws, steps, i);
    }
    RefundsCompleteIff(ws, steps);
  }

  /** So in a run of safe cancellations the users hold the credited top-ups less the
      prices of the valid paid tickets. */
  lemma LiveMoneyIdentity(ws: seq<World>, steps: seq<Step>, i: nat)
    requires Run(ws, steps) && i <= |steps|
    requires forall j :: 0 <= j < i ==> RefundSafe(ws[j], steps[j])
    ensures var db := ws[i].db;
            && Balance(db.ledger, Revenue) == SumMap(LiveFares(db))
            && Balance(db.ledger, Liability) == -SumMap(Deposits(db))
            && SumMap(PersonalBalances(db.ledger)) == SumMap(Deposits(db)) - SumMap(LiveFares(db))
  {
    SafeRunRefunds(ws, steps, i);
    RevenueLiveIff(ws, steps, i);
    MoneyIdentity(ws, steps, i);
  }
}
