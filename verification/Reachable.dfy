/** Every step keeps the invariants, so every run does; and what they say about
    money, refunds and deposits in every reachable world. */
module Reachable {
  import opened Sums
  import opened Ledgers
  import opened Tables
  import opened Bookings
  import opened Topups
  import opened System
  import opened Invariants

  // ----- one step

  ghost predicate HoldsBorn(w: World) {
    forall h :: h in w.db.holds ==> h in w.born && w.born[h] == w.db.holds[h]
  }

  /** What was read stays true of the rows it was read from. */
  lemma CarryReads(w: World, w': World)
    requires ReadsOk(w) && RowsPersist(w.db, w'.db) && HoldsBorn(w')
    requires forall h :: h in w.born ==> h in w'.born && w'.born[h] == w.born[h]
    requires w'.expired == w.expired && w'.ticketReads == w.ticketReads && w'.tripReads == w.tripReads
    requires w'.credits == w.credits && w.reported <= w'.reported
    ensures ReadsOk(w')
  {
  }

  ghost predicate Kept(w: World, w': World) {
    Inv(w') && Persists(w.db, w'.db) && w.reported <= w'.reported
  }

  lemma TakeStepKeepsInv(w: World, user: UserId, role: Role, ask: HoldRequest, ids: seq<HoldId>)
    requires Inv(w) && Enabled(w, TakeHolds(user, role, ask, ids))
    ensures Kept(w, Next(w, TakeHolds(user, role, ask, ids)))
  {
    var w' := Next(w, TakeHolds(user, role, ask, ids));
    if HoldSeats(w.db, user, role, ask, w.now, ids).Ok? {
      TakeSeatsRows(w.db, Hold(ask.trip, user, ask.pickup, ask.dropoff, w.now + HoldSeconds(role)), ids);
      SameLedgerKeepsOk(w.db, w'.db, w.reported, w.reported);
    }
    CarryReads(w, w');
  }

  lemma ReleaseStepKeepsInv(w: World, user: UserId)
    requires Inv(w)
    ensures Kept(w, Next(w, Release(user)))
  {
    ReleaseKeepsOk(w.db, w.reported, user, w.now);
    CarryReads(w, Next(w, Release(user)));
  }

  lemma ReapStepKeepsInv(w: World, hold: HoldId, trip: TripId)
    requires Inv(w) && Enabled(w, Reap(hold, trip))
    ensures Kept(w, Next(w, Reap(hold, trip)))
  {
    var w' := Next(w, Reap(hold, trip));
    if hold in w.db.holds {
      IncrementKeepsOk(w.db, w.reported, trip);
      SameLedgerKeepsOk(IncrementTripSeat(w.db, trip), w'.db, w.reported, w.reported);
    }
    CarryReads(w, w');
  }

  lemma HoldStepsKeepInv(w: World, s: Step)
    requires Inv(w) && Enabled(w, s) && (s.TakeHolds? || s.Release? || s.Reap?)
    ensures Kept(w, Next(w, s))
  {
    match s
    case TakeHolds(user, role, ask, ids) => TakeStepKeepsInv(w, user, role, ask, ids);
    case Release(user) => ReleaseStepKeepsInv(w, user);
    case Reap(hold, trip) => ReapStepKeepsInv(w, hold, trip);
  }

  lemma TicketStepsKeepInv(w: World, s: Step)
    requires Inv(w) && Enabled(w, s) && (s.Confirm? || s.Cancel? || s.CancelTrip?)
    ensures Kept(w, Next(w, s))
  {
    var w' := Next(w, s);
    match s
    case Confirm(user, role, items) =>
      if ConfirmBatch(w.db, user, role, items, w.now).Ok? {
        ConfirmBatchKeepsOk(w.db, w.reported, user, role, items, w.now);
      }
      CarryReads(w, w');
    case Cancel(read, role) =>
      if CommitCancel(w.db, read, role).Ok? {
        CommitCancelKeepsOk(w.db, w.reported, read, role);
      }
      CarryReads(w, w');
    case CancelTrip(trip, rows) =>
      if CommitTripCancel(w.db, trip, rows).Ok? {
        CommitTripCancelKeepsOk(w.db, w.reported, trip, rows);
      }
      CarryReads(w, w');
  }

  lemma NewPaymentKeepsInv(w: World, ref: TxnRef, user: UserId, amount: int)
    requires Inv(w) && Enabled(w, NewPayment(ref, user, amount))
    ensures Kept(w, Next(w, NewPayment(ref, user, amount)))
  {
    var w' := Next(w, NewPayment(ref, user, amount));
    SameLedgerKeepsOk(w.db, w'.db, w.reported, w.reported);
    CarryReads(w, w');
  }

  lemma CreditOrNothing(db: Db, c: Credit)
    ensures CreditWallet(db, c, true).0 ==
            if CreditLedger(db.ledger, c).Ok? then db.(ledger := CreditLedger(db.ledger, c).value) else db
  {
  }

  lemma CreditStepKeepsInv(w: World, credit: Credit)
    requires Inv(w) && credit in w.credits
    ensures Kept(w, Next(w, CreditUser(credit)))
  {
    var w' := Next(w, CreditUser(credit));
    assert credit == CreditOf(w.db, credit.ref);
    CreditOrNothing(w.db, credit);
    if CreditLedger(w.db.ledger, credit).Ok? {
      CreditKeepsOk(w.db, w.reported, credit.ref);
      CarryReads(w, w');
    } else {
      assert w' == w;
    }
  }

  lemma StatusColumnsOnly(db: Db, ref: TxnRef, status: PaymentStatus)
    ensures var db1, db2 := SetStatus(db, ref, status), ClearPolling(SetStatus(db, ref, status), ref);
            && db1.holds == db2.holds == db.holds && db1.ledger == db2.ledger == db.ledger
            && db1.payments.Keys == db2.payments.Keys == db.payments.Keys
            && (ref in db.payments ==> CreditOf(db1, ref) == CreditOf(db2, ref) == CreditOf(db, ref))
  {
  }

  lemma CardStepKeepsInv(w: World, ref: TxnRef, status: PaymentStatus)
    requires Inv(w)
    ensures Kept(w, Next(w, CardResult(ref, status)))
  {
    var w' := Next(w, CardResult(ref, status));
    var db1 := SetStatus(w.db, ref, status);
    StatusColumnsOnly(w.db, ref, status);
    RecordKeepsOk(w.db, w.reported, ref, status, w'.reported);
    var r := CreditLedger(w.db.ledger, if ref in w.db.payments then CreditOf(w.db, ref) else Credit(0, 0, 0));
    if ref !in w.db.payments || (status == Success && r.Err?) {
      MoreReported(w.db, w.reported, w'.reported);
      assert w'.db == w.db;
    } else if status == Success {
      CreditKeepsOk(db1, w'.reported, ref);
      assert w'.db == db1.(ledger := r.value);
      PersistsTransitive(w.db, db1, w'.db);
    } else {
      assert w'.db == db1;
    }
    CarryReads(w, w');
  }

  lemma MoreReported(db: Db, reported: set<TxnRef>, reported': set<TxnRef>)
    requires DbOk(db, reported) && reported <= reported'
    ensures DbOk(db, reported')
  {
    SameLedgerKeepsOk(db, db, reported, reported');
  }

  lemma TimeoutStepKeepsInv(w: World, ref: TxnRef)
    requires Inv(w)
    ensures Kept(w, Next(w, PollTimeout(ref)))
  {
    StatusColumnsOnly(w.db, ref, Failed);
    RecordKeepsOk(w.db, w.reported, ref, Failed, w.reported);
    CarryReads(w, Next(w, PollTimeout(ref)));
  }

  /** The world between the status update and the note of a successful phase 1. */
  lemma RecordedWorld(w: World, ref: TxnRef, status: PaymentStatus)
    requires Inv(w) && ref in w.db.payments
    ensures var w' := Next(w, Record(ref, status)).(credits := w.credits);
            && Kept(w, w') && ref in w'.db.payments && CreditOf(w'.db, ref) == CreditOf(w.db, ref)
  {
    var w' := Next(w, Record(ref, status)).(credits := w.credits);
    StatusColumnsOnly(w.db, ref, status);
    RecordKeepsOk(w.db, w.reported, ref, status, w'.reported);
    CarryReads(w, w');
  }

  lemma RecordStepKeepsInv(w: World, ref: TxnRef, status: PaymentStatus)
    requires Inv(w)
    ensures Kept(w, Next(w, Record(ref, status)))
  {
    var w' := Next(w, Record(ref, status));
    if ref in w.db.payments {
      RecordedWorld(w, ref, status);
      if status == Success {
        CreditNoted(w'.(credits := w.credits), CreditOf(w.db, ref));
      } else {
        assert w' == w'.(credits := w.credits);
      }
    } else {
      assert w' == w;
    }
  }

  /** A successful first phase is remembered with the owner and amount of the row. */
  lemma CreditNoted(w: World, c: Credit)
    requires Inv(w) && c.ref in w.db.payments && c == CreditOf(w.db, c.ref) && c.ref in w.reported
    ensures Inv(w.(credits := w.credits + {c}))
  {
  }

  lemma TripRowsKeepInv(w: World, trips: map<TripId, Trip>)
    requires Inv(w) && w.db.trips.Keys <= trips.Keys && forall t :: t in trips ==> trips[t].price >= 0
    ensures Kept(w, w.(db := w.db.(trips := trips)))
  {
    var w' := w.(db := w.db.(trips := trips));
    SameLedgerKeepsOk(w.db, w'.db, w.reported, w.reported);
    CarryReads(w, w');
  }

  lemma AddStepKeepsInv(w: World, trip: TripId, request: TripRequest)
    requires Inv(w)
    ensures Kept(w, Next(w, AddTrip(trip, request)))
  {
    TripRowsKeepInv(w, Keep(w.db, Bookings.CreateTrip(w.db, trip, request)).trips);
  }

  lemma ChangeStepKeepsInv(w: World, trip: TripId, request: TripRequest, sold: nat)
    requires Inv(w)
    ensures Kept(w, Next(w, ChangeTrip(trip, request, sold)))
  {
    TripRowsKeepInv(w, Keep(w.db, UpdateTrip(w.db, trip, request, sold)).trips);
  }

  lemma MarkStepKeepsInv(w: World, trip: TripId, manual: ManualStatus)
    requires Inv(w)
    ensures Kept(w, Next(w, MarkManual(trip, manual)))
  {
    TripRowsKeepInv(w, MarkTrip(w.db.trips, trip, manual));
  }

  lemma ListStepKeepsInv(w: World, list: set<(HoldId, TripId)>)
    requires Inv(w) && Enabled(w, ListExpired(list))
    ensures Kept(w, Next(w, ListExpired(list)))
  {
  }

  lemma ReadTicketKeepsInv(w: World, user: UserId, ticket: TicketId)
    requires Inv(w)
    ensures Kept(w, Next(w, ReadTicket(user, ticket)))
  {
  }

  lemma ReadTripKeepsInv(w: World, trip: TripId, rows: seq<TicketRead>)
    requires Inv(w) && Enabled(w, ReadTrip(trip, rows))
    ensures Kept(w, Next(w, ReadTrip(trip, rows)))
  {
  }

  lemma NextKeepsInv(w: World, s: Step)
    requires Inv(w) && Enabled(w, s)
    ensures Kept(w, Next(w, s))
  {
    match s
    case TakeHolds(_, _, _, _) => HoldStepsKeepInv(w, s);
    case Release(_) => HoldStepsKeepInv(w, s);
    case Reap(_, _) => HoldStepsKeepInv(w, s);
    case Confirm(_, _, _) => TicketStepsKeepInv(w, s);
    case Cancel(_, _) => TicketStepsKeepInv(w, s);
    case CancelTrip(_, _) => TicketStepsKeepInv(w, s);
    case NewPayment(ref, user, amount) => NewPaymentKeepsInv(w, ref, user, amount);
    case CreditUser(credit) => CreditStepKeepsInv(w, credit);
    case CardResult(ref, status) => CardStepKeepsInv(w, ref, status);
    case PollTimeout(ref) => TimeoutStepKeepsInv(w, ref);
    case Record(ref, status) => RecordStepKeepsInv(w, ref, status);
    case Tick(_) =>
    case AddTrip(trip, request) => AddStepKeepsInv(w, trip, request);
    case ChangeTrip(trip, request, sold) => ChangeStepKeepsInv(w, trip, request, sold);
    case MarkManual(trip, manual) => MarkStepKeepsInv(w, trip, manual);
    case ListExpired(list) => ListStepKeepsInv(w, list);
    case ReadTicket(user, ticket) => ReadTicketKeepsInv(w, user, ticket);
    case ReadTrip(trip, rows) => ReadTripKeepsInv(w, trip, rows);
  }

  // ----- whole runs

  lemma {:induction false} RunKeepsInv(ws: seq<World>, steps: seq<Step>, i: nat)
    requires Run(ws, steps) && i <= |steps|
    ensures Inv(ws[i])
  {
    if i > 0 {
      RunKeepsInv(ws, steps, i - 1);
      NextKeepsInv(ws[i - 1], steps[i - 1]);
    }
  }

  /** Nothing that was posted, sold or promised is ever taken back. */
  lemma {:induction false} RunPersists(ws: seq<World>, steps: seq<Step>, i: nat, j: nat)
    requires Run(ws, steps) && i <= j <= |steps|
    ensures Persists(ws[i].db, ws[j].db)
  {
    if i < j {
      RunPersists(ws, steps, i, j - 1);
      RunKeepsInv(ws, steps, j - 1);
      NextKeepsInv(ws[j - 1], steps[j - 1]);
      PersistsTransitive(ws[i].db, ws[j - 1].db, ws[j].db);
    }
  }

  // ----- the money identity

  /** Prices of the tickets that were paid for and not refunded, going by the
      first `n` headers. */
  ghost function FaresUpTo(db: Db, n: nat): map<TicketId, int>
    requires n <= |db.ledger.headers|
  {
    map t | t in db.tickets
            && Header(TransportBooking, t) in db.ledger.headers[..n]
            && Header(Refund, t) !in db.ledger.headers[..n]
          :: db.tickets[t].pricePaid
  }

  ghost function DepositsUpTo(db: Db, n: nat): map<TxnRef, int>
    requires n <= |db.ledger.headers|
  {
    map r | r in db.payments && Header(JazzcashDeposit, r) in db.ledger.headers[..n] :: db.payments[r].amount
  }

  ghost function Fares(db: Db): map<TicketId, int> {
    FaresUpTo(db, |db.ledger.headers|)
  }

  ghost function Deposits(db: Db): map<TxnRef, int> {
    DepositsUpTo(db, |db.ledger.headers|)
  }

  lemma PrefixIn(hs: seq<Header>, n: nat, h: Header)
    requires n < |hs|
    ensures h in hs[..n + 1] <==> h in hs[..n] || h == hs[n]
  {
    assert hs[..n + 1] == hs[..n] + [hs[n]];
  }

  lemma NotBefore(hs: seq<Header>, n: nat)
    requires n < |hs| && UniqueHeaders(hs)
    ensures hs[n] !in hs[..n]
  {
    assert forall j :: 0 <= j < n ==> hs[..n][j] == hs[j];
  }

  function Signed(h: Header, amount: int): int {
    match h.kind
    case TransportBooking => amount
    case Refund => -amount
    case JazzcashDeposit => 0
  }

  /** How the map of fares changes with one header. */
  ghost predicate FaresChange(db: Db, n: nat)
    requires n < |db.ledger.headers|
  {
    var h := db.ledger.headers[n];
    var a, b := FaresUpTo(db, n), FaresUpTo(db, n + 1);
    match h.kind
    case TransportBooking => h.ref in db.tickets && h.ref !in a && b == a[h.ref := db.tickets[h.ref].pricePaid]
    case Refund => h.ref in a && b == a - {h.ref}
    case JazzcashDeposit => b == a
  }

  lemma FaresChangeByKind(db: Db, n: nat)
    requires n < |db.ledger.headers|
    requires var hs, h := db.ledger.headers, db.ledger.headers[n];
             && h !in hs[..n]
             && (h.kind != JazzcashDeposit ==> h.ref in db.tickets)
             && (h.kind == TransportBooking ==> Header(Refund, h.ref) !in hs[..n])
             && (h.kind == Refund ==> Header(TransportBooking, h.ref) in hs[..n])
    ensures FaresChange(db, n)
  {
    var hs, h := db.ledger.headers, db.ledger.headers[n];
    var a, b := FaresUpTo(db, n), FaresUpTo(db, n + 1);
    forall t | t in db.tickets
      ensures Header(TransportBooking, t) in hs[..n + 1] <==>
              Header(TransportBooking, t) in hs[..n] || h == Header(TransportBooking, t)
      ensures Header(Refund, t) in hs[..n + 1] <==> Header(Refund, t) in hs[..n] || h == Header(Refund, t)
    {
      PrefixIn(hs, n, Header(TransportBooking, t));
      PrefixIn(hs, n, Header(Refund, t));
    }
    match h.kind
    case TransportBooking => assert b == a[h.ref := db.tickets[h.ref].pricePaid];
    case Refund => assert b == a - {h.ref};
    case JazzcashDeposit => assert b == a;
  }

  lemma FaresChanges(db: Db, reported: set<TxnRef>, n: nat)
    requires DbOk(db, reported) && n < |db.ledger.headers|
    ensures FaresChange(db, n)
  {
    var h := db.ledger.headers[n];
    assert HeaderLinked(db, reported, n);
    NotBefore(db.ledger.headers, n);
    if h.kind == TransportBooking {
      BookingBeforeRefund(db, reported, n, h.ref);
    }
    FaresChangeByKind(db, n);
  }

  lemma BookingBeforeRefund(db: Db, reported: set<TxnRef>, n: nat, t: TicketId)
    requires DbOk(db, reported) && n < |db.ledger.headers| && db.ledger.headers[n] == Header(TransportBooking, t)
    ensures Header(Refund, t) !in db.ledger.headers[..n]
  {
    NotBefore(db.ledger.headers, n);
    if Header(Refund, t) in db.ledger.headers[..n] {
      RefundNeedsBooking(db, reported, n, t);
    }
  }

  lemma FaresStep(db: Db, reported: set<TxnRef>, n: nat)
    requires DbOk(db, reported) && n < |db.ledger.headers|
    ensures SumMap(FaresUpTo(db, n + 1)) ==
            SumMap(FaresUpTo(db, n)) + Signed(db.ledger.headers[n], db.ledger.entries[2 * n + 1].amount)
  {
    var h := db.ledger.headers[n];
    var a := FaresUpTo(db, n);
    assert HeaderLinked(db, reported, n);
    FaresChanges(db, reported, n);
    match h.kind
    case TransportBooking => SumMapInsert(a, h.ref, db.tickets[h.ref].pricePaid);
    case Refund => SumMapRemove(a, h.ref);
    case JazzcashDeposit =>
  }

  lemma RefundNeedsBooking(db: Db, reported: set<TxnRef>, n: nat, t: TicketId)
    requires DbOk(db, reported) && n <= |db.ledger.headers| && Header(Refund, t) in db.ledger.headers[..n]
    ensures Header(TransportBooking, t) in db.ledger.headers[..n]
  {
    var hs := db.ledger.headers;
    var i :| 0 <= i < n && hs[..n][i] == Header(Refund, t);
    assert HeaderLinked(db, reported, i);
    var j :| 0 <= j < i && hs[..i][j] == Header(TransportBooking, t);
    assert hs[..n][j] == Header(TransportBooking, t);
  }

  lemma DepositsStep(db: Db, reported: set<TxnRef>, n: nat)
    requires DbOk(db, reported) && n < |db.ledger.headers|
    ensures SumMap(DepositsUpTo(db, n + 1)) == SumMap(DepositsUpTo(db, n)) +
              if db.ledger.headers[n].kind == JazzcashDeposit then db.ledger.entries[2 * n + 1].amount else 0
  {
    var hs, h := db.ledger.headers, db.ledger.headers[n];
    assert HeaderLinked(db, reported, n);
    NotBefore(hs, n);
    forall r
      ensures Header(JazzcashDeposit, r) in hs[..n + 1] <==>
              Header(JazzcashDeposit, r) in hs[..n] || Header(JazzcashDeposit, r) == h
    {
      PrefixIn(hs, n, Header(JazzcashDeposit, r));
    }
    var a, b := DepositsUpTo(db, n), DepositsUpTo(db, n + 1);
    if h.kind == JazzcashDeposit {
      assert b == a[h.ref := db.payments[h.ref].amount];
      SumMapInsert(a, h.ref, db.payments[h.ref].amount);
    } else {
      assert b == a;
    }
  }

  lemma SumOfPair(es: seq<Entry>, n: nat, w: WalletId)
    requires 2 * n + 1 < |es|
    ensures Sum(es[..2 * n + 2], w) ==
            Sum(es[..2 * n], w) + (if es[2 * n].wallet == w then es[2 * n].amount else 0)
                                + (if es[2 * n + 1].wallet == w then es[2 * n + 1].amount else 0)
  {
    assert es[..2 * n + 2] == es[..2 * n] + [es[2 * n]] + [es[2 * n + 1]];
    SumAppend(es[..2 * n] + [es[2 * n]], es[2 * n + 1], w);
    SumAppend(es[..2 * n], es[2 * n], w);
  }

  /** What one pair of rows adds to the two system wallets. */
  lemma PairAtSystemWallets(db: Db, reported: set<TxnRef>, n: nat)
    requires DbOk(db, reported) && n < |db.ledger.headers|
    ensures var es, h := db.ledger.entries, db.ledger.headers[n];
            && Sum(es[..2 * n + 2], Revenue) == Sum(es[..2 * n], Revenue) + Signed(h, es[2 * n + 1].amount)
            && Sum(es[..2 * n + 2], Liability) ==
               Sum(es[..2 * n], Liability) - if h.kind == JazzcashDeposit then es[2 * n + 1].amount else 0
  {
    assert PairAt(db.ledger.entries, n) && HeaderLinked(db, reported, n);
    SumOfPair(db.ledger.entries, n, Revenue);
    SumOfPair(db.ledger.entries, n, Liability);
  }

  lemma SystemSumsStep(db: Db, reported: set<TxnRef>, n: nat)
    requires DbOk(db, reported) && n < |db.ledger.headers|
    ensures Sum(db.ledger.entries[..2 * n + 2], Revenue) - Sum(db.ledger.entries[..2 * n], Revenue) ==
            SumMap(FaresUpTo(db, n + 1)) - SumMap(FaresUpTo(db, n))
    ensures Sum(db.ledger.entries[..2 * n + 2], Liability) - Sum(db.ledger.entries[..2 * n], Liability) ==
            SumMap(DepositsUpTo(db, n)) - SumMap(DepositsUpTo(db, n + 1))
  {
    PairAtSystemWallets(db, reported, n);
    FaresStep(db, reported, n);
    DepositsStep(db, reported, n);
  }

  lemma {:induction false} SystemSums(db: Db, reported: set<TxnRef>, n: nat)
    requires DbOk(db, reported) && n <= |db.ledger.headers|
    ensures Sum(db.ledger.entries[..2 * n], Revenue) == SumMap(FaresUpTo(db, n))
    ensures Sum(db.ledger.entries[..2 * n], Liability) == -SumMap(DepositsUpTo(db, n))
  {
    if n == 0 {
      assert FaresUpTo(db, 0) == map[] && DepositsUpTo(db, 0) == map[];
    } else {
      var m := n - 1;
      SystemSums(db, reported, m);
      SystemSumsStep(db, reported, m);
      assert db.ledger.entries[..2 * n] == db.ledger.entries[..2 * m + 2];
    }
  }

  /** In every reachable world the revenue is the prices of the tickets paid for
      and not refunded, the liability is the credited top-ups, and what the users
      hold is the difference; no user is overdrawn. */
  lemma MoneyIdentity(ws: seq<World>, steps: seq<Step>, i: nat)
    requires Run(ws, steps) && i <= |steps|
    ensures var db := ws[i].db;
            && Balance(db.ledger, Revenue) == SumMap(Fares(db))
            && Balance(db.ledger, Liability) == -SumMap(Deposits(db))
            && SumMap(PersonalBalances(db.ledger)) == SumMap(Deposits(db)) - SumMap(Fares(db))
            && (forall w :: w in db.ledger.wallets && w.PersonalOf? ==> Balance(db.ledger, w) >= 0)
  {
    RunKeepsInv(ws, steps, i);
    var db := ws[i].db;
    var n := |db.ledger.headers|;
    SystemSums(db, ws[i].reported, n);
    assert db.ledger.entries[..2 * n] == db.ledger.entries;
    SnapshotIsSum(db.ledger.entries, Revenue);
    SnapshotIsSum(db.ledger.entries, Liability);
    BalancesSumToZero(db.ledger);
  }

  // ----- deposits and refunds

  /** How often a header occurs. */
  function Count(hs: seq<Header>, h: Header): nat {
    if hs == [] then 0 else Count(hs[1..], h) + if hs[0] == h then 1 else 0
  }

  lemma {:induction false} CountAtMostOnce(hs: seq<Header>, h: Header)
    requires UniqueHeaders(hs)
    ensures Count(hs, h) <= 1
    ensures h !in hs ==> Count(hs, h) == 0
  {
    if hs != [] {
      var rest := hs[1..];
      forall i, j | 0 <= i < j < |rest|
        ensures rest[i] != rest[j]
      {
        assert rest[i] == hs[i + 1] && rest[j] == hs[j + 1];
      }
      assert forall i :: 0 <= i < |rest| ==> rest[i] == hs[i + 1] && rest[i] != hs[0];
      CountAtMostOnce(rest, h);
    }
  }

  /** Header i moves `amount` from one wallet to another. */
  ghost predicate Moves(l: Ledger, i: nat, sender: WalletId, receiver: WalletId, amount: int) {
    && 2 * i + 1 < |l.entries|
    && l.entries[2 * i].wallet == sender && l.entries[2 * i].amount == -amount && l.entries[2 * i].txn == i
    && l.entries[2 * i + 1].wallet == receiver && l.entries[2 * i + 1].amount == amount && l.entries[2 * i + 1].txn == i
  }

  /** At most one deposit for a payment, of the stored amount, to its owner, and only
      after the gateway reported SUCCESS for it, whichever of the racing paths got
      there and wherever they were interrupted. */
  lemma DepositExactlyOnce(ws: seq<World>, steps: seq<Step>, i: nat, ref: TxnRef)
    requires Run(ws, steps) && i <= |steps|
    ensures var w := ws[i];
            && Count(w.db.ledger.headers, Header(JazzcashDeposit, ref)) <= 1
            && (Header(JazzcashDeposit, ref) in w.db.ledger.headers ==>
                  && ref in w.db.payments && ref in w.reported
                  && var payment := w.db.payments[ref];
                     exists k :: 0 <= k < |w.db.ledger.headers|
                                 && w.db.ledger.headers[k] == Header(JazzcashDeposit, ref)
                                 && Moves(w.db.ledger, k, Liability, PersonalOf(payment.user), payment.amount))
  {
    RunKeepsInv(ws, steps, i);
    var w := ws[i];
    CountAtMostOnce(w.db.ledger.headers, Header(JazzcashDeposit, ref));
    if Header(JazzcashDeposit, ref) in w.db.ledger.headers {
      var k :| 0 <= k < |w.db.ledger.headers| && w.db.ledger.headers[k] == Header(JazzcashDeposit, ref);
      assert HeaderLinked(w.db, w.reported, k) && PairAt(w.db.ledger.entries, k);
    }
  }

  /** `reported` is earned: some earlier step carried the gateway's SUCCESS for it. */
  lemma {:induction false} ReportedMeansSuccess(ws: seq<World>, steps: seq<Step>, i: nat, ref: TxnRef)
    requires Run(ws, steps) && i <= |steps| && ref in ws[i].reported
    ensures exists j :: 0 <= j < i && (steps[j] == Record(ref, Success) || steps[j] == CardResult(ref, Success))
  {
    assert i > 0;
    if ref in ws[i - 1].reported {
      ReportedMeansSuccess(ws, steps, i - 1, ref);
    } else {
      assert steps[i - 1] == Record(ref, Success) || steps[i - 1] == CardResult(ref, Success);
    }
  }

  /** A ticket is refunded at most once across user and trip cancellations, only
      after its booking was debited, by exactly the price that was paid, back to
      the user who paid; and a refunded ticket is no longer valid. */
  lemma RefundOnceAfterBooking(ws: seq<World>, steps: seq<Step>, i: nat, t: TicketId)
    requires Run(ws, steps) && i <= |steps|
    ensures var db := ws[i].db;
            && Count(db.ledger.headers, Header(Refund, t)) <= 1
            && (Header(Refund, t) in db.ledger.headers ==>
                  && t in db.tickets && db.tickets[t].status != Confirmed
                  && var user, price := PersonalOf(db.tickets[t].user), db.tickets[t].pricePaid;
                     exists j, k :: 0 <= j < k < |db.ledger.headers|
                                    && db.ledger.headers[j] == Header(TransportBooking, t)
                                    && db.ledger.headers[k] == Header(Refund, t)
                                    && Moves(db.ledger, j, user, Revenue, price)
                                    && Moves(db.ledger, k, Revenue, user, price))
  {
    RunKeepsInv(ws, steps, i);
    CountAtMostOnce(ws[i].db.ledger.headers, Header(Refund, t));
    if Header(Refund, t) in ws[i].db.ledger.headers {
      var j, k := BookingBefore(ws[i].db, ws[i].reported, t);
    }
  }

  lemma BookingBefore(db: Db, reported: set<TxnRef>, t: TicketId) returns (j: nat, k: nat)
    requires DbOk(db, reported) && Header(Refund, t) in db.ledger.headers
    ensures t in db.tickets && db.tickets[t].status != Confirmed
    ensures j < k < |db.ledger.headers|
    ensures db.ledger.headers[j] == Header(TransportBooking, t) && db.ledger.headers[k] == Header(Refund, t)
    ensures Moves(db.ledger, j, PersonalOf(db.tickets[t].user), Revenue, db.tickets[t].pricePaid)
    ensures Moves(db.ledger, k, Revenue, PersonalOf(db.tickets[t].user), db.tickets[t].pricePaid)
  {
    var hs := db.ledger.headers;
    k :| 0 <= k < |hs| && hs[k] == Header(Refund, t);
    assert HeaderLinked(db, reported, k) && PairAt(db.ledger.entries, k);
    j :| 0 <= j < k && hs[..k][j] == Header(TransportBooking, t);
    assert HeaderLinked(db, reported, j) && PairAt(db.ledger.entries, j);
  }
}
