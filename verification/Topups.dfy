/** How a gateway outcome is recorded and credited
    (backend/internal/payment/service.go).  The poller, the status check, the
    administrator's verification and the card callback all end here. */
module Topups {
  import opened Outcomes
  import opened Ledgers
  import opened Tables

  // ----- single statements and transactions

  function SetStatus(db: Db, ref: TxnRef, status: PaymentStatus): Db {
    if ref in db.payments then db.(payments := db.payments[ref := db.payments[ref].(status := status)]) else db
  }

  function ClearPolling(db: Db, ref: TxnRef): Db {
    if ref in db.payments then db.(payments := db.payments[ref := db.payments[ref].(polling := false)]) else db
  }

  predicate IsTerminal(status: PaymentStatus) {
    status == Success || status == Failed
  }

  /** Phase 1: the status sticks whatever becomes of the credit. */
  function RecordOutcome(db: Db, ref: TxnRef, status: PaymentStatus): Result<Db> {
    if ref !in db.payments then Err(Database)
    else
      var db1 := SetStatus(db, ref, status);
      Ok(if IsTerminal(status) then ClearPolling(db1, ref) else db1)
  }

  /** What phase 2 knows of the row: its columns as phase 1 read them. */
  datatype Credit = Credit(ref: TxnRef, user: UserId, amount: int)

  function CreditOf(db: Db, ref: TxnRef): Credit
    requires ref in db.payments
  {
    Credit(ref, db.payments[ref].user, db.payments[ref].amount)
  }

  function CreditLedger(l: Ledger, c: Credit): Result<Ledger> {
    Transfer(OpenWallet(l, c.user), Liability, PersonalOf(c.user), c.amount, JazzcashDeposit, c.ref)
  }

  /** Phase 2.  A repeated deposit is reported as success by the callback, but the
      violated key has already put the database transaction in the failed state,
      so the commit is refused and nothing is written. */
  function CreditWallet(db: Db, c: Credit, commits: bool): (Db, Result<()>) {
    match CreditLedger(db.ledger, c)
    case Ok(l) => WithTransaction(db, Ok(db.(ledger := l)), commits)
    case Err(e) => (db, Err(if e == UniqueViolation then TransactionCommit else e))
  }

  datatype Finalized = Finalized(done: bool, error: Result<()>)

  function Finalize(db: Db, ref: TxnRef, status: PaymentStatus, commits1: bool, commits2: bool): (Db, Finalized) {
    match WithTransaction(db, RecordOutcome(db, ref, status), commits1)
    case (_, Err(e)) => (db, Finalized(false, Err(e)))
    case (db1, Ok(_)) =>
      if status == Success && ref in db.payments then
        var (db2, r) := CreditWallet(db1, CreditOf(db, ref), commits2);
        (db2, Finalized(true, r))
      else (db1, Finalized(IsTerminal(status), Ok(())))
  }

  /** The callback of a card payment: status and credit in one transaction. */
  function CompleteCardPayment(db: Db, ref: TxnRef, status: PaymentStatus, commits: bool): (Db, Result<()>) {
    if ref !in db.payments then (db, Err(Database))
    else
      var db1 := SetStatus(db, ref, status);
      if status != Success then WithTransaction(db, Ok(db1), commits)
      else
        match CreditLedger(db1.ledger, CreditOf(db, ref))
        case Ok(l) => WithTransaction(db, Ok(db1.(ledger := l)), commits)
        case Err(e) => (db, Err(if e == UniqueViolation then TransactionCommit else e))
  }

  function HandlePollingTimeout(db: Db, ref: TxnRef): Db {
    ClearPolling(SetStatus(db, ref, Failed), ref)
  }

  const STATUS_TIMEOUT := 120

  /** `age` is the time since the payment was created; `inquiry` is the answer of
      the gateway. */
  function CheckTransactionStatus(db: Db, ref: TxnRef, inquiry: Result<PaymentStatus>, age: Time, commits1: bool,
      commits2: bool): (Db, Result<PaymentStatus>)
  {
    match inquiry
    case Err(_) => (db, Err(GatewayUnavailable))
    case Ok(status) =>
      var (db1, f) := Finalize(db, ref, status, commits1, commits2);
      if IsTerminal(status) then
        if !f.done && status == Success && f.error.Err? then (db1, Err(TransactionUpdate)) else (db1, Ok(status))
      else if age > STATUS_TIMEOUT then (db1, Ok(Failed))
      else (db, Ok(status))
  }

  // ----- any number of attempts at one payment

  datatype Attempt =
    | Poll(status: PaymentStatus, commits1: bool, commits2: bool)
    | StatusCheck(inquiry: Result<PaymentStatus>, age: Time, commits1: bool, commits2: bool)
    | CardCallback(status: PaymentStatus, commits: bool)
    | PollingTimeout

  function Try(db: Db, ref: TxnRef, a: Attempt): Db {
    match a
    case Poll(status, c1, c2) => Finalize(db, ref, status, c1, c2).0
    case StatusCheck(inquiry, age, c1, c2) => CheckTransactionStatus(db, ref, inquiry, age, c1, c2).0
    case CardCallback(status, c) => CompleteCardPayment(db, ref, status, c).0
    case PollingTimeout => HandlePollingTimeout(db, ref)
  }

  function TryAll(db: Db, ref: TxnRef, attempts: seq<Attempt>): Db {
    if attempts == [] then db
    else Try(TryAll(db, ref, attempts[..|attempts| - 1]), ref, attempts[|attempts| - 1])
  }

  /** The gateway said SUCCESS and every transaction of the attempt went through:
      neither a crash between the phases nor a failed credit. */
  predicate Carries(a: Attempt) {
    match a
    case Poll(status, c1, c2) => status == Success && c1 && c2
    case StatusCheck(inquiry, _, c1, c2) => inquiry == Ok(Success) && c1 && c2
    case CardCallback(status, c) => status == Success && c
    case PollingTimeout => false
  }

  ghost predicate SomeCarries(attempts: seq<Attempt>) {
    exists i :: 0 <= i < |attempts| && Carries(attempts[i])
  }

  /** The ledger after one credit that either goes through or does not. */
  function AfterCredit(db: Db, ref: TxnRef, carried: bool): Ledger
    requires ref in db.payments
  {
    var r := CreditLedger(db.ledger, CreditOf(db, ref));
    if carried && r.Ok? then r.value else db.ledger
  }

  lemma FinalizeOnce(db: Db, ref: TxnRef, status: PaymentStatus, commits1: bool, commits2: bool)
    requires ref in db.payments
    ensures var db' := Finalize(db, ref, status, commits1, commits2).0;
            && ref in db'.payments
            && CreditOf(db', ref) == CreditOf(db, ref)
            && db'.ledger == AfterCredit(db, ref, status == Success && commits1 && commits2)
  {
    var db1 := RecordOutcome(db, ref, status).value;
    assert CreditOf(db1, ref) == CreditOf(db, ref);
  }

  lemma CardOnce(db: Db, ref: TxnRef, status: PaymentStatus, commits: bool)
    requires ref in db.payments
    ensures var db' := CompleteCardPayment(db, ref, status, commits).0;
            && ref in db'.payments
            && CreditOf(db', ref) == CreditOf(db, ref)
            && db'.ledger == AfterCredit(db, ref, status == Success && commits)
  {
    assert CreditOf(SetStatus(db, ref, status), ref) == CreditOf(db, ref);
  }

  lemma TryOnce(db: Db, ref: TxnRef, a: Attempt)
    requires ref in db.payments
    ensures var db' := Try(db, ref, a);
            && ref in db'.payments
            && CreditOf(db', ref) == CreditOf(db, ref)
            && db'.ledger == AfterCredit(db, ref, Carries(a))
  {
    match a
    case Poll(status, c1, c2) => FinalizeOnce(db, ref, status, c1, c2);
    case StatusCheck(inquiry, _, c1, c2) =>
      if inquiry.Ok? {
        FinalizeOnce(db, ref, inquiry.value, c1, c2);
      }
    case CardCallback(status, c) => CardOnce(db, ref, status, c);
    case PollingTimeout =>
  }

  /** Whatever mixture of pollers, status checks, card callbacks and timeouts runs
      for a payment, with crashes between the phases and failed credits, the ledger
      ends with the credit of one uninterrupted run if some attempt carried the
      gateway's SUCCESS through, and untouched otherwise. */
  lemma {:induction false} AttemptsCreditOnce(db: Db, ref: TxnRef, attempts: seq<Attempt>)
    requires ref in db.payments && db.payments[ref].amount > 0 && Liability in db.ledger.wallets
    requires Header(JazzcashDeposit, ref) !in db.ledger.headers
    ensures var once := Finalize(db, ref, Success, true, true).0;
            && CreditLedger(db.ledger, CreditOf(db, ref)).Ok?
            && once.ledger == CreditLedger(db.ledger, CreditOf(db, ref)).value
            && TryAll(db, ref, attempts).ledger == (if SomeCarries(attempts) then once.ledger else db.ledger)
            && ref in TryAll(db, ref, attempts).payments
            && CreditOf(TryAll(db, ref, attempts), ref) == CreditOf(db, ref)
  {
    if attempts != [] {
      var init, last := attempts[..|attempts| - 1], attempts[|attempts| - 1];
      AttemptsCreditOnce(db, ref, init);
      TryOnce(TryAll(db, ref, init), ref, last);
      if SomeCarries(init) {
        var i :| 0 <= i < |init| && Carries(init[i]);
        assert Carries(attempts[i]);
        var l := CreditLedger(db.ledger, CreditOf(db, ref)).value;
        assert l.headers[|db.ledger.headers|] == Header(JazzcashDeposit, ref);
        assert CreditLedger(l, CreditOf(db, ref)).Err?;
      } else if Carries(last) {
        assert Carries(attempts[|attempts| - 1]);
      } else {
        forall i | 0 <= i < |attempts|
          ensures !Carries(attempts[i])
        {
          if i < |init| {
            assert init[i] == attempts[i];
          }
        }
      }
    }
  }

  /** Once deposited, no attempt of any kind touches the ledger again. */
  lemma {:induction false} DepositedIsFinal(db: Db, ref: TxnRef, attempts: seq<Attempt>)
    requires ref in db.payments && Header(JazzcashDeposit, ref) in db.ledger.headers
    ensures TryAll(db, ref, attempts).ledger == db.ledger
    ensures ref in TryAll(db, ref, attempts).payments
  {
    if attempts != [] {
      var init := attempts[..|attempts| - 1];
      DepositedIsFinal(db, ref, init);
      TryOnce(TryAll(db, ref, init), ref, attempts[|attempts| - 1]);
    }
  }

  /** The stored status is not a record of the money: a timeout after the credit
      leaves FAILED on a payment whose deposit stands, and the next SUCCESS repairs
      the status without a second deposit. */
  lemma StatusIsNotTheRecord(db: Db, ref: TxnRef)
    requires ref in db.payments && db.payments[ref].amount > 0 && Liability in db.ledger.wallets
    requires Header(JazzcashDeposit, ref) !in db.ledger.headers
    ensures var late := TryAll(db, ref, [Poll(Success, true, true), PollingTimeout]);
            && ref in late.payments && late.payments[ref].status == Failed
            && Header(JazzcashDeposit, ref) in late.ledger.headers
            && (var again := Try(late, ref, Poll(Success, true, true));
                ref in again.payments && again.payments[ref].status == Success)
            && Try(late, ref, Poll(Success, true, true)).ledger == late.ledger
  {
    var a, b := Poll(Success, true, true), PollingTimeout;
    assert [a, b][..1] == [a] && [a][..0] == [];
    var credited := Try(db, ref, a);
    assert TryAll(db, ref, [a]) == credited;
    assert credited.ledger.headers[|db.ledger.headers|] == Header(JazzcashDeposit, ref);
    TryOnce(Try(credited, ref, b), ref, a);
  }

  // ----- what is stored and what is answered

  /** Only the status of this payment, and perhaps its polling flag, are written. */
  ghost predicate Stored(db: Db, db': Db, ref: TxnRef, status: PaymentStatus, polling: bool)
    requires ref in db.payments
  {
    && ref in db'.payments && db' == db.(ledger := db'.ledger, payments := db'.payments)
    && db'.payments ==
       db.payments[ref := Payment(db.payments[ref].user, db.payments[ref].amount, status, polling)]
  }

  ghost predicate Deposited(db: Db, ref: TxnRef) {
    Header(JazzcashDeposit, ref) in db.ledger.headers
  }

  /** A payment of a positive amount can be credited unless it has been. */
  lemma CreditGoesThroughIff(l: Ledger, c: Credit)
    requires c.amount > 0 && Liability in l.wallets
    ensures CreditLedger(l, c).Ok? <==> Header(JazzcashDeposit, c.ref) !in l.headers
    ensures CreditLedger(l, c).Ok? ==>
              CreditLedger(l, c).value.headers == l.headers + [Header(JazzcashDeposit, c.ref)]
    ensures CreditLedger(l, c).Err? ==> CreditLedger(l, c).error == UniqueViolation
  {
  }

  ghost predicate Known(db: Db, ref: TxnRef) {
    ref in db.payments && db.payments[ref].amount > 0 && Liability in db.ledger.wallets
  }

  /** What a finalisation stores and reports.  The status sticks with the first commit; a
      terminal one ends the polling, and is reported as final even when the credit of a
      success fails. */
  lemma FinalizeAnswers(db: Db, ref: TxnRef, status: PaymentStatus, commits1: bool, commits2: bool)
    requires Known(db, ref)
    ensures var terminal := status == Success || status == Failed;
            var (db', f) := Finalize(db, ref, status, commits1, commits2);
            && (commits1 ==> Stored(db, db', ref, status, db.payments[ref].polling && !terminal))
            && (!commits1 ==> db' == db)
            && (f.done <==> commits1 && terminal)
            && (f.error.Ok? <==> commits1 && (status == Success ==> commits2 && !Deposited(db, ref)))
            && (Deposited(db', ref) <==> Deposited(db, ref) || (status == Success && commits1 && commits2))
            && (status != Success ==> db'.ledger == db.ledger)
  {
    CreditGoesThroughIff(db.ledger, CreditOf(db, ref));
    var db1 := RecordOutcome(db, ref, status).value;
    assert db1.ledger == db.ledger && CreditOf(db1, ref) == CreditOf(db, ref);
  }

  /** For a payment that is not on record nothing is stored; a success is reported as an
      error, everything else as it came or, when it is late, as a failure. */
  lemma UnknownPaymentAnswers(db: Db, ref: TxnRef, inquiry: Result<PaymentStatus>, age: Time, commits1: bool,
      commits2: bool)
    requires ref !in db.payments
    ensures CheckTransactionStatus(db, ref, inquiry, age, commits1, commits2) ==
            (db, match inquiry
                 case Err(_) => Err(GatewayUnavailable)
                 case Ok(Success) => Err(TransactionUpdate)
                 case Ok(Failed) => Ok(Failed)
                 case Ok(other) => if age > 120 then Ok(Failed) else Ok(other))
    ensures forall status, commits :: CompleteCardPayment(db, ref, status, commits) == (db, Err(Database))
    ensures forall status :: Finalize(db, ref, status, commits1, commits2) == (db, Finalized(false, Err(Database)))
  {
  }

  /** What the user is told by a status check, against what is then stored.  Success is
      told exactly when the gateway said it and the status was stored, whether or not the
      credit went through; a failure is told as it came, stored or not; and a payment
      that is pending after 120 seconds is called failed and stored as what the gateway
      said. */
  lemma StatusCheckAnswers(db: Db, ref: TxnRef, inquiry: Result<PaymentStatus>, age: Time, commits1: bool,
      commits2: bool)
    requires Known(db, ref)
    ensures var (db', r) := CheckTransactionStatus(db, ref, inquiry, age, commits1, commits2);
            var polling := db.payments[ref].polling;
            && (r == Ok(Success) <==> inquiry == Ok(Success) && commits1)
            && (match inquiry
                case Err(_) => r == Err(GatewayUnavailable) && db' == db
                case Ok(Success) =>
                  if commits1
                  then Stored(db, db', ref, Success, false) && (Deposited(db', ref) <==> Deposited(db, ref) || commits2)
                  else r == Err(TransactionUpdate) && db' == db
                case Ok(Failed) =>
                  && r == Ok(Failed) && db'.ledger == db.ledger
                  && if commits1 then Stored(db, db', ref, Failed, false) else db' == db
                case Ok(other) =>
                  if age <= 120 then r == Ok(other) && db' == db
                  else
                    && r == Ok(Failed) && db'.ledger == db.ledger
                    && if commits1 then Stored(db, db', ref, other, polling) else db' == db)
  {
    if inquiry.Ok? {
      FinalizeAnswers(db, ref, inquiry.value, commits1, commits2);
    }
  }

  /** The card callback stores the status and credits a success together or not at all,
      and leaves the polling flag alone. */
  lemma CardCallbackAnswers(db: Db, ref: TxnRef, status: PaymentStatus, commits: bool)
    requires Known(db, ref)
    ensures var (db', r) := CompleteCardPayment(db, ref, status, commits);
            && (r.Ok? <==> commits && (status == Success ==> !Deposited(db, ref)))
            && (r.Ok? ==> Stored(db, db', ref, status, db.payments[ref].polling))
            && (r.Err? ==> db' == db && r == Err(TransactionCommit))
            && (Deposited(db', ref) <==> Deposited(db, ref) || (status == Success && commits))
            && (status != Success ==> db'.ledger == db.ledger)
  {
    var db1 := SetStatus(db, ref, status);
    CreditGoesThroughIff(db.ledger, CreditOf(db, ref));
    assert db1.ledger == db.ledger;
  }

  lemma TimeoutStores(db: Db, ref: TxnRef)
    requires ref in db.payments
    ensures Stored(db, HandlePollingTimeout(db, ref), ref, Failed, false)
            && HandlePollingTimeout(db, ref).ledger == db.ledger
  {
    var row := db.payments[ref];
    assert db.payments[ref := row.(status := Failed)][ref := Payment(row.user, row.amount, Failed, false)] ==
           db.payments[ref := Payment(row.user, row.amount, Failed, false)];
  }
}
