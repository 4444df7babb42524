/** The payment service (backend/internal/payment/service.go), statement by
    statement.  What the gateway answered, and whether each commit goes through, are
    parameters. */
module PaymentService {
  import opened Outcomes
  import opened Ledgers
  import opened Tables
  import opened Topups
  import opened Stores
  import opened WalletService

  class Payments {
    const store: Store
    const wallets: Wallets

    constructor (store: Store, wallets: Wallets)
      requires wallets.store == store
      ensures this.store == store && this.wallets == wallets
    {
      this.store, this.wallets := store, wallets;
    }

    ghost predicate Wired() {
      wallets.store == store
    }

    method UpdateStatus(ref: TxnRef, status: PaymentStatus)
      modifies store`payments
      ensures store.View() == SetStatus(old(store.View()), ref, status)
    {
      if ref in store.payments {
        store.payments := store.payments[ref := store.payments[ref].(status := status)];
      }
    }

    method ClearPollingFlag(ref: TxnRef)
      modifies store`payments
      ensures store.View() == ClearPolling(old(store.View()), ref)
    {
      if ref in store.payments {
        store.payments := store.payments[ref := store.payments[ref].(polling := false)];
      }
    }

    /** Credits the owner.  `failed` says that a statement has put the database
        transaction in the failed state although no error is reported. */
    method CreditWalletFromPayment(user: UserId, amount: int, ref: TxnRef) returns (r: Result<()>, failed: bool)
      requires Wired()
      modifies store
      ensures match CreditLedger(old(store.View()).ledger, Credit(ref, user, amount))
              case Ok(l) => r == Ok(()) && !failed && store.View() == old(store.View()).(ledger := l)
              case Err(UniqueViolation) => r == Ok(()) && failed
              case Err(e) => r == Err(e)
    {
      wallets.GetOrCreateWallet(user);
      var paid := wallets.ExecuteDoubleEntry(Liability, PersonalOf(user), amount, JazzcashDeposit, ref);
      if paid.Err? {
        if paid.error == UniqueViolation {
          return Ok(()), true;
        }
        return paid, true;
      }
      return Ok(()), false;
    }

    method FinalizeTransaction(ref: TxnRef, status: PaymentStatus, commits1: bool, commits2: bool)
      returns (f: Finalized)
      requires Wired()
      modifies store
      ensures (store.View(), f) == Finalize(old(store.View()), ref, status, commits1, commits2)
    {
      var isTerminal := status == Success || status == Failed;
      // Phase 1: the status, in a transaction of its own.
      var begun := store.View();
      if ref !in store.payments {
        return Finalized(false, Err(Database));
      }
      var existing := store.payments[ref];
      UpdateStatus(ref, status);
      if isTerminal {
        ClearPollingFlag(ref);
      }
      var recorded := store.Commit(begun, commits1);
      if recorded.Err? {
        return Finalized(false, recorded);
      }
      // Phase 2: the credit, in another.
      if isTerminal && status == Success {
        var again := store.View();
        var credited, failed := CreditWalletFromPayment(existing.user, existing.amount, ref);
        if credited.Err? {
          store.Rollback(again);
          return Finalized(true, credited);
        }
        var committed := store.Commit(again, commits2 && !failed);
        if committed.Err? {
          return Finalized(true, committed);
        }
      }
      return Finalized(isTerminal, Ok(()));
    }

    method CompleteCardPayment(ref: TxnRef, status: PaymentStatus, commits: bool) returns (r: Result<()>)
      requires Wired()
      modifies store
      ensures (store.View(), r) == Topups.CompleteCardPayment(old(store.View()), ref, status, commits)
    {
      var begun := store.View();
      if ref !in store.payments {
        return Err(Database);
      }
      var row := store.payments[ref];
      UpdateStatus(ref, status);
      var failed := false;
      match status {
        case Success =>
          var credited;
          credited, failed := CreditWalletFromPayment(row.user, row.amount, ref);
          if credited.Err? {
            store.Rollback(begun);
            return credited;
          }
        case _ =>
      }
      r := store.Commit(begun, commits && !failed);
    }

    method CheckTransactionStatus(ref: TxnRef, inquiry: Result<PaymentStatus>, age: Time, commits1: bool,
        commits2: bool)
      returns (r: Result<PaymentStatus>)
      requires Wired()
      modifies store
      ensures (store.View(), r) ==
              Topups.CheckTransactionStatus(old(store.View()), ref, inquiry, age, commits1, commits2)
    {
      if inquiry.Err? {
        return Err(GatewayUnavailable);
      }
      match inquiry.value {
        case Success =>
          var f := FinalizeTransaction(ref, Success, commits1, commits2);
          if !f.done {
            if f.error.Err? {
              return Err(TransactionUpdate);
            }
          }
          return inquiry;
        case Failed =>
          var f := FinalizeTransaction(ref, Failed, commits1, commits2);
          return inquiry;
        case _ =>
          if age > STATUS_TIMEOUT {
            var f := FinalizeTransaction(ref, inquiry.value, commits1, commits2);
            return Ok(Failed);
          }
          return inquiry;
      }
    }

    /** One turn of the poller; `done` stops it. */
    method PollTransactionOnce(ref: TxnRef, acquired: bool, inquiry: Result<PaymentStatus>, commits1: bool,
        commits2: bool)
      returns (done: bool)
      requires Wired()
      modifies store
      ensures !acquired ==> done && store.View() == old(store.View())
      ensures acquired && inquiry.Err? ==> !done && store.View() == old(store.View())
      ensures acquired && inquiry.Ok? ==>
                (var (db', f) := Finalize(old(store.View()), ref, inquiry.value, commits1, commits2);
                 store.View() == db' && done == f.done)
    {
      if !acquired {
        return true;
      }
      if inquiry.Err? {
        return false;
      }
      var f := FinalizeTransaction(ref, inquiry.value, commits1, commits2);
      return f.done;
    }

    method HandlePollingTimeout(ref: TxnRef)
      modifies store`payments
      ensures store.View() == Topups.HandlePollingTimeout(old(store.View()), ref)
    {
      UpdateStatus(ref, Failed);
      ClearPollingFlag(ref);
    }
  }
}
