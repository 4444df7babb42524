/** The database the services share. */
module Stores {
  import opened Outcomes
  import opened Ledgers
  import opened Tables

  /** One field for each table. */
  class Store {
    var wallets: set<WalletId>
    var headers: seq<Header>
    var entries: seq<Entry>
    var trips: map<TripId, Trip>
    var holds: map<HoldId, Hold>
    var tickets: map<TicketId, Ticket>
    var payments: map<TxnRef, Payment>
    var quotas: map<(Role, Direction), int>

    constructor (quotas: map<(Role, Direction), int>)
      ensures View() == Db(EMPTY_LEDGER, map[], map[], map[], map[], quotas)
    {
      wallets, headers, entries := {Revenue, Liability}, [], [];
      trips, holds, tickets, payments := map[], map[], map[], map[];
      this.quotas := quotas;
    }

    function View(): Db
      reads this
    {
      Db(Ledger(wallets, headers, entries), trips, holds, tickets, payments, quotas)
    }

    /** Ends a transaction without its changes. */
    method Rollback(begun: Db)
      modifies this
      ensures View() == begun
    {
      wallets, headers, entries := begun.ledger.wallets, begun.ledger.headers, begun.ledger.entries;
      trips, holds, tickets, payments, quotas := begun.trips, begun.holds, begun.tickets, begun.payments, begun.quotas;
    }

    /** Ends a transaction: the changes stay only if the commit goes through. */
    method Commit(begun: Db, commits: bool) returns (r: Result<()>)
      modifies this
      ensures (View(), r) == WithTransaction(begun, Ok(old(View())), commits)
    {
      if !commits {
        Rollback(begun);
        return Err(TransactionCommit);
      }
      return Ok(());
    }
  }
}
