/** The wallet service (backend/internal/wallet/service.go), statement by statement. */
module WalletService {
  import opened Outcomes
  import opened Uuids
  import opened Ledgers
  import opened Stores

  class Wallets {
    const store: Store
    const idOf: WalletId -> Uuid  // the identifier of each wallet row

    constructor (store: Store, idOf: WalletId -> Uuid)
      ensures this.store == store && this.idOf == idOf
    {
      this.store, this.idOf := store, idOf;
    }

    /** The balance on the newest row of the wallet, found from the end. */
    method GetWalletBalance(w: WalletId) returns (balance: int)
      ensures balance == Balance(store.View().ledger, w)
    {
      var i := |store.entries|;
      assert store.entries[..i] == store.entries;
      while i > 0
        invariant 0 <= i <= |store.entries|
        invariant Snapshot(store.entries, w) == Snapshot(store.entries[..i], w)
      {
        i := i - 1;
        assert store.entries[..i + 1][..i] == store.entries[..i];
        if store.entries[i].wallet == w {
          return store.entries[i].balanceAfter;
        }
      }
      return 0;
    }

    /** The smaller identifier first. */
    method InLockOrder(sender: WalletId, receiver: WalletId) returns (first: WalletId, second: WalletId)
      ensures (first == sender && second == receiver) || (first == receiver && second == sender)
      ensures idOf(first) <= idOf(second)
    {
      var swap := TextLess(idOf(receiver), idOf(sender));
      if swap {
        return receiver, sender;
      }
      return sender, receiver;
    }

    /** Locks two wallets in the order of their identifiers, reads each balance once,
        and writes a header, a debit row and a credit row. */
    method ExecuteDoubleEntry(sender: WalletId, receiver: WalletId, amount: int, kind: TxnKind, ref: nat)
      returns (r: Result<()>)
      modifies store
      ensures match Transfer(old(store.View()).ledger, sender, receiver, amount, kind, ref)
              case Ok(l) => r == Ok(()) && store.View() == old(store.View()).(ledger := l)
              case Err(e) => r == Err(e) && store.View() == old(store.View())
    {
      if amount <= 0 {
        return Err(InvalidInput);
      }
      var first, second := InLockOrder(sender, receiver);
      if first !in store.wallets {
        return Err(Database);
      }
      if second !in store.wallets {
        return Err(Database);
      }
      var senderWallet := if first == sender then first else second;
      r := MoveLocked(senderWallet, sender, receiver, amount, kind, ref);
    }

    /** With both rows locked and the sender's among them picked out: the balances, the
        checks and the inserts. */
    method MoveLocked(senderWallet: WalletId, sender: WalletId, receiver: WalletId,
        amount: int, kind: TxnKind, ref: nat)
      returns (r: Result<()>)
      requires senderWallet == sender && amount > 0 && {sender, receiver} <= store.wallets
      modifies store
      ensures match Transfer(old(store.View()).ledger, sender, receiver, amount, kind, ref)
              case Ok(l) => r == Ok(()) && store.View() == old(store.View()).(ledger := l)
              case Err(e) => r == Err(e) && store.View() == old(store.View())
    {
      var senderBalance := GetWalletBalance(sender);
      var receiverBalance := GetWalletBalance(receiver);
      if senderWallet != Revenue && senderWallet != Liability {
        if senderBalance < amount {
          return Err(InsufficientFunds);
        }
      }
      if Header(kind, ref) in store.headers {
        return Err(UniqueViolation);
      }
      InsertPair(sender, receiver, amount, kind, ref, senderBalance, receiverBalance);
      return Ok(());
    }

    /** The header, the debit row and the credit row, with the balances read before. */
    method InsertPair(sender: WalletId, receiver: WalletId, amount: int, kind: TxnKind, ref: nat,
        senderBalance: int, receiverBalance: int)
      requires senderBalance == Balance(store.View().ledger, sender)
      requires receiverBalance == Balance(store.View().ledger, receiver)
      modifies store
      ensures store.View() ==
              old(store.View()).(ledger := Post(old(store.View()).ledger, sender, receiver, amount, kind, ref))
    {
      var txn := |store.headers|;
      store.headers := store.headers + [Header(kind, ref)];
      store.entries := store.entries + [Entry(sender, -amount, txn, senderBalance - amount)];
      store.entries := store.entries + [Entry(receiver, amount, txn, receiverBalance + amount)];
    }

    method GetOrCreateWallet(user: UserId)
      modifies store
      ensures store.View() == old(store.View()).(ledger := OpenWallet(old(store.View()).ledger, user))
    {
      store.wallets := store.wallets + {PersonalOf(user)};
    }
  }
}
