/** The double-entry ledger (backend/internal/wallet/service.go): every transfer
    writes a header, a debit row and a credit row, and each row carries the
    running balance of its wallet. */
module Ledgers {
  import opened Outcomes
  import opened Sums

  type UserId = nat

  /** One personal wallet for a user and one wallet for each system name, as the
      unique indexes of the wallets table guarantee. */
  datatype WalletId = PersonalOf(user: UserId) | Revenue | Liability

  datatype TxnKind = TransportBooking | Refund | JazzcashDeposit

  /** Unique in the transactions table. */
  datatype Header = Header(kind: TxnKind, ref: nat)

  /** `txn` is the position of the header the row belongs to. */
  datatype Entry = Entry(wallet: WalletId, amount: int, txn: nat, balanceAfter: int)

  /** Headers and rows are in the order of their creation times. */
  datatype Ledger = Ledger(wallets: set<WalletId>, headers: seq<Header>, entries: seq<Entry>)

  const EMPTY_LEDGER := Ledger({Revenue, Liability}, [], [])

  /** The sum of everything ever posted to `w`. */
  function Sum(es: seq<Entry>, w: WalletId): int {
    if es == [] then 0
    else
      var n := |es| - 1;
      Sum(es[..n], w) + if es[n].wallet == w then es[n].amount else 0
  }

  /** What the services read as a balance: the running balance on the newest row
      of `w`, zero when it has none. */
  function Snapshot(es: seq<Entry>, w: WalletId): int {
    if es == [] then 0
    else
      var n := |es| - 1;
      if es[n].wallet == w then es[n].balanceAfter else Snapshot(es[..n], w)
  }

  function Balance(l: Ledger, w: WalletId): int {
    Snapshot(l.entries, w)
  }

  function OpenWallet(l: Ledger, user: UserId): Ledger {
    l.(wallets := l.wallets + {PersonalOf(user)})
  }

  function Post(l: Ledger, sender: WalletId, receiver: WalletId, amount: int, kind: TxnKind, ref: nat): Ledger {
    var txn := |l.headers|;
    var debit := Entry(sender, -amount, txn, Balance(l, sender) - amount);
    var credit := Entry(receiver, amount, txn, Balance(l, receiver) + amount);
    Ledger(l.wallets, l.headers + [Header(kind, ref)], l.entries + [debit] + [credit])
  }

  /** One transfer, as the calling transaction sees it. */
  function Transfer(l: Ledger, sender: WalletId, receiver: WalletId, amount: int, kind: TxnKind,
      ref: nat): Result<Ledger>
  {
    if amount <= 0 then Err(InvalidInput)
    else if sender !in l.wallets || receiver !in l.wallets then Err(Database)
    else if sender.PersonalOf? && Balance(l, sender) < amount then Err(InsufficientFunds)
    else if Header(kind, ref) in l.headers then Err(UniqueViolation)
    else Ok(Post(l, sender, receiver, amount, kind, ref))
  }

  // ----- what every ledger reached by transfers satisfies

  ghost predicate Chained(es: seq<Entry>) {
    es == [] ||
    (var n := |es| - 1; Chained(es[..n]) && es[n].balanceAfter == Sum(es, es[n].wallet))
  }

  /** Rows 2i and 2i+1 are the debit and the credit of header i. */
  ghost predicate PairAt(es: seq<Entry>, i: nat)
    requires 2 * i + 1 < |es|
  {
    var debit, credit := es[2 * i], es[2 * i + 1];
    debit.txn == credit.txn == i && debit.amount + credit.amount == 0 && credit.amount > 0
      && debit.wallet != credit.wallet
  }

  ghost predicate Paired(l: Ledger) {
    |l.entries| == 2 * |l.headers| && forall i :: 0 <= i < |l.headers| ==> PairAt(l.entries, i)
  }

  ghost predicate UniqueHeaders(hs: seq<Header>) {
    forall i, j :: 0 <= i < j < |hs| ==> hs[i] != hs[j]
  }

  ghost predicate LedgerOk(l: Ledger) {
    && {Revenue, Liability} <= l.wallets
    && (forall e :: e in l.entries ==> e.wallet in l.wallets)
    && Chained(l.entries)
    && Paired(l)
    && UniqueHeaders(l.headers)
    && (forall w :: w in l.wallets && w.PersonalOf? ==> Balance(l, w) >= 0)
  }

  lemma SumAppend(es: seq<Entry>, e: Entry, w: WalletId)
    ensures Sum(es + [e], w) == Sum(es, w) + if e.wallet == w then e.amount else 0
    ensures Snapshot(es + [e], w) == if e.wallet == w then e.balanceAfter else Snapshot(es, w)
  {
    assert (es + [e])[..|es|] == es;
  }

  /** The running balance is the sum of the whole history. */
  lemma {:induction false} SnapshotIsSum(es: seq<Entry>, w: WalletId)
    requires Chained(es)
    ensures Snapshot(es, w) == Sum(es, w)
  {
    if es != [] && es[|es| - 1].wallet != w {
      SnapshotIsSum(es[..|es| - 1], w);
    }
  }

  /** The balances after a transfer between two different wallets. */
  lemma PostBalances(l: Ledger, sender: WalletId, receiver: WalletId, amount: int, kind: TxnKind, ref: nat, w: WalletId)
    requires sender != receiver
    ensures Balance(Post(l, sender, receiver, amount, kind, ref), w) ==
            Balance(l, w) + (if w == receiver then amount else 0) - (if w == sender then amount else 0)
  {
    var l' := Post(l, sender, receiver, amount, kind, ref);
    var n := |l.entries|;
    SumAppend(l.entries + [l'.entries[n]], l'.entries[n + 1], w);
    SumAppend(l.entries, l'.entries[n], w);
  }

  /** A transfer goes through exactly when the amount is positive, both wallets are there,
      a personal sender's whole history covers it, and it was not made before; and which
      error it meets first. */
  lemma TransferAnswers(l: Ledger, sender: WalletId, receiver: WalletId, amount: int, kind: TxnKind, ref: nat)
    requires LedgerOk(l)
    ensures var r := Transfer(l, sender, receiver, amount, kind, ref);
            && (r.Ok? <==>
                && amount > 0 && {sender, receiver} <= l.wallets
                && (sender != Revenue && sender != Liability ==> amount <= Sum(l.entries, sender))
                && (forall i :: 0 <= i < |l.headers| ==> l.headers[i] != Header(kind, ref)))
            && (r.Err? ==>
                  r.error == if amount <= 0 then InvalidInput
                             else if !({sender, receiver} <= l.wallets) then Database
                             else if sender != Revenue && sender != Liability && Sum(l.entries, sender) < amount
                             then InsufficientFunds
                             else UniqueViolation)
  {
    SnapshotIsSum(l.entries, sender);
  }

  lemma ChainedAppend(es: seq<Entry>, e: Entry)
    requires Chained(es) && e.balanceAfter == Snapshot(es, e.wallet) + e.amount
    ensures Chained(es + [e])
  {
    assert (es + [e])[..|es|] == es;
    SnapshotIsSum(es, e.wallet);
    SumAppend(es, e, e.wallet);
  }

  lemma PostKeepsPairs(l: Ledger, sender: WalletId, receiver: WalletId, amount: int, kind: TxnKind, ref: nat)
    requires Paired(l) && sender != receiver && amount > 0
    ensures Paired(Post(l, sender, receiver, amount, kind, ref))
  {
    var l' := Post(l, sender, receiver, amount, kind, ref);
    forall i | 0 <= i < |l'.headers|
      ensures PairAt(l'.entries, i)
    {
      if i < |l.headers| {
        assert PairAt(l.entries, i);
        assert l'.entries[2 * i] == l.entries[2 * i] && l'.entries[2 * i + 1] == l.entries[2 * i + 1];
      }
    }
  }

  /** A committed transfer between different wallets keeps everything the ledger
      promises: rows in balanced pairs, running balances equal to sums, no
      repeated header and no overdrawn personal wallet. */
  lemma TransferKeepsOk(l: Ledger, sender: WalletId, receiver: WalletId, amount: int, kind: TxnKind, ref: nat)
    requires LedgerOk(l) && sender != receiver
    requires Transfer(l, sender, receiver, amount, kind, ref).Ok?
    ensures LedgerOk(Post(l, sender, receiver, amount, kind, ref))
  {
    var l' := Post(l, sender, receiver, amount, kind, ref);
    var n := |l.entries|;
    var debit, credit := l'.entries[n], l'.entries[n + 1];
    ChainedAppend(l.entries, debit);
    SumAppend(l.entries, debit, receiver);
    ChainedAppend(l.entries + [debit], credit);
    PostKeepsPairs(l, sender, receiver, amount, kind, ref);
    forall w | w in l'.wallets && w.PersonalOf?
      ensures Balance(l', w) >= 0
    {
      PostBalances(l, sender, receiver, amount, kind, ref, w);
    }
  }

  /** The code never compares sender and receiver.  The running balance stays the
      sum of the history exactly when they differ: a transfer to oneself leaves
      the snapshot too high by the amount. */
  lemma SnapshotKeptIffWalletsDiffer(l: Ledger, sender: WalletId, receiver: WalletId, amount: int, kind: TxnKind,
      ref: nat)
    requires LedgerOk(l) && Transfer(l, sender, receiver, amount, kind, ref).Ok?
    ensures var l' := Post(l, sender, receiver, amount, kind, ref);
            (forall w :: Balance(l', w) == Sum(l'.entries, w)) <==> sender != receiver
  {
    var l' := Post(l, sender, receiver, amount, kind, ref);
    if sender != receiver {
      TransferKeepsOk(l, sender, receiver, amount, kind, ref);
      forall w
        ensures Balance(l', w) == Sum(l'.entries, w)
      {
        SnapshotIsSum(l'.entries, w);
      }
    } else {
      var n := |l.entries|;
      SumAppend(l.entries, l'.entries[n], sender);
      SumAppend(l.entries + [l'.entries[n]], l'.entries[n + 1], sender);
      SnapshotIsSum(l.entries, sender);
      assert Balance(l', sender) == Sum(l'.entries, sender) + amount;
    }
  }

  // ----- all balances together

  function Total(es: seq<Entry>): int {
    if es == [] then 0 else Total(es[..|es| - 1]) + es[|es| - 1].amount
  }

  ghost function HistorySums(ws: set<WalletId>, es: seq<Entry>): map<WalletId, int> {
    map w | w in ws :: Sum(es, w)
  }

  ghost function Balances(l: Ledger): map<WalletId, int> {
    map w | w in l.wallets :: Balance(l, w)
  }

  ghost function PersonalBalances(l: Ledger): map<WalletId, int> {
    map w | w in l.wallets && w.PersonalOf? :: Balance(l, w)
  }

  lemma {:induction false} SumsOfNothing(ws: set<WalletId>)
    ensures SumMap(HistorySums(ws, [])) == 0
  {
    if ws != {} {
      var w :| w in ws;
      SumMapRemove(HistorySums(ws, []), w);
      assert HistorySums(ws, []) - {w} == HistorySums(ws - {w}, []);
      SumsOfNothing(ws - {w});
    }
  }

  lemma {:induction false} SumsAreTotal(ws: set<WalletId>, es: seq<Entry>)
    requires forall e :: e in es ==> e.wallet in ws
    ensures SumMap(HistorySums(ws, es)) == Total(es)
  {
    if es == [] {
      SumsOfNothing(ws);
    } else {
      var init, e := es[..|es| - 1], es[|es| - 1];
      assert e in es;
      SumsAreTotal(ws, init);
      SumMapRemove(HistorySums(ws, init), e.wallet);
      SumMapRemove(HistorySums(ws, es), e.wallet);
      assert HistorySums(ws, init) - {e.wallet} == HistorySums(ws, es) - {e.wallet};
    }
  }

  lemma {:induction false} PairsCancel(es: seq<Entry>, n: nat)
    requires |es| == 2 * n && forall i :: 0 <= i < n ==> PairAt(es, i)
    ensures Total(es) == 0
  {
    if n > 0 {
      assert PairAt(es, n - 1);
      var rest := es[..2 * n - 2];
      forall i | 0 <= i < n - 1
        ensures PairAt(rest, i)
      {
        assert PairAt(es, i);
      }
      PairsCancel(rest, n - 1);
      assert es[..2 * n - 1][..2 * n - 2] == rest;
    }
  }

  /** Money is only moved: all balances together are always zero, so what users
      hold is what the two system wallets owe. */
  lemma BalancesSumToZero(l: Ledger)
    requires LedgerOk(l)
    ensures SumMap(Balances(l)) == 0
    ensures SumMap(PersonalBalances(l)) == -Balance(l, Revenue) - Balance(l, Liability)
  {
    forall w | w in l.wallets
      ensures Balance(l, w) == Sum(l.entries, w)
    {
      SnapshotIsSum(l.entries, w);
    }
    assert Balances(l) == HistorySums(l.wallets, l.entries);
    SumsAreTotal(l.wallets, l.entries);
    PairsCancel(l.entries, |l.headers|);
    SumMapRemove(Balances(l), Revenue);
    SumMapRemove(Balances(l) - {Revenue}, Liability);
    assert Balances(l) - {Revenue} - {Liability} == PersonalBalances(l);
  }

  lemma OpenWalletKeepsOk(l: Ledger, user: UserId)
    requires LedgerOk(l)
    ensures LedgerOk(OpenWallet(l, user))
  {
    var w := PersonalOf(user);
    if w !in l.wallets {
      SnapshotIsSum(l.entries, w);
      NoRows(l.entries, w);
    }
  }

  lemma {:induction false} NoRows(es: seq<Entry>, w: WalletId)
    requires forall e :: e in es ==> e.wallet != w
    ensures Sum(es, w) == 0
  {
    if es != [] {
      assert es[|es| - 1] in es;
      NoRows(es[..|es| - 1], w);
    }
  }
}
