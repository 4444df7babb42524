/** Transfers interleaved one statement at a time: row locks, balance reads and
    inserts of any number of transactions in any order, under read-committed
    visibility (backend/internal/wallet/service.go).  A transaction may run several
    transfers before it commits, as a batch confirmation does. */
module LedgerInterleaving {
  import opened Ledgers
  import opened LockOrder
  import opened Sums

  type Pid = nat

  datatype Move = Move(sender: WalletId, receiver: WalletId, amount: int)

  datatype Phase =
    | Start
    | First                               // the first wallet is locked
    | Both                                // so is the second
    | SenderRead(senderBalance: int)
    | BothRead(senderBalance: int, receiverBalance: int)
    | Debited(senderBalance: int, receiverBalance: int)

  datatype Status = Active | Committed | Aborted

  /** `done` transfers are complete; `phase` is where the next one stands. */
  datatype Proc = Proc(done: nat, phase: Phase, status: Status)

  /** `rows` are in the order of insertion; `txn` of a row is its transaction. */
  datatype Sys = Sys(rows: seq<Entry>, locks: map<WalletId, Pid>, procs: map<Pid, Proc>)

  /** What the transactions run, and the order of the wallet identifiers. */
  datatype Load = Load(programs: map<Pid, seq<Move>>, idOf: map<WalletId, nat>)

  datatype Act = LockFirst | LockSecond | ReadSender | ReadReceiver | Debit | Credit | Commit | Abort

  // ----- what a transaction sees

  function Visible(rows: seq<Entry>, seen: set<Pid>): seq<Entry> {
    if rows == [] then []
    else
      var init, last := Visible(rows[..|rows| - 1], seen), rows[|rows| - 1];
      if last.txn in seen then init + [last] else init
  }

  function CommittedPids(s: Sys): set<Pid> {
    set p | p in s.procs && s.procs[p].status == Committed
  }

  function BalanceSeenBy(s: Sys, p: Pid, w: WalletId): int {
    Snapshot(Visible(s.rows, CommittedPids(s) + {p}), w)
  }

  // ----- the steps

  function Current(load: Load, s: Sys, p: Pid): Move
    requires p in s.procs && p in load.programs && s.procs[p].done < |load.programs[p]|
  {
    load.programs[p][s.procs[p].done]
  }

  function IdOf(load: Load, w: WalletId): nat {
    if w in load.idOf then load.idOf[w] else 0
  }

  function FirstOf(load: Load, m: Move): WalletId {
    if IdOf(load, m.sender) > IdOf(load, m.receiver) then m.receiver else m.sender
  }

  function SecondOf(load: Load, m: Move): WalletId {
    if IdOf(load, m.sender) > IdOf(load, m.receiver) then m.sender else m.receiver
  }

  predicate Free(s: Sys, w: WalletId, p: Pid) {
    w !in s.locks || s.locks[w] == p
  }

  predicate Running(load: Load, s: Sys, p: Pid) {
    p in s.procs && p in load.programs && s.procs[p].status == Active && s.procs[p].done <= |load.programs[p]|
  }

  predicate Pending(load: Load, s: Sys, p: Pid) {
    Running(load, s, p) && s.procs[p].done < |load.programs[p]|
  }

  predicate Enabled(load: Load, s: Sys, p: Pid, a: Act) {
    match a
    case LockFirst => Pending(load, s, p) && s.procs[p].phase.Start? && Free(s, FirstOf(load, Current(load, s, p)), p)
    case LockSecond => Pending(load, s, p) && s.procs[p].phase.First? && Free(s, SecondOf(load, Current(load, s, p)), p)
    case ReadSender => Pending(load, s, p) && s.procs[p].phase.Both?
    case ReadReceiver => Pending(load, s, p) && s.procs[p].phase.SenderRead?
    case Debit =>
      && Pending(load, s, p) && s.procs[p].phase.BothRead?
      && (Current(load, s, p).sender.PersonalOf? ==> s.procs[p].phase.senderBalance >= Current(load, s, p).amount)
    case Credit => Pending(load, s, p) && s.procs[p].phase.Debited?
    case Commit => Running(load, s, p) && s.procs[p].done == |load.programs[p]|
    case Abort => Running(load, s, p)
  }

  function At(s: Sys, p: Pid, phase: Phase): map<Pid, Proc>
    requires p in s.procs
  {
    s.procs[p := s.procs[p].(phase := phase)]
  }

  function Unlocked(locks: map<WalletId, Pid>, p: Pid): map<WalletId, Pid> {
    map w | w in locks && locks[w] != p :: locks[w]
  }

  function Do(load: Load, s: Sys, p: Pid, a: Act): Sys
    requires Enabled(load, s, p, a)
  {
    match a
    case LockFirst => s.(locks := s.locks[FirstOf(load, Current(load, s, p)) := p], procs := At(s, p, First))
    case LockSecond => s.(locks := s.locks[SecondOf(load, Current(load, s, p)) := p], procs := At(s, p, Both))
    case ReadSender => s.(procs := At(s, p, SenderRead(BalanceSeenBy(s, p, Current(load, s, p).sender))))
    case ReadReceiver =>
      s.(procs := At(s, p, BothRead(s.procs[p].phase.senderBalance, BalanceSeenBy(s, p, Current(load, s, p).receiver))))
    case Debit =>
      var m, b := Current(load, s, p), s.procs[p].phase;
      s.(rows := s.rows + [Entry(m.sender, -m.amount, p, b.senderBalance - m.amount)],
         procs := At(s, p, Debited(b.senderBalance, b.receiverBalance)))
    case Credit =>
      var m, b := Current(load, s, p), s.procs[p].phase;
      s.(rows := s.rows + [Entry(m.receiver, m.amount, p, b.receiverBalance + m.amount)],
         procs := s.procs[p := Proc(s.procs[p].done + 1, Start, Active)])
    case Commit => s.(locks := Unlocked(s.locks, p), procs := s.procs[p := s.procs[p].(status := Committed)])
    case Abort =>
      s.(rows := Visible(s.rows, s.procs.Keys - {p}), locks := Unlocked(s.locks, p),
         procs := s.procs[p := s.procs[p].(status := Aborted)])
  }

  ghost predicate Initial(load: Load, s: Sys) {
    && s.rows == [] && s.locks == map[]
    && s.procs.Keys == load.programs.Keys
    && (forall p :: p in s.procs ==> s.procs[p] == Proc(0, Start, Active))
  }

  ghost predicate Run(load: Load, ss: seq<Sys>, acts: seq<(Pid, Act)>) {
    && |ss| == |acts| + 1 && Initial(load, ss[0])
    && (forall i :: 0 <= i < |acts| ==>
          Enabled(load, ss[i], acts[i].0, acts[i].1) && ss[i + 1] == Do(load, ss[i], acts[i].0, acts[i].1))
  }

  /** Positive amounts, between different wallets. */
  ghost predicate LoadOk(load: Load) {
    forall p, i :: p in load.programs && 0 <= i < |load.programs[p]| ==>
      load.programs[p][i].amount > 0 && load.programs[p][i].sender != load.programs[p][i].receiver
  }

  // ----- the invariant

  /** Where two rows are on one wallet and the first is hidden, so is the second. */
  ghost predicate HiddenLast(rows: seq<Entry>, seen: set<Pid>) {
    forall i, j :: 0 <= i < j < |rows| && rows[i].wallet == rows[j].wallet && rows[i].txn !in seen ==>
      rows[j].txn !in seen
  }

  /** The net effect of the first `n` transfers of a program, and of the debit of the
      next one when it is already written. */
  function EffectUpTo(prog: seq<Move>, n: nat, w: WalletId): int
    requires n <= |prog|
  {
    if n == 0 then 0
    else EffectUpTo(prog, n - 1, w) + (if prog[n - 1].receiver == w then prog[n - 1].amount else 0)
                                    - (if prog[n - 1].sender == w then prog[n - 1].amount else 0)
  }

  function Effect(load: Load, s: Sys, p: Pid, w: WalletId): int
    requires p in s.procs && p in load.programs && s.procs[p].done <= |load.programs[p]|
  {
    if s.procs[p].status == Aborted then 0
    else
      EffectUpTo(load.programs[p], s.procs[p].done, w) -
      if s.procs[p].phase.Debited? && s.procs[p].done < |load.programs[p]|
        && load.programs[p][s.procs[p].done].sender == w
      then load.programs[p][s.procs[p].done].amount else 0
  }

  ghost predicate Holds(s: Sys, p: Pid, w: WalletId) {
    w in s.locks && s.locks[w] == p
  }

  /** The locks and the balances a running transaction has. */
  ghost predicate LocalOk(load: Load, s: Sys, p: Pid) {
    Pending(load, s, p) ==>
      (var m := Current(load, s, p);
       var phase := s.procs[p].phase;
       && (phase.First? ==> Holds(s, p, FirstOf(load, m)))
       && (!phase.Start? && !phase.First? ==> Holds(s, p, m.sender) && Holds(s, p, m.receiver))
       && (phase.SenderRead? || phase.BothRead? ==> phase.senderBalance == Sum(s.rows, m.sender))
       && (phase.BothRead? || phase.Debited? ==> phase.receiverBalance == Sum(s.rows, m.receiver)))
  }

  ghost predicate RowsLocked(s: Sys) {
    && (forall e :: e in s.rows ==> e.txn in s.procs && s.procs[e.txn].status != Aborted)
    && (forall e :: e in s.rows && s.procs[e.txn].status == Active ==> Holds(s, e.txn, e.wallet))
  }

  ghost predicate LocksLive(s: Sys) {
    forall w :: w in s.locks ==> s.locks[w] in s.procs && s.procs[s.locks[w]].status == Active
  }

  /** `later` may follow `earlier`: the wallet of an uncommitted row stays with its
      transaction. */
  ghost predicate Behind(procs: map<Pid, Proc>, earlier: Entry, later: Entry) {
    earlier.wallet == later.wallet && earlier.txn in procs && procs[earlier.txn].status == Active ==>
      later.txn == earlier.txn
  }

  ghost predicate Grouped(s: Sys) {
    forall i, j :: 0 <= i < j < |s.rows| ==> Behind(s.procs, s.rows[i], s.rows[j])
  }

  /** Where one transaction stands, and that its rows amount to what it has done. */
  ghost predicate ProcOk(load: Load, s: Sys, p: Pid)
    requires p in s.procs && p in load.programs
  {
    && s.procs[p].done <= |load.programs[p]| && LocalOk(load, s, p)
    && (s.procs[p].done == |load.programs[p]| ==> s.procs[p].phase.Start?)
    && (s.procs[p].status == Committed ==> s.procs[p].done == |load.programs[p]|)
    && (forall w :: Sum(Visible(s.rows, {p}), w) == Effect(load, s, p, w))
  }

  ghost predicate RowsOk(s: Sys) {
    && LocksLive(s) && RowsLocked(s) && Grouped(s)
    && Chained(s.rows)
    && (forall e :: e in s.rows && e.wallet.PersonalOf? ==> e.balanceAfter >= 0)
  }

  ghost predicate Inv(load: Load, s: Sys) {
    && s.procs.Keys == load.programs.Keys
    && (forall p :: p in s.procs ==> ProcOk(load, s, p))
    && RowsOk(s)
  }

  // ----- facts about visible rows

  lemma {:induction false} VisibleIn(rows: seq<Entry>, seen: set<Pid>)
    ensures forall e :: e in Visible(rows, seen) <==> e in rows && e.txn in seen
  {
    if rows != [] {
      VisibleIn(rows[..|rows| - 1], seen);
      assert rows == rows[..|rows| - 1] + [rows[|rows| - 1]];
    }
  }

  lemma VisibleAppend(rows: seq<Entry>, e: Entry, seen: set<Pid>)
    ensures Visible(rows + [e], seen) == if e.txn in seen then Visible(rows, seen) + [e] else Visible(rows, seen)
  {
    assert (rows + [e])[..|rows|] == rows;
  }

  /** Rows of a wallet that are all visible add up to all of its rows. */
  lemma {:induction false} AllVisible(rows: seq<Entry>, seen: set<Pid>, w: WalletId)
    requires forall e :: e in rows && e.wallet == w ==> e.txn in seen
    ensures Sum(Visible(rows, seen), w) == Sum(rows, w)
  {
    if rows != [] {
      var init, last := rows[..|rows| - 1], rows[|rows| - 1];
      assert rows == init + [last];
      AllVisible(init, seen, w);
      SumAppend(init, last, w);
      SumAppend(Visible(init, seen), last, w);
    }
  }

  /** Hiding only newest rows leaves running balances that are still sums. */
  lemma {:induction false} VisibleChained(rows: seq<Entry>, seen: set<Pid>)
    requires Chained(rows) && HiddenLast(rows, seen)
    ensures Chained(Visible(rows, seen))
  {
    if rows != [] {
      var init, last := rows[..|rows| - 1], rows[|rows| - 1];
      assert rows == init + [last];
      VisibleChained(init, seen);
      if last.txn in seen {
        forall e | e in init && e.wallet == last.wallet
          ensures e.txn in seen
        {
          var i :| 0 <= i < |init| && init[i] == e;
          assert rows[i] == e && rows[|init|] == last;
        }
        AllVisible(init, seen, last.wallet);
        SumAppend(init, last, last.wallet);
        SnapshotIsSum(Visible(init, seen), last.wallet);
        ChainedAppend(Visible(init, seen), last);
      }
    }
  }

  /** The rows of one set of transactions and of another, disjoint one. */
  lemma {:induction false} VisibleSplit(rows: seq<Entry>, a: set<Pid>, b: set<Pid>, w: WalletId)
    requires a !! b
    ensures Sum(Visible(rows, a + b), w) == Sum(Visible(rows, a), w) + Sum(Visible(rows, b), w)
  {
    if rows != [] {
      var init, last := rows[..|rows| - 1], rows[|rows| - 1];
      VisibleSplit(init, a, b, w);
      SumAppend(Visible(init, a), last, w);
      SumAppend(Visible(init, b), last, w);
      SumAppend(Visible(init, a + b), last, w);
    }
  }

  lemma {:induction false} VisibleTwice(rows: seq<Entry>, a: set<Pid>, b: set<Pid>)
    ensures Visible(Visible(rows, a), b) == Visible(rows, a * b)
  {
    if rows != [] {
      var init, last := rows[..|rows| - 1], rows[|rows| - 1];
      VisibleTwice(init, a, b);
      if last.txn in a {
        VisibleAppend(Visible(init, a), last, b);
      }
    }
  }

  /** With its lock a transaction reads the sum of everything ever posted. */
  lemma LockedReadIsSum(load: Load, s: Sys, p: Pid, w: WalletId)
    requires Inv(load, s) && p in s.procs && s.procs[p].status == Active && Holds(s, p, w)
    ensures BalanceSeenBy(s, p, w) == Sum(s.rows, w)
  {
    var seen := CommittedPids(s) + {p};
    HiddenRowsAreNewest(s, seen);
    VisibleChained(s.rows, seen);
    SnapshotIsSum(Visible(s.rows, seen), w);
    AllVisible(s.rows, seen, w);
  }

  lemma HiddenRowsAreNewest(s: Sys, seen: set<Pid>)
    requires RowsLocked(s) && Grouped(s) && CommittedPids(s) <= seen
    ensures HiddenLast(s.rows, seen)
  {
    forall i, j | 0 <= i < j < |s.rows| && s.rows[i].wallet == s.rows[j].wallet && s.rows[i].txn !in seen
      ensures s.rows[j].txn !in seen
    {
      assert s.rows[i] in s.rows;
      assert Behind(s.procs, s.rows[i], s.rows[j]);
    }
  }

  /** Hiding rows keeps the order of the others. */
  lemma {:induction false} VisiblePosition(rows: seq<Entry>, seen: set<Pid>, i: nat, j: nat) returns (i': nat, j': nat)
    requires i < j < |Visible(rows, seen)|
    ensures i' < j' < |rows| && rows[i'] == Visible(rows, seen)[i] && rows[j'] == Visible(rows, seen)[j]
  {
    var init, last := rows[..|rows| - 1], rows[|rows| - 1];
    var v := Visible(init, seen);
    if j < |v| {
      i', j' := VisiblePosition(init, seen, i, j);
    } else {
      VisibleIn(init, seen);
      assert v[i] in v;
      i' :| 0 <= i' < |init| && init[i'] == v[i];
      j' := |init|;
    }
  }

  /** No personal wallet is overdrawn. */
  lemma {:induction false} NeverOverdrawn(rows: seq<Entry>, w: WalletId)
    requires Chained(rows) && w.PersonalOf?
    requires forall e :: e in rows && e.wallet == w ==> e.balanceAfter >= 0
    ensures Sum(rows, w) >= 0
  {
    if rows != [] {
      if rows[|rows| - 1].wallet != w {
        NeverOverdrawn(rows[..|rows| - 1], w);
      } else {
        assert rows[|rows| - 1] in rows;
      }
    }
  }

  // ----- every step keeps the invariant

  lemma InitialInv(load: Load, s: Sys)
    requires Initial(load, s)
    ensures Inv(load, s)
  {
  }

  /** A transaction that did not move keeps what it knows, as long as its locks, its
      rows and the wallets it holds stay as they were. */
  lemma OtherKept(load: Load, s: Sys, s': Sys, q: Pid)
    requires q in s.procs && q in load.programs && ProcOk(load, s, q)
    requires q in s'.procs && s'.procs[q] == s.procs[q]
    requires forall w :: Holds(s, q, w) ==> Holds(s', q, w) && Sum(s'.rows, w) == Sum(s.rows, w)
    requires forall w :: Sum(Visible(s'.rows, {q}), w) == Sum(Visible(s.rows, {q}), w)
    ensures ProcOk(load, s', q)
  {
    LocalKept(load, s, s', q);
    forall w
      ensures Effect(load, s', q, w) == Effect(load, s, q, w)
    {
      EffectDependsOn(load, s, s', q, w);
    }
  }

  lemma LocalKept(load: Load, s: Sys, s': Sys, q: Pid)
    requires q in s.procs && LocalOk(load, s, q)
    requires q in s'.procs && s'.procs[q] == s.procs[q]
    requires forall w :: Holds(s, q, w) ==> Holds(s', q, w) && Sum(s'.rows, w) == Sum(s.rows, w)
    ensures LocalOk(load, s', q)
  {
  }

  lemma EffectDependsOn(load: Load, s: Sys, s': Sys, q: Pid, w: WalletId)
    requires q in s.procs && q in load.programs && s.procs[q].done <= |load.programs[q]|
    requires q in s'.procs && s'.procs[q] == s.procs[q]
    ensures Effect(load, s', q, w) == Effect(load, s, q, w)
  {
  }

  lemma SameRowsGrouped(s: Sys, s': Sys)
    requires Grouped(s) && s'.rows == s.rows
    requires forall q :: q in s'.procs && s'.procs[q].status == Active ==> q in s.procs && s.procs[q].status == Active
    ensures Grouped(s')
  {
    forall i, j | 0 <= i < j < |s'.rows|
      ensures Behind(s'.procs, s'.rows[i], s'.rows[j])
    {
      assert Behind(s.procs, s.rows[i], s.rows[j]);
    }
  }

  lemma OwnKept(load: Load, s: Sys, s': Sys, p: Pid, phase: Phase)
    requires p in s.procs && p in load.programs && ProcOk(load, s, p)
    requires Pending(load, s, p) && !s.procs[p].phase.Debited? && !phase.Debited?
    requires s'.rows == s.rows && s'.procs == At(s, p, phase) && LocalOk(load, s', p)
    ensures ProcOk(load, s', p)
  {
    forall w
      ensures Effect(load, s', p, w) == Effect(load, s, p, w)
    {
    }
  }

  /** A step of `p` that only takes a lock or reads. */
  lemma QuietStepKeepsInv(load: Load, s: Sys, s': Sys, p: Pid, phase: Phase)
    requires Inv(load, s) && Pending(load, s, p) && !s.procs[p].phase.Debited? && !phase.Debited?
    requires s'.rows == s.rows && s'.procs == At(s, p, phase)
    requires LocksLive(s') && LocalOk(load, s', p)
    requires forall q, w :: Holds(s, q, w) ==> Holds(s', q, w)
    ensures Inv(load, s')
  {
    SameRowsGrouped(s, s');
    forall q | q in s'.procs
      ensures ProcOk(load, s', q)
    {
      if q == p {
        OwnKept(load, s, s', p, phase);
      } else {
        OtherKept(load, s, s', q);
      }
    }
  }

  lemma LockFirstKeepsInv(load: Load, s: Sys, p: Pid)
    requires Inv(load, s) && Enabled(load, s, p, LockFirst)
    ensures Inv(load, Do(load, s, p, LockFirst))
  {
    var s' := Do(load, s, p, LockFirst);
    assert LocalOk(load, s', p);
    QuietStepKeepsInv(load, s, s', p, First);
  }

  lemma LockSecondKeepsInv(load: Load, s: Sys, p: Pid)
    requires Inv(load, s) && Enabled(load, s, p, LockSecond)
    ensures Inv(load, Do(load, s, p, LockSecond))
  {
    var s' := Do(load, s, p, LockSecond);
    assert ProcOk(load, s, p);
    assert LocalOk(load, s', p);
    QuietStepKeepsInv(load, s, s', p, Both);
  }

  lemma ReadingKeepsInv(load: Load, s: Sys, p: Pid, a: Act)
    requires Inv(load, s) && (a.ReadSender? || a.ReadReceiver?) && Enabled(load, s, p, a)
    ensures Inv(load, Do(load, s, p, a))
  {
    var s' := Do(load, s, p, a);
    assert ProcOk(load, s, p);
    LockedReadIsSum(load, s, p, Current(load, s, p).sender);
    LockedReadIsSum(load, s, p, Current(load, s, p).receiver);
    assert LocalOk(load, s', p);
    QuietStepKeepsInv(load, s, s', p, s'.procs[p].phase);
  }

  /** One more row of a locked wallet. */
  ghost predicate Appends(load: Load, s: Sys, s': Sys, p: Pid, e: Entry) {
    && Inv(load, s) && p in s.procs && s.procs[p].status == Active && Holds(s, p, e.wallet)
    && e.txn == p && e.balanceAfter == Sum(s.rows, e.wallet) + e.amount
    && s'.rows == s.rows + [e] && s'.locks == s.locks && p in s'.procs && s'.procs[p].status == Active
    && s'.procs.Keys == s.procs.Keys && (forall q :: q in s.procs && q != p ==> s'.procs[q] == s.procs[q])
  }

  lemma AppendKeepsGrouped(s: Sys, s': Sys, p: Pid, e: Entry)
    requires Grouped(s) && RowsLocked(s) && Holds(s, p, e.wallet) && e.txn == p
    requires s'.rows == s.rows + [e] && p in s.procs && p in s'.procs && s'.procs[p].status == s.procs[p].status
    requires s'.procs.Keys == s.procs.Keys && forall q :: q in s.procs && q != p ==> s'.procs[q] == s.procs[q]
    ensures Grouped(s')
  {
    forall i, j | 0 <= i < j < |s'.rows|
      ensures Behind(s'.procs, s'.rows[i], s'.rows[j])
    {
      assert s.rows[i] in s.rows;
      if j < |s.rows| {
        assert Behind(s.procs, s.rows[i], s.rows[j]);
      }
    }
  }

  lemma AppendKeepsLocks(s: Sys, s': Sys, p: Pid, e: Entry)
    requires LocksLive(s) && RowsLocked(s) && Holds(s, p, e.wallet) && e.txn == p
    requires s'.rows == s.rows + [e] && s'.locks == s.locks && p in s.procs && p in s'.procs
             && s'.procs[p].status == s.procs[p].status
    requires s.procs[p].status == Active
    requires s'.procs.Keys == s.procs.Keys && forall q :: q in s.procs && q != p ==> s'.procs[q] == s.procs[q]
    ensures LocksLive(s') && RowsLocked(s')
  {
  }

  lemma AppendKeepsRows(load: Load, s: Sys, s': Sys, p: Pid, e: Entry)
    requires Appends(load, s, s', p, e) && (e.wallet.PersonalOf? ==> e.balanceAfter >= 0)
    ensures RowsOk(s')
  {
    AppendKeepsGrouped(s, s', p, e);
    AppendKeepsLocks(s, s', p, e);
    SnapshotIsSum(s.rows, e.wallet);
    ChainedAppend(s.rows, e);
  }

  lemma AppendAddsAmount(rows: seq<Entry>, e: Entry, q: Pid, w: WalletId)
    ensures Sum(Visible(rows + [e], {q}), w) ==
            Sum(Visible(rows, {q}), w) + if e.txn == q && e.wallet == w then e.amount else 0
  {
    VisibleAppend(rows, e, {q});
    SumAppend(Visible(rows, {q}), e, w);
  }

  lemma AppendKeepsOther(load: Load, s: Sys, s': Sys, p: Pid, e: Entry, q: Pid)
    requires Appends(load, s, s', p, e) && q in s.procs && q != p
    ensures ProcOk(load, s', q)
  {
    assert ProcOk(load, s, q);
    forall w
      ensures Holds(s, q, w) ==> Sum(s'.rows, w) == Sum(s.rows, w)
      ensures Sum(Visible(s'.rows, {q}), w) == Sum(Visible(s.rows, {q}), w)
    {
      SumAppend(s.rows, e, w);
      AppendAddsAmount(s.rows, e, q, w);
    }
    OtherKept(load, s, s', q);
  }

  lemma DebitKeepsOwn(load: Load, s: Sys, p: Pid)
    requires Enabled(load, s, p, Debit) && ProcOk(load, s, p)
    requires Current(load, s, p).sender != Current(load, s, p).receiver
    ensures ProcOk(load, Do(load, s, p, Debit), p)
  {
    var s' := Do(load, s, p, Debit);
    var e := s'.rows[|s.rows|];
    SumAppend(s.rows, e, Current(load, s, p).receiver);
    forall w
      ensures Sum(Visible(s'.rows, {p}), w) == Effect(load, s', p, w)
    {
      AppendAddsAmount(s.rows, e, p, w);
    }
  }

  lemma DebitKeepsInv(load: Load, s: Sys, p: Pid)
    requires LoadOk(load) && Inv(load, s) && Enabled(load, s, p, Debit)
    ensures Inv(load, Do(load, s, p, Debit))
  {
    var s' := Do(load, s, p, Debit);
    var e := s'.rows[|s.rows|];
    assert ProcOk(load, s, p);
    AppendKeepsRows(load, s, s', p, e);
    DebitKeepsOwn(load, s, p);
    forall q | q in s'.procs && q != p
      ensures ProcOk(load, s', q)
    {
      AppendKeepsOther(load, s, s', p, e, q);
    }
  }

  lemma CreditKeepsOwn(load: Load, s: Sys, p: Pid)
    requires Enabled(load, s, p, Credit) && ProcOk(load, s, p)
    requires Current(load, s, p).sender != Current(load, s, p).receiver
    ensures ProcOk(load, Do(load, s, p, Credit), p)
  {
    var s' := Do(load, s, p, Credit);
    forall w
      ensures Sum(Visible(s'.rows, {p}), w) == Effect(load, s', p, w)
    {
      AppendAddsAmount(s.rows, s'.rows[|s.rows|], p, w);
    }
  }

  lemma CreditKeepsInv(load: Load, s: Sys, p: Pid)
    requires LoadOk(load) && Inv(load, s) && Enabled(load, s, p, Credit)
    ensures Inv(load, Do(load, s, p, Credit))
  {
    var s' := Do(load, s, p, Credit);
    var e := s'.rows[|s.rows|];
    assert ProcOk(load, s, p);
    if e.wallet.PersonalOf? {
      NeverOverdrawn(s.rows, e.wallet);
    }
    AppendKeepsRows(load, s, s', p, e);
    CreditKeepsOwn(load, s, p);
    forall q | q in s'.procs && q != p
      ensures ProcOk(load, s', q)
    {
      AppendKeepsOther(load, s, s', p, e, q);
    }
  }

  lemma CommitKeepsLocks(s: Sys, s': Sys, p: Pid)
    requires LocksLive(s) && RowsLocked(s) && p in s.procs && s'.locks == Unlocked(s.locks, p) && s'.rows == s.rows
    requires s'.procs == s.procs[p := s.procs[p].(status := Committed)]
    ensures LocksLive(s') && RowsLocked(s')
  {
  }

  lemma CommitKeepsInv(load: Load, s: Sys, p: Pid)
    requires Inv(load, s) && Enabled(load, s, p, Commit)
    ensures Inv(load, Do(load, s, p, Commit))
  {
    var s' := Do(load, s, p, Commit);
    SameRowsGrouped(s, s');
    CommitKeepsLocks(s, s', p);
    assert ProcOk(load, s, p);
    forall q | q in s'.procs
      ensures ProcOk(load, s', q)
    {
      if q != p {
        OtherKept(load, s, s', q);
      }
    }
  }

  /** The rows of a running transaction are the newest of their wallets. */
  lemma OwnRowsAreNewest(s: Sys, p: Pid)
    requires RowsLocked(s) && Grouped(s) && p in s.procs && s.procs[p].status == Active
    ensures HiddenLast(s.rows, s.procs.Keys - {p})
  {
    var others := s.procs.Keys - {p};
    forall i, j | 0 <= i < j < |s.rows| && s.rows[i].wallet == s.rows[j].wallet && s.rows[i].txn !in others
      ensures s.rows[j].txn !in others
    {
      assert s.rows[i] in s.rows;
      assert Behind(s.procs, s.rows[i], s.rows[j]);
    }
  }

  lemma AbortKeepsGrouped(s: Sys, s': Sys, p: Pid)
    requires Grouped(s) && s'.rows == Visible(s.rows, s.procs.Keys - {p})
    requires p in s'.procs && s'.procs[p].status == Aborted
    requires forall q :: q in s'.procs && q != p ==> q in s.procs && s'.procs[q] == s.procs[q]
    ensures Grouped(s')
  {
    forall i, j | 0 <= i < j < |s'.rows|
      ensures Behind(s'.procs, s'.rows[i], s'.rows[j])
    {
      var i', j' := VisiblePosition(s.rows, s.procs.Keys - {p}, i, j);
      assert Behind(s.procs, s.rows[i'], s.rows[j']);
    }
  }

  lemma AbortKeepsLocks(s: Sys, s': Sys, p: Pid)
    requires LocksLive(s) && RowsLocked(s) && p in s.procs && s'.locks == Unlocked(s.locks, p)
    requires s'.rows == Visible(s.rows, s.procs.Keys - {p})
    requires s'.procs.Keys == s.procs.Keys && forall q :: q in s.procs && q != p ==> s'.procs[q] == s.procs[q]
    ensures LocksLive(s') && RowsLocked(s')
  {
    VisibleIn(s.rows, s.procs.Keys - {p});
  }

  lemma AbortKeepsRows(load: Load, s: Sys, p: Pid)
    requires Inv(load, s) && Enabled(load, s, p, Abort)
    ensures RowsOk(Do(load, s, p, Abort))
  {
    var s' := Do(load, s, p, Abort);
    AbortKeepsLocks(s, s', p);
    OwnRowsAreNewest(s, p);
    VisibleChained(s.rows, s.procs.Keys - {p});
    VisibleIn(s.rows, s.procs.Keys - {p});
    AbortKeepsGrouped(s, s', p);
  }

  lemma AbortKeepsOther(load: Load, s: Sys, p: Pid, q: Pid)
    requires Inv(load, s) && Enabled(load, s, p, Abort) && q in s.procs && q != p
    ensures ProcOk(load, Do(load, s, p, Abort), q)
  {
    var s' := Do(load, s, p, Abort);
    var others := s.procs.Keys - {p};
    assert ProcOk(load, s, q);
    VisibleTwice(s.rows, others, {q});
    assert others * {q} == {q};
    forall w | Holds(s, q, w)
      ensures Sum(s'.rows, w) == Sum(s.rows, w)
    {
      AllVisible(s.rows, others, w);
    }
    OtherKept(load, s, s', q);
  }

  lemma AbortKeepsOwn(load: Load, s: Sys, p: Pid)
    requires Inv(load, s) && Enabled(load, s, p, Abort)
    ensures ProcOk(load, Do(load, s, p, Abort), p)
  {
    var s' := Do(load, s, p, Abort);
    assert ProcOk(load, s, p);
    VisibleTwice(s.rows, s.procs.Keys - {p}, {p});
    assert (s.procs.Keys - {p}) * {p} == {};
    VisibleIn(s.rows, {});
    forall w
      ensures Sum(Visible(s'.rows, {p}), w) == Effect(load, s', p, w)
    {
      NoRows(Visible(s.rows, {}), w);
    }
  }

  lemma AbortKeepsInv(load: Load, s: Sys, p: Pid)
    requires Inv(load, s) && Enabled(load, s, p, Abort)
    ensures Inv(load, Do(load, s, p, Abort))
  {
    AbortKeepsRows(load, s, p);
    AbortKeepsOwn(load, s, p);
    forall q | q in s.procs && q != p
      ensures ProcOk(load, Do(load, s, p, Abort), q)
    {
      AbortKeepsOther(load, s, p, q);
    }
  }

  lemma StepKeepsInv(load: Load, s: Sys, p: Pid, a: Act)
    requires LoadOk(load) && Inv(load, s) && Enabled(load, s, p, a)
    ensures Inv(load, Do(load, s, p, a))
  {
    match a {
      case LockFirst => LockFirstKeepsInv(load, s, p);
      case LockSecond => LockSecondKeepsInv(load, s, p);
      case ReadSender => ReadingKeepsInv(load, s, p, a);
      case ReadReceiver => ReadingKeepsInv(load, s, p, a);
      case Debit => DebitKeepsInv(load, s, p);
      case Credit => CreditKeepsInv(load, s, p);
      case Commit => CommitKeepsInv(load, s, p);
      case Abort => AbortKeepsInv(load, s, p);
    }
  }

  lemma {:induction false} RunKeepsInv(load: Load, ss: seq<Sys>, acts: seq<(Pid, Act)>, n: nat)
    requires LoadOk(load) && Run(load, ss, acts) && n <= |acts|
    ensures Inv(load, ss[n])
  {
    if n == 0 {
      InitialInv(load, ss[0]);
    } else {
      RunKeepsInv(load, ss, acts, n - 1);
      StepKeepsInv(load, ss[n - 1], acts[n - 1].0, acts[n - 1].1);
    }
  }

  // ----- what readers see

  /** While nobody holds a wallet, its newest row carries the sum of all its rows, and
      every one of them is committed. */
  lemma UnlockedSnapshotIsSum(load: Load, s: Sys, w: WalletId)
    requires Inv(load, s) && w !in s.locks
    ensures Snapshot(s.rows, w) == Sum(s.rows, w) == Snapshot(Visible(s.rows, CommittedPids(s)), w)
    ensures forall e :: e in s.rows && e.wallet == w ==> s.procs[e.txn].status == Committed
  {
    var seen := CommittedPids(s);
    HiddenRowsAreNewest(s, seen);
    VisibleChained(s.rows, seen);
    SnapshotIsSum(s.rows, w);
    SnapshotIsSum(Visible(s.rows, seen), w);
    AllVisible(s.rows, seen, w);
  }

  ghost function Effects(load: Load, ps: set<Pid>, w: WalletId): map<Pid, int>
    requires ps <= load.programs.Keys
  {
    map p | p in ps :: EffectUpTo(load.programs[p], |load.programs[p]|, w)
  }

  lemma {:induction false} CommittedSum(load: Load, s: Sys, ps: set<Pid>, w: WalletId)
    requires Inv(load, s) && ps <= CommittedPids(s)
    ensures Sum(Visible(s.rows, ps), w) == SumMap(Effects(load, ps, w))
  {
    if ps == {} {
      VisibleIn(s.rows, {});
      NoRows(Visible(s.rows, {}), w);
    } else {
      var p :| p in ps;
      var rest := ps - {p};
      CommittedSum(load, s, rest, w);
      VisibleSplit(s.rows, rest, {p}, w);
      assert rest + {p} == ps;
      assert ProcOk(load, s, p);
      SumMapRemove(Effects(load, ps, w), p);
      assert Effects(load, ps, w) - {p} == Effects(load, rest, w);
    }
  }

  /** No update is lost: whatever the interleaving, at every moment the balance a
      reader outside all transactions gets is the sum of what the committed
      transactions moved, and no personal wallet is below zero. */
  lemma CommittedBalance(load: Load, ss: seq<Sys>, acts: seq<(Pid, Act)>, n: nat, w: WalletId)
    requires LoadOk(load) && Run(load, ss, acts) && n <= |acts|
    ensures CommittedPids(ss[n]) <= load.programs.Keys
    ensures var b := Snapshot(Visible(ss[n].rows, CommittedPids(ss[n])), w);
            b == SumMap(Effects(load, CommittedPids(ss[n]), w)) && (w.PersonalOf? ==> b >= 0)
  {
    var s := ss[n];
    var seen := CommittedPids(s);
    RunKeepsInv(load, ss, acts, n);
    CommittedSum(load, s, seen, w);
    HiddenRowsAreNewest(s, seen);
    VisibleChained(s.rows, seen);
    SnapshotIsSum(Visible(s.rows, seen), w);
    VisibleIn(s.rows, seen);
    if w.PersonalOf? {
      NeverOverdrawn(Visible(s.rows, seen), w);
    }
  }

  // ----- nobody waits for ever

  ghost predicate DistinctIds(load: Load) {
    && (forall v, w :: v in load.idOf && w in load.idOf && v != w ==> load.idOf[v] != load.idOf[w])
    && (forall p, i :: p in load.programs && 0 <= i < |load.programs[p]| ==>
        Pair(load.programs[p][i]) <= load.idOf.Keys)
  }

  function Pair(m: Move): set<WalletId> {
    {m.sender, m.receiver}
  }

  /** Each transaction moves money between two wallets only, as a batch of purchases
      by one user does. */
  ghost predicate OnePairEach(load: Load) {
    forall p, i :: p in load.programs && 0 <= i < |load.programs[p]| ==>
      Pair(load.programs[p][i]) == Pair(load.programs[p][0])
  }

  /** The wallet a transaction asks for next. */
  function Wanted(load: Load, s: Sys, p: Pid): WalletId
    requires Pending(load, s, p)
  {
    if s.procs[p].phase.Start? then FirstOf(load, Current(load, s, p)) else SecondOf(load, Current(load, s, p))
  }

  predicate Waits(load: Load, s: Sys, p: Pid) {
    && Pending(load, s, p)
    && (s.procs[p].phase.Start? || s.procs[p].phase.First?)
    && !Free(s, Wanted(load, s, p), p)
  }

  /** The sender cannot pay, so the service itself gives the transaction up. */
  predicate Refused(load: Load, s: Sys, p: Pid) {
    && Pending(load, s, p) && s.procs[p].phase.BothRead?
    && Current(load, s, p).sender.PersonalOf? && s.procs[p].phase.senderBalance < Current(load, s, p).amount
  }

  ghost predicate CanStep(load: Load, s: Sys, p: Pid) {
    Refused(load, s, p) || exists a: Act :: a != Abort && Enabled(load, s, p, a)
  }

  /** A transaction holds the wallets of its pair it has asked for and no others. */
  ghost predicate HeldOk(load: Load, s: Sys, p: Pid) {
    Running(load, s, p) ==>
      && (forall w :: Holds(s, p, w) ==>
            && load.programs[p] != [] && w in Pair(load.programs[p][0])
            && (s.procs[p].done == 0 ==>
                  !s.procs[p].phase.Start? && (s.procs[p].phase.First? ==> w == FirstOf(load, load.programs[p][0]))))
      && (s.procs[p].done > 0 ==> forall w :: w in Pair(load.programs[p][0]) ==> Holds(s, p, w))
  }

  ghost predicate AllHeldOk(load: Load, s: Sys) {
    forall p :: p in s.procs ==> HeldOk(load, s, p)
  }

  lemma OtherHeldKept(load: Load, s: Sys, s': Sys, q: Pid)
    requires HeldOk(load, s, q) && q in s.procs && q in s'.procs && s'.procs[q] == s.procs[q]
    requires forall w :: Holds(s, q, w) <==> Holds(s', q, w)
    ensures HeldOk(load, s', q)
  {
  }

  lemma FirstLockKeepsHeld(load: Load, s: Sys, p: Pid)
    requires Enabled(load, s, p, LockFirst)
    requires HeldOk(load, s, p) && Pair(Current(load, s, p)) == Pair(load.programs[p][0])
    ensures HeldOk(load, Do(load, s, p, LockFirst), p)
  {
    var s' := Do(load, s, p, LockFirst);
    var taken := FirstOf(load, Current(load, s, p));
    assert taken in Pair(Current(load, s, p));
    assert forall w :: Holds(s', p, w) <==> Holds(s, p, w) || w == taken;
  }

  lemma SecondLockKeepsHeld(load: Load, s: Sys, p: Pid)
    requires Enabled(load, s, p, LockSecond)
    requires HeldOk(load, s, p) && Pair(Current(load, s, p)) == Pair(load.programs[p][0])
    ensures HeldOk(load, Do(load, s, p, LockSecond), p)
  {
    var s' := Do(load, s, p, LockSecond);
    var taken := SecondOf(load, Current(load, s, p));
    assert taken in Pair(Current(load, s, p));
    assert forall w :: Holds(s', p, w) <==> Holds(s, p, w) || w == taken;
  }

  lemma CreditKeepsHeld(load: Load, s: Sys, p: Pid)
    requires Enabled(load, s, p, Credit) && HeldOk(load, s, p) && LocalOk(load, s, p)
    requires Pair(Current(load, s, p)) == Pair(load.programs[p][0])
    ensures HeldOk(load, Do(load, s, p, Credit), p)
  {
  }

  lemma OwnHeldKept(load: Load, s: Sys, p: Pid, a: Act)
    requires OnePairEach(load) && DistinctIds(load) && Enabled(load, s, p, a)
    requires HeldOk(load, s, p) && LocalOk(load, s, p)
    ensures HeldOk(load, Do(load, s, p, a), p)
  {
    if s.procs[p].done < |load.programs[p]| {
      assert Pair(Current(load, s, p)) == Pair(load.programs[p][0]);
    }
    match a {
      case LockFirst => FirstLockKeepsHeld(load, s, p);
      case LockSecond => SecondLockKeepsHeld(load, s, p);
      case Credit => CreditKeepsHeld(load, s, p);
      case _ =>
    }
  }

  lemma OthersHold(load: Load, s: Sys, p: Pid, a: Act, q: Pid)
    requires Enabled(load, s, p, a) && q in s.procs && q != p
    ensures var s' := Do(load, s, p, a);
            q in s'.procs && s'.procs[q] == s.procs[q] && forall w :: Holds(s, q, w) <==> Holds(s', q, w)
  {
  }

  lemma StepKeepsHeld(load: Load, s: Sys, p: Pid, a: Act)
    requires OnePairEach(load) && DistinctIds(load) && AllHeldOk(load, s)
    requires Enabled(load, s, p, a) && LocalOk(load, s, p)
    ensures AllHeldOk(load, Do(load, s, p, a))
  {
    var s' := Do(load, s, p, a);
    OwnHeldKept(load, s, p, a);
    forall q | q in s'.procs && q != p
      ensures HeldOk(load, s', q)
    {
      OthersHold(load, s, p, a, q);
      OtherHeldKept(load, s, s', q);
    }
  }

  lemma HeldInRun(load: Load, ss: seq<Sys>, acts: seq<(Pid, Act)>, n: nat)
    requires LoadOk(load) && OnePairEach(load) && DistinctIds(load) && Run(load, ss, acts) && n < |acts|
    requires AllHeldOk(load, ss[n])
    ensures AllHeldOk(load, ss[n + 1])
  {
    RunKeepsInv(load, ss, acts, n);
    StepKeepsHeld(load, ss[n], acts[n].0, acts[n].1);
  }

  lemma {:induction false} RunKeepsHeld(load: Load, ss: seq<Sys>, acts: seq<(Pid, Act)>, n: nat)
    requires LoadOk(load) && OnePairEach(load) && DistinctIds(load) && Run(load, ss, acts) && n <= |acts|
    ensures AllHeldOk(load, ss[n])
  {
    if n > 0 {
      RunKeepsHeld(load, ss, acts, n - 1);
      HeldInRun(load, ss, acts, n - 1);
    }
  }

  /** Who holds what a waiting transaction wants waits itself only for a wallet later
      in the order. */
  lemma HolderWantsMore(load: Load, s: Sys, p: Pid)
    requires LoadOk(load) && OnePairEach(load) && DistinctIds(load) && Inv(load, s) && AllHeldOk(load, s)
    requires Waits(load, s, p)
    ensures var q := s.locks[Wanted(load, s, p)];
            && q in s.procs && s.procs[q].status == Active
            && (Waits(load, s, q) ==> IdOf(load, Wanted(load, s, q)) > IdOf(load, Wanted(load, s, p)))
  {
    var w := Wanted(load, s, p);
    var q := s.locks[w];
    assert HeldOk(load, s, q) && Holds(s, q, w);
    if Waits(load, s, q) {
      assert Pair(Current(load, s, q)) == Pair(load.programs[q][0]);
      assert Wanted(load, s, q) in Pair(load.programs[q][0]);
      assert s.procs[q].done == 0;
    }
  }

  lemma SomeoneStepsHere(load: Load, s: Sys)
    requires LoadOk(load) && OnePairEach(load) && DistinctIds(load) && Inv(load, s) && AllHeldOk(load, s)
    requires exists p :: p in s.procs && s.procs[p].status == Active
    ensures exists p :: p in s.procs && s.procs[p].status == Active && !Waits(load, s, p)
  {
    var active := set p | p in s.procs && s.procs[p].status == Active;
    var p0 :| p0 in s.procs && s.procs[p0].status == Active;
    assert p0 in active;
    var blocker := map p | p in s.procs && Waits(load, s, p) :: s.locks[Wanted(load, s, p)];
    var rank := map p | p in s.procs && Waits(load, s, p) :: IdOf(load, Wanted(load, s, p));
    forall p | p in blocker && p in active
      ensures blocker[p] in active && (blocker[p] in blocker ==> rank[blocker[p]] > rank[p])
    {
      HolderWantsMore(load, s, p);
    }
    SomeoneProceeds(active, blocker, rank);
  }

  /** Transactions over arbitrary pairs of wallets never wait in a circle: whenever
      some have not finished, one of them can take its next step. */
  lemma SomeTransactionSteps(load: Load, ss: seq<Sys>, acts: seq<(Pid, Act)>, n: nat)
    requires LoadOk(load) && OnePairEach(load) && DistinctIds(load) && Run(load, ss, acts) && n <= |acts|
    requires exists p :: p in ss[n].procs && ss[n].procs[p].status == Active
    ensures exists p :: p in ss[n].procs && ss[n].procs[p].status == Active && CanStep(load, ss[n], p)
  {
    RunKeepsInv(load, ss, acts, n);
    RunKeepsHeld(load, ss, acts, n);
    SomeoneStepsHere(load, ss[n]);
    var p :| p in ss[n].procs && ss[n].procs[p].status == Active && !Waits(load, ss[n], p);
    NotWaitingSteps(load, ss[n], p);
  }

  lemma NotWaitingSteps(load: Load, s: Sys, p: Pid)
    requires Inv(load, s) && p in s.procs && s.procs[p].status == Active && !Waits(load, s, p)
    ensures CanStep(load, s, p)
  {
    if s.procs[p].done == |load.programs[p]| {
      assert Enabled(load, s, p, Commit);
    } else {
      match s.procs[p].phase
      case Start => assert Enabled(load, s, p, LockFirst);
      case First => assert Enabled(load, s, p, LockSecond);
      case Both => assert Enabled(load, s, p, ReadSender);
      case SenderRead(_) => assert Enabled(load, s, p, ReadReceiver);
      case BothRead(_, _) => assert Refused(load, s, p) || Enabled(load, s, p, Debit);
      case Debited(_, _) => assert Enabled(load, s, p, Credit);
    }
  }

  /** Two transfers out of the revenue wallet in one transaction, and one into it by one of
      the two users. */
  const LOW := PersonalOf(0)
  const HIGH := PersonalOf(1)
  const CROSSED := Load(
    map[0 := [Move(Revenue, HIGH, 5), Move(Revenue, LOW, 5)], 1 := [Move(LOW, Revenue, 5)]],
    map[LOW := 1, Revenue := 2, HIGH := 3])

  /** The first of the two from its first lock to its credit, then the first lock of the
      payment. */
  function Crossing(n: nat): (Pid, Act)
    requires n < 7
  {
    [(0, LockFirst), (0, LockSecond), (0, ReadSender), (0, ReadReceiver), (0, Debit), (0, Credit), (1, LockFirst)][n]
  }

  function Paying(locks: map<WalletId, Pid>, rows: seq<Entry>, done: nat, phase: Phase): Sys {
    Sys(rows, locks, map[0 := Proc(done, phase, Active), 1 := Proc(0, Start, Active)])
  }

  function CrossedState(n: nat): Sys
    requires n <= 7
  {
    var debit, credit := Entry(Revenue, -5, 0, -5), Entry(HIGH, 5, 0, 5);
    var one, two, three := map[Revenue := 0], map[Revenue := 0, HIGH := 0], map[Revenue := 0, HIGH := 0, LOW := 1];
    if n == 0 then Paying(map[], [], 0, Start)
    else if n == 1 then Paying(one, [], 0, First)
    else if n == 2 then Paying(two, [], 0, Both)
    else if n == 3 then Paying(two, [], 0, SenderRead(0))
    else if n == 4 then Paying(two, [], 0, BothRead(0, 0))
    else if n == 5 then Paying(two, [debit], 0, Debited(0, 0))
    else if n == 6 then Paying(two, [debit, credit], 1, Start)
    else Sys([debit, credit], three, map[0 := Proc(1, Start, Active), 1 := Proc(0, First, Active)])
  }

  lemma CrossedLocks(n: nat)
    requires n == 0 || n == 1 || n == 6
    ensures var (p, a) := Crossing(n);
            Enabled(CROSSED, CrossedState(n), p, a) && Do(CROSSED, CrossedState(n), p, a) == CrossedState(n + 1)
  {
  }

  lemma CrossedReads(n: nat)
    requires n == 2 || n == 3
    ensures var (p, a) := Crossing(n);
            Enabled(CROSSED, CrossedState(n), p, a) && Do(CROSSED, CrossedState(n), p, a) == CrossedState(n + 1)
  {
    assert Visible([], CommittedPids(CrossedState(n)) + {0}) == [];
  }

  lemma CrossedWrites(n: nat)
    requires n == 4 || n == 5
    ensures var (p, a) := Crossing(n);
            Enabled(CROSSED, CrossedState(n), p, a) && Do(CROSSED, CrossedState(n), p, a) == CrossedState(n + 1)
  {
  }

  lemma CrossedStep(n: nat)
    requires n < 7
    ensures var (p, a) := Crossing(n);
            Enabled(CROSSED, CrossedState(n), p, a) && Do(CROSSED, CrossedState(n), p, a) == CrossedState(n + 1)
  {
    if n == 2 || n == 3 {
      CrossedReads(n);
    } else if n == 4 || n == 5 {
      CrossedWrites(n);
    } else {
      CrossedLocks(n);
    }
  }

  lemma RunFromSteps(load: Load, ss: seq<Sys>, acts: seq<(Pid, Act)>)
    requires |ss| == |acts| + 1 && Initial(load, ss[0])
    requires forall i :: 0 <= i < |acts| ==>
               Enabled(load, ss[i], acts[i].0, acts[i].1) && ss[i + 1] == Do(load, ss[i], acts[i].0, acts[i].1)
    ensures Run(load, ss, acts)
  {
  }

  lemma CrossedRun(ss: seq<Sys>, acts: seq<(Pid, Act)>)
    requires |ss| == 8 && |acts| == 7
    requires forall i :: 0 <= i < 8 ==> ss[i] == CrossedState(i)
    requires forall i :: 0 <= i < 7 ==> acts[i] == Crossing(i)
    ensures Run(CROSSED, ss, acts)
  {
    assert Initial(CROSSED, ss[0]);
    forall i | 0 <= i < |acts|
      ensures Enabled(CROSSED, ss[i], acts[i].0, acts[i].1) && ss[i + 1] == Do(CROSSED, ss[i], acts[i].0, acts[i].1)
    {
      CrossedStep(i);
    }
    RunFromSteps(CROSSED, ss, acts);
  }

  /** The order within one transfer is not enough for transactions of several transfers:
      one that pays two users in turn, against a payment by one of them, reaches a state
      in which each waits for the other. */
  lemma SeveralPairsCanDeadlock() returns (ss: seq<Sys>, acts: seq<(Pid, Act)>)
    ensures LoadOk(CROSSED) && DistinctIds(CROSSED) && Run(CROSSED, ss, acts)
    ensures var s := ss[|acts|]; s.procs.Keys == {0, 1} && Waits(CROSSED, s, 0) && Waits(CROSSED, s, 1)
  {
    ss := seq(8, n requires 0 <= n < 8 => CrossedState(n));
    acts := seq(7, n requires 0 <= n < 7 => Crossing(n));
    CrossedRun(ss, acts);
    CrossedEnd();
  }

  lemma CrossedEnd()
    ensures LoadOk(CROSSED) && DistinctIds(CROSSED)
    ensures var s := CrossedState(7); s.procs.Keys == {0, 1} && Waits(CROSSED, s, 0) && Waits(CROSSED, s, 1)
  {
  }
}
