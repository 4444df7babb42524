/** Interleaved transfers come to what the committed transactions would have done one
    after the other: for every wallet the committed rows carry the amounts and running
    balances of atomic transfers in the order of the commits
    (backend/internal/wallet/service.go). */
module Serializability {
  import opened Outcomes
  import opened Ledgers
  import opened LedgerInterleaving

  // ----- the rows of one wallet

  function Amounts(es: seq<Entry>, w: WalletId): seq<int> {
    if es == [] then []
    else
      var init, last := Amounts(es[..|es| - 1], w), es[|es| - 1];
      if last.wallet == w then init + [last.amount] else init
  }

  /** The amounts of a wallet's rows and the running balances beside them. */
  function History(es: seq<Entry>, w: WalletId): seq<(int, int)> {
    if es == [] then []
    else
      var init, last := History(es[..|es| - 1], w), es[|es| - 1];
      if last.wallet == w then init + [(last.amount, last.balanceAfter)] else init
  }

  function Added(xs: seq<int>): int {
    if xs == [] then 0 else Added(xs[..|xs| - 1]) + xs[|xs| - 1]
  }

  lemma AmountsAppend(es: seq<Entry>, e: Entry, w: WalletId)
    ensures Amounts(es + [e], w) == Amounts(es, w) + if e.wallet == w then [e.amount] else []
  {
    assert (es + [e])[..|es|] == es;
  }

  lemma AddedAppend(xs: seq<int>, x: int)
    ensures Added(xs + [x]) == Added(xs) + x
  {
    assert (xs + [x])[..|xs|] == xs;
  }

  lemma {:induction false} SumIsAdded(es: seq<Entry>, w: WalletId)
    ensures Sum(es, w) == Added(Amounts(es, w))
  {
    if es != [] {
      SumIsAdded(es[..|es| - 1], w);
      AddedAppend(Amounts(es[..|es| - 1], w), es[|es| - 1].amount);
    }
  }

  /** Running balances that are sums are determined by the amounts. */
  function WithSums(xs: seq<int>): seq<(int, int)> {
    if xs == [] then [] else WithSums(xs[..|xs| - 1]) + [(xs[|xs| - 1], Added(xs))]
  }

  lemma {:induction false} HistoryFromAmounts(es: seq<Entry>, w: WalletId)
    requires Chained(es)
    ensures History(es, w) == WithSums(Amounts(es, w))
  {
    if es != [] {
      var init, last := es[..|es| - 1], es[|es| - 1];
      HistoryFromAmounts(init, w);
      if last.wallet == w {
        SumIsAdded(es, w);
        var xs := Amounts(init, w);
        assert (xs + [last.amount])[..|xs|] == xs;
      }
    }
  }

  /** No balance on the way was negative. */
  ghost predicate NeverNegative(xs: seq<int>) {
    forall k :: 0 <= k <= |xs| ==> Added(xs[..k]) >= 0
  }

  lemma {:induction false} RowsNeverNegative(es: seq<Entry>, w: WalletId)
    requires Chained(es) && forall e :: e in es && e.wallet == w ==> e.balanceAfter >= 0
    ensures NeverNegative(Amounts(es, w))
  {
    if es != [] {
      var init, last := es[..|es| - 1], es[|es| - 1];
      RowsNeverNegative(init, w);
      if last.wallet == w {
        assert last in es;
        SumIsAdded(es, w);
        var xs := Amounts(init, w);
        assert forall k :: 0 <= k <= |xs| ==> (xs + [last.amount])[..k] == xs[..k];
        assert (xs + [last.amount])[..|xs| + 1] == Amounts(es, w);
      }
    }
  }

  // ----- atomic transfers, one after the other

  /** What a transfer writes to a wallet. */
  function Written(m: Move, w: WalletId): seq<int> {
    (if m.sender == w then [-m.amount] else []) + (if m.receiver == w then [m.amount] else [])
  }

  function MoveAmounts(prog: seq<Move>, n: nat, w: WalletId): seq<int>
    requires n <= |prog|
  {
    if n == 0 then [] else MoveAmounts(prog, n - 1, w) + Written(prog[n - 1], w)
  }

  /** The transfers of a program, each whole; only their references are made up. */
  function RunMoves(l: Ledger, prog: seq<Move>, n: nat): Result<Ledger>
    requires n <= |prog|
  {
    if n == 0 then Ok(l)
    else
      match RunMoves(l, prog, n - 1)
      case Err(e) => Err(e)
      case Ok(l1) =>
        Transfer(l1, prog[n - 1].sender, prog[n - 1].receiver, prog[n - 1].amount, TransportBooking, |l1.headers|)
  }

  function ProgramOf(load: Load, p: Pid): seq<Move> {
    if p in load.programs then load.programs[p] else []
  }

  function Serial(load: Load, wallets: set<WalletId>, order: seq<Pid>): Result<Ledger> {
    if order == [] then Ok(Ledger(wallets, [], []))
    else
      match Serial(load, wallets, order[..|order| - 1])
      case Err(e) => Err(e)
      case Ok(l) =>
        var prog := ProgramOf(load, order[|order| - 1]);
        RunMoves(l, prog, |prog|)
  }

  function CommitOrder(acts: seq<(Pid, Act)>): seq<Pid> {
    if acts == [] then []
    else
      var init, last := CommitOrder(acts[..|acts| - 1]), acts[|acts| - 1];
      if last.1 == Commit then init + [last.0] else init
  }

  ghost predicate SerialOk(l: Ledger, wallets: set<WalletId>) {
    l.wallets == wallets && Chained(l.entries)
      && forall i :: 0 <= i < |l.headers| ==> l.headers[i] == Header(TransportBooking, i)
  }

  ghost predicate MovesOk(prog: seq<Move>, wallets: set<WalletId>) {
    forall i :: 0 <= i < |prog| ==> prog[i].amount > 0 && prog[i].sender != prog[i].receiver && Pair(prog[i]) <= wallets
  }

  lemma {:induction false} MoveAmountsPrefix(prog: seq<Move>, n: nat, m: nat, w: WalletId)
    requires n <= m <= |prog|
    ensures MoveAmounts(prog, n, w) <= MoveAmounts(prog, m, w)
  {
    if n < m {
      MoveAmountsPrefix(prog, n, m - 1, w);
    }
  }

  lemma PostWrites(l: Ledger, m: Move, w: WalletId)
    ensures Amounts(Post(l, m.sender, m.receiver, m.amount, TransportBooking, |l.headers|).entries, w) ==
            Amounts(l.entries, w) + Written(m, w)
  {
    var es := Post(l, m.sender, m.receiver, m.amount, TransportBooking, |l.headers|).entries;
    AmountsAppend(l.entries, es[|l.entries|], w);
    AmountsAppend(l.entries + [es[|l.entries|]], es[|l.entries| + 1], w);
  }

  lemma PostKeepsChained(l: Ledger, m: Move)
    requires Chained(l.entries) && m.sender != m.receiver
    ensures Chained(Post(l, m.sender, m.receiver, m.amount, TransportBooking, |l.headers|).entries)
  {
    var es := Post(l, m.sender, m.receiver, m.amount, TransportBooking, |l.headers|).entries;
    var debit, credit := es[|l.entries|], es[|l.entries| + 1];
    ChainedAppend(l.entries, debit);
    SumAppend(l.entries, debit, m.receiver);
    ChainedAppend(l.entries + [debit], credit);
  }

  /** One whole transfer goes through when its debit leaves no negative balance. */
  lemma TransferGoesThrough(l: Ledger, wallets: set<WalletId>, m: Move)
    requires SerialOk(l, wallets) && m.amount > 0 && m.sender != m.receiver && Pair(m) <= wallets
    requires m.sender.PersonalOf? ==> Added(Amounts(l.entries, m.sender) + [-m.amount]) >= 0
    ensures var r := Transfer(l, m.sender, m.receiver, m.amount, TransportBooking, |l.headers|);
            r.Ok? && SerialOk(r.value, wallets)
  {
    AddedAppend(Amounts(l.entries, m.sender), -m.amount);
    SumIsAdded(l.entries, m.sender);
    SnapshotIsSum(l.entries, m.sender);
    assert Header(TransportBooking, |l.headers|) !in l.headers;
    PostKeepsChained(l, m);
  }

  /** The sender can pay for transfer `k` of the program. */
  ghost predicate Covered(l: Ledger, prog: seq<Move>, k: nat)
    requires k < |prog|
  {
    var m := prog[k];
    m.sender.PersonalOf? ==> Added(Amounts(l.entries, m.sender) + MoveAmounts(prog, k, m.sender) + [-m.amount]) >= 0
  }

  ghost predicate AllCovered(l: Ledger, prog: seq<Move>) {
    forall k :: 0 <= k < |prog| ==> Covered(l, prog, k)
  }

  ghost predicate HasRun(l: Ledger, r: Result<Ledger>, wallets: set<WalletId>, prog: seq<Move>, n: nat)
    requires n <= |prog|
  {
    && r.Ok? && SerialOk(r.value, wallets)
    && (forall w :: Amounts(r.value.entries, w) == Amounts(l.entries, w) + MoveAmounts(prog, n, w))
  }

  lemma {:induction false} MovesGoThrough(l: Ledger, wallets: set<WalletId>, prog: seq<Move>, n: nat)
    returns (r: Result<Ledger>)
    requires SerialOk(l, wallets) && MovesOk(prog, wallets) && n <= |prog| && AllCovered(l, prog)
    ensures r == RunMoves(l, prog, n) && HasRun(l, r, wallets, prog, n)
  {
    if n == 0 {
      r := Ok(l);
      NothingRun(l, wallets, prog);
    } else {
      var before := MovesGoThrough(l, wallets, prog, n - 1);
      r := NextGoesThrough(l, before, wallets, prog, n);
    }
  }

  lemma NothingRun(l: Ledger, wallets: set<WalletId>, prog: seq<Move>)
    requires SerialOk(l, wallets)
    ensures HasRun(l, Ok(l), wallets, prog, 0)
  {
    forall w
      ensures Amounts(l.entries, w) == Amounts(l.entries, w) + MoveAmounts(prog, 0, w)
    {
    }
  }

  lemma NextGoesThrough(l: Ledger, r: Result<Ledger>, wallets: set<WalletId>, prog: seq<Move>, n: nat)
    returns (r': Result<Ledger>)
    requires 0 < n <= |prog| && MovesOk(prog, wallets) && AllCovered(l, prog) && HasRun(l, r, wallets, prog, n - 1)
    ensures var m := prog[n - 1];
            r' == Transfer(r.value, m.sender, m.receiver, m.amount, TransportBooking, |r.value.headers|)
    ensures HasRun(l, r', wallets, prog, n)
  {
    var m := prog[n - 1];
    r' := Transfer(r.value, m.sender, m.receiver, m.amount, TransportBooking, |r.value.headers|);
    assert Covered(l, prog, n - 1);
    TransferGoesThrough(r.value, wallets, m);
    forall w
      ensures Amounts(Post(r.value, m.sender, m.receiver, m.amount, TransportBooking, |r.value.headers|).entries, w) ==
              Amounts(l.entries, w) + MoveAmounts(prog, n, w)
    {
      PostWrites(r.value, m, w);
    }
  }

  lemma DebitNotNegative(before: seq<int>, prog: seq<Move>, n: nat)
    requires 0 < n <= |prog| && NeverNegative(before + MoveAmounts(prog, |prog|, prog[n - 1].sender))
    ensures Added(before + MoveAmounts(prog, n - 1, prog[n - 1].sender) + [-prog[n - 1].amount]) >= 0
  {
    var w := prog[n - 1].sender;
    var all := before + MoveAmounts(prog, |prog|, w);
    var upTo := before + MoveAmounts(prog, n - 1, w) + [-prog[n - 1].amount];
    MoveAmountsPrefix(prog, n, |prog|, w);
    assert upTo <= before + MoveAmounts(prog, n, w) <= all;
    assert upTo == all[..|upTo|];
  }

  // ----- the interleaved rows

  /** What the rows of a transaction amount to, while it runs and when it is done. */
  function Doing(load: Load, s: Sys, p: Pid, w: WalletId): seq<int>
    requires p in s.procs && p in load.programs && s.procs[p].done <= |load.programs[p]|
  {
    var prog, proc := load.programs[p], s.procs[p];
    MoveAmounts(prog, proc.done, w) +
    if proc.phase.Debited? && proc.done < |prog| && prog[proc.done].sender == w then [-prog[proc.done].amount] else []
  }

  ghost predicate DoesOk(load: Load, s: Sys, p: Pid)
    requires p in s.procs && p in load.programs && s.procs[p].done <= |load.programs[p]|
  {
    s.procs[p].status != Aborted ==> forall w :: Amounts(Visible(s.rows, {p}), w) == Doing(load, s, p, w)
  }

  ghost predicate AllDoOk(load: Load, s: Sys) {
    forall p :: p in s.procs && p in load.programs && s.procs[p].done <= |load.programs[p]| ==> DoesOk(load, s, p)
  }

  /** Nothing of `q` has changed. */
  lemma OtherDoes(load: Load, s: Sys, s': Sys, q: Pid)
    requires q in s.procs && q in load.programs && s.procs[q].done <= |load.programs[q]| && DoesOk(load, s, q)
    requires q in s'.procs && s'.procs[q] == s.procs[q] && Visible(s'.rows, {q}) == Visible(s.rows, {q})
    ensures DoesOk(load, s', q)
  {
    forall w
      ensures Doing(load, s', q, w) == Doing(load, s, q, w)
    {
    }
  }

  lemma OthersRows(load: Load, s: Sys, p: Pid, a: Act, q: Pid)
    requires Enabled(load, s, p, a) && q in s.procs && q != p
    ensures Visible(Do(load, s, p, a).rows, {q}) == Visible(s.rows, {q})
  {
    var s' := Do(load, s, p, a);
    match a {
      case Debit => VisibleAppend(s.rows, s'.rows[|s.rows|], {q});
      case Credit => VisibleAppend(s.rows, s'.rows[|s.rows|], {q});
      case Abort =>
        VisibleTwice(s.rows, s.procs.Keys - {p}, {q});
        assert (s.procs.Keys - {p}) * {q} == {q};
      case _ =>
    }
  }

  lemma DebitDoes(load: Load, s: Sys, p: Pid)
    requires Enabled(load, s, p, Debit) && DoesOk(load, s, p)
    ensures DoesOk(load, Do(load, s, p, Debit), p)
  {
    var e := Do(load, s, p, Debit).rows[|s.rows|];
    VisibleAppend(s.rows, e, {p});
    forall w
      ensures Amounts(Visible(s.rows, {p}) + [e], w) == Doing(load, Do(load, s, p, Debit), p, w)
    {
      AmountsAppend(Visible(s.rows, {p}), e, w);
    }
  }

  lemma CreditDoes(load: Load, s: Sys, p: Pid)
    requires Enabled(load, s, p, Credit) && DoesOk(load, s, p)
    ensures DoesOk(load, Do(load, s, p, Credit), p)
  {
    var e := Do(load, s, p, Credit).rows[|s.rows|];
    VisibleAppend(s.rows, e, {p});
    forall w
      ensures Amounts(Visible(s.rows, {p}) + [e], w) == Doing(load, Do(load, s, p, Credit), p, w)
    {
      AmountsAppend(Visible(s.rows, {p}), e, w);
    }
  }

  lemma QuietDoes(load: Load, s: Sys, p: Pid, a: Act)
    requires Inv(load, s) && Enabled(load, s, p, a) && !a.Debit? && !a.Credit? && DoesOk(load, s, p)
    ensures DoesOk(load, Do(load, s, p, a), p)
  {
    if a != Abort {
      forall w
        ensures Doing(load, Do(load, s, p, a), p, w) == Doing(load, s, p, w)
      {
      }
    }
  }

  lemma StepDoes(load: Load, s: Sys, p: Pid, a: Act)
    requires Inv(load, s) && AllDoOk(load, s) && Enabled(load, s, p, a)
    ensures AllDoOk(load, Do(load, s, p, a))
  {
    assert DoesOk(load, s, p);
    match a {
      case Debit => DebitDoes(load, s, p);
      case Credit => CreditDoes(load, s, p);
      case _ => QuietDoes(load, s, p, a);
    }
    forall q | q in s.procs && q != p && q in load.programs && s.procs[q].done <= |load.programs[q]|
      ensures DoesOk(load, Do(load, s, p, a), q)
    {
      OthersRows(load, s, p, a, q);
      OthersHold(load, s, p, a, q);
      OtherDoes(load, s, Do(load, s, p, a), q);
    }
  }

  lemma {:induction false} RunDoes(load: Load, ss: seq<Sys>, acts: seq<(Pid, Act)>, n: nat)
    requires LoadOk(load) && Run(load, ss, acts) && n <= |acts|
    ensures AllDoOk(load, ss[n])
  {
    if n > 0 {
      RunDoes(load, ss, acts, n - 1);
      RunKeepsInv(load, ss, acts, n - 1);
      StepDoes(load, ss[n - 1], acts[n - 1].0, acts[n - 1].1);
    }
  }

  // ----- commits

  /** The rows of one more transaction come after all rows of the others, wallet by
      wallet, when none of theirs follows one of its own. */
  lemma {:induction false} NewestLast(rows: seq<Entry>, seen: set<Pid>, p: Pid, w: WalletId)
    requires p !in seen
    requires forall i, j :: 0 <= i < j < |rows| && rows[i].wallet == rows[j].wallet && rows[i].txn == p ==>
             rows[j].txn == p
    ensures Amounts(Visible(rows, seen + {p}), w) == Amounts(Visible(rows, seen), w) + Amounts(Visible(rows, {p}), w)
  {
    if rows != [] {
      var init, last := rows[..|rows| - 1], rows[|rows| - 1];
      NewestLast(init, seen, p, w);
      AmountsVisible(rows, seen + {p}, w);
      AmountsVisible(rows, seen, w);
      AmountsVisible(rows, {p}, w);
      if last.wallet == w && last.txn in seen {
        NoneBeforeLast(rows, p, w);
      }
    }
  }

  lemma AmountsVisible(rows: seq<Entry>, seen: set<Pid>, w: WalletId)
    requires rows != []
    ensures var init, last := rows[..|rows| - 1], rows[|rows| - 1];
            Amounts(Visible(rows, seen), w) ==
            Amounts(Visible(init, seen), w) + if last.txn in seen && last.wallet == w then [last.amount] else []
  {
    AmountsAppend(Visible(rows[..|rows| - 1], seen), rows[|rows| - 1], w);
  }

  lemma NoneBeforeLast(rows: seq<Entry>, p: Pid, w: WalletId)
    requires rows != [] && rows[|rows| - 1].wallet == w && rows[|rows| - 1].txn != p
    requires forall i, j :: 0 <= i < j < |rows| && rows[i].wallet == rows[j].wallet && rows[i].txn == p ==>
             rows[j].txn == p
    ensures Amounts(Visible(rows[..|rows| - 1], {p}), w) == []
  {
    var init, last := rows[..|rows| - 1], rows[|rows| - 1];
    forall e | e in Visible(init, {p})
      ensures e.wallet != w
    {
      VisibleIn(init, {p});
      var i :| 0 <= i < |init| && init[i] == e;
      assert rows[i] == e && rows[|init|] == last;
    }
    NoAmounts(Visible(init, {p}), w);
  }

  lemma {:induction false} NoAmounts(es: seq<Entry>, w: WalletId)
    requires forall e :: e in es ==> e.wallet != w
    ensures Amounts(es, w) == []
  {
    if es != [] {
      assert es[|es| - 1] in es;
      NoAmounts(es[..|es| - 1], w);
    }
  }

  lemma OwnRowsLast(s: Sys, p: Pid)
    requires Grouped(s) && p in s.procs && s.procs[p].status == Active
    ensures forall i, j :: 0 <= i < j < |s.rows| && s.rows[i].wallet == s.rows[j].wallet && s.rows[i].txn == p ==>
            s.rows[j].txn == p
  {
    forall i, j | 0 <= i < j < |s.rows| && s.rows[i].wallet == s.rows[j].wallet && s.rows[i].txn == p
      ensures s.rows[j].txn == p
    {
      assert Behind(s.procs, s.rows[i], s.rows[j]);
    }
  }

  /** The serial ledger and the committed rows show the same amounts. */
  ghost predicate Agrees(s: Sys, r: Result<Ledger>, wallets: set<WalletId>) {
    && r.Ok? && SerialOk(r.value, wallets)
    && (forall w :: Amounts(r.value.entries, w) == Amounts(Visible(s.rows, CommittedPids(s)), w))
  }

  lemma CommitAppends(load: Load, s: Sys, p: Pid, w: WalletId)
    requires Inv(load, s) && AllDoOk(load, s) && Enabled(load, s, p, Commit)
    ensures var s' := Do(load, s, p, Commit);
            Amounts(Visible(s'.rows, CommittedPids(s')), w) ==
            Amounts(Visible(s.rows, CommittedPids(s)), w) + MoveAmounts(load.programs[p], |load.programs[p]|, w)
  {
    assert CommittedPids(Do(load, s, p, Commit)) == CommittedPids(s) + {p};
    OwnRowsLast(s, p);
    NewestLast(s.rows, CommittedPids(s), p, w);
    assert DoesOk(load, s, p);
    assert Amounts(Visible(s.rows, {p}), w) == Doing(load, s, p, w);
  }

  lemma CommittedNeverNegative(load: Load, s: Sys, w: WalletId)
    requires Inv(load, s) && w.PersonalOf?
    ensures NeverNegative(Amounts(Visible(s.rows, CommittedPids(s)), w))
  {
    var seen := CommittedPids(s);
    HiddenRowsAreNewest(s, seen);
    VisibleChained(s.rows, seen);
    VisibleIn(s.rows, seen);
    RowsNeverNegative(Visible(s.rows, seen), w);
  }

  lemma CommitAgrees(load: Load, s: Sys, p: Pid, r: Result<Ledger>, wallets: set<WalletId>)
    requires LoadOk(load) && Inv(load, s) && AllDoOk(load, s) && Enabled(load, s, p, Commit)
    requires Agrees(s, r, wallets) && MovesOk(load.programs[p], wallets)
    ensures Agrees(Do(load, s, p, Commit), RunMoves(r.value, load.programs[p], |load.programs[p]|), wallets)
  {
    var s', prog := Do(load, s, p, Commit), load.programs[p];
    CommitKeepsInv(load, s, p);
    forall w
      ensures Amounts(r.value.entries, w) + MoveAmounts(prog, |prog|, w) ==
              Amounts(Visible(s'.rows, CommittedPids(s')), w)
    {
      CommitAppends(load, s, p, w);
    }
    forall k | 0 <= k < |prog|
      ensures Covered(r.value, prog, k)
    {
      if prog[k].sender.PersonalOf? {
        CommittedNeverNegative(load, s', prog[k].sender);
        DebitNotNegative(Amounts(r.value.entries, prog[k].sender), prog, k + 1);
      }
    }
    var r' := MovesGoThrough(r.value, wallets, prog, |prog|);
  }

  /** Every other step leaves the committed rows alone. */
  lemma OthersAgree(load: Load, s: Sys, p: Pid, a: Act, r: Result<Ledger>, wallets: set<WalletId>)
    requires Inv(load, s) && Enabled(load, s, p, a) && a != Commit && Agrees(s, r, wallets)
    ensures Agrees(Do(load, s, p, a), r, wallets)
  {
    var s' := Do(load, s, p, a);
    var seen := CommittedPids(s);
    assert CommittedPids(s') == seen;
    match a {
      case Debit => VisibleAppend(s.rows, s'.rows[|s.rows|], seen);
      case Credit => VisibleAppend(s.rows, s'.rows[|s.rows|], seen);
      case Abort =>
        VisibleTwice(s.rows, s.procs.Keys - {p}, seen);
        assert (s.procs.Keys - {p}) * seen == seen;
      case _ =>
    }
    assert Visible(s'.rows, seen) == Visible(s.rows, seen);
  }

  ghost predicate LoadIn(load: Load, wallets: set<WalletId>) {
    forall p :: p in load.programs ==> MovesOk(load.programs[p], wallets)
  }

  lemma {:induction false} SerialAgrees(load: Load, wallets: set<WalletId>, ss: seq<Sys>, acts: seq<(Pid, Act)>, n: nat)
    requires LoadOk(load) && LoadIn(load, wallets) && Run(load, ss, acts) && n <= |acts|
    ensures Agrees(ss[n], Serial(load, wallets, CommitOrder(acts[..n])), wallets)
  {
    if n > 0 {
      var s, p, a := ss[n - 1], acts[n - 1].0, acts[n - 1].1;
      SerialAgrees(load, wallets, ss, acts, n - 1);
      RunKeepsInv(load, ss, acts, n - 1);
      assert acts[..n][..n - 1] == acts[..n - 1];
      var order := CommitOrder(acts[..n - 1]);
      if a == Commit {
        RunDoes(load, ss, acts, n - 1);
        CommitAgrees(load, s, p, Serial(load, wallets, order), wallets);
        assert (order + [p])[..|order|] == order;
      } else {
        OthersAgree(load, s, p, a, Serial(load, wallets, order), wallets);
      }
    }
  }

  /** At every moment of every interleaving, running the committed transactions one
      after the other, each transfer whole, goes through in the order of the commits,
      and leaves in every wallet the same amounts with the same running balances and
      so the same balance as the committed rows show. */
  lemma InterleavingIsSerial(load: Load, wallets: set<WalletId>, ss: seq<Sys>, acts: seq<(Pid, Act)>, n: nat,
      w: WalletId)
    requires LoadOk(load) && LoadIn(load, wallets) && Run(load, ss, acts) && n <= |acts|
    ensures var r := Serial(load, wallets, CommitOrder(acts[..n]));
            var committed := Visible(ss[n].rows, CommittedPids(ss[n]));
            && r.Ok?
            && History(r.value.entries, w) == History(committed, w)
            && Balance(r.value, w) == Snapshot(committed, w)
  {
    var s := ss[n];
    var seen := CommittedPids(s);
    SerialAgrees(load, wallets, ss, acts, n);
    var l := Serial(load, wallets, CommitOrder(acts[..n])).value;
    RunKeepsInv(load, ss, acts, n);
    HiddenRowsAreNewest(s, seen);
    VisibleChained(s.rows, seen);
    HistoryFromAmounts(l.entries, w);
    HistoryFromAmounts(Visible(s.rows, seen), w);
    SnapshotIsSum(l.entries, w);
    SnapshotIsSum(Visible(s.rows, seen), w);
    SumIsAdded(l.entries, w);
    SumIsAdded(Visible(s.rows, seen), w);
  }
}
