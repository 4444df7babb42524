/** What booking, payment and clean-up transactions wait for, one statement at a time,
    in any number and any interleaving: rows, advisory locks, and connections of the
    bounded pool.  A transaction keeps its connection and every lock it took until it
    ends (backend/internal/transport/service.go, cleanup.go,
    backend/internal/payment/service.go, backend/internal/wallet/service.go,
    backend/cmd/main.go). */
module BookingLocks {
  import opened Uuids
  import opened Ledgers
  import opened Tables
  import opened LockOrder

  type Pid = nat

  datatype Lock =
    | Advisory(key: nat)
    | PaymentRow(ref: TxnRef)
    | WalletRow(wallet: WalletId)
    | HoldRow(hold: HoldId)
    | TicketRow(ticket: TicketId)
    | TripRow(trip: TripId)

  /** `Touch` is the upsert that finds a system wallet.  It runs on a connection of its
      own, so it waits for whoever holds the row, the asking transaction included, and
      keeps nothing.  `Query` is any other statement sent outside the transaction while
      it is open: it needs a second connection and no lock. */
  datatype Op = Take(lock: Lock) | Touch(lock: Lock) | Query

  datatype Job =
    | Confirming(user: UserId, student: bool, holds: seq<HoldId>, trips: seq<TripId>, transfers: nat)
    | Reaping(hold: HoldId, trip: TripId)
    | Holding(user: UserId, trip: TripId, count: nat)
    | Editing(trip: TripId)
    | Recording(ref: TxnRef)                                     // first phase of a finalisation
    | Crediting(user: UserId)                                    // second phase
    | CardCallback(ref: TxnRef, user: UserId, success: bool)
    | Cancelling(user: UserId, priced: bool, debited: bool, ticket: TicketId, trip: TripId)
    | Releasing(holds: seq<HoldId>, trips: seq<TripId>)
    | TripCancelling(rows: seq<(UserId, bool)>, tickets: seq<TicketId>, trip: TripId)

  /** The hash that picks a user's advisory lock, the identifiers of the wallets, and
      whose each hold is. */
  datatype Site = Site(hash: UserId -> nat, idOf: WalletId -> nat, owner: HoldId -> UserId)

  // ----- the statements that may wait, in order

  /** The two row locks of one transfer. */
  function Both(site: Site, a: WalletId, b: WalletId): seq<Op> {
    if site.idOf(a) > site.idOf(b) then [Take(WalletRow(b)), Take(WalletRow(a))]
    else [Take(WalletRow(a)), Take(WalletRow(b))]
  }

  function Repeat(ops: seq<Op>, n: nat): seq<Op> {
    if n == 0 then [] else ops + Repeat(ops, n - 1)
  }

  function Holds(hs: seq<HoldId>): (r: seq<Op>)
    ensures |r| == |hs|
  {
    seq(|hs|, i requires 0 <= i < |hs| => Take(HoldRow(hs[i])))
  }

  function Trips(ts: seq<TripId>): (r: seq<Op>)
    ensures |r| == |ts|
  {
    seq(|ts|, i requires 0 <= i < |ts| => Take(TripRow(ts[i])))
  }

  /** The user's wallet, then the system wallet, then both again in transfer order. */
  function Funds(site: Site, user: UserId, system: WalletId): seq<Op> {
    [Take(WalletRow(PersonalOf(user))), Touch(WalletRow(system))] + Both(site, system, PersonalOf(user))
  }

  function Tickets(ts: seq<TicketId>): (r: seq<Op>)
    ensures |r| == |ts|
  {
    seq(|ts|, i requires 0 <= i < |ts| => Take(TicketRow(ts[i])))
  }

  /** One ticket of a cancelled trip: is its debit on record, the refund if so, and the
      user's address for the mail. */
  function RefundOf(site: Site, row: (UserId, bool)): seq<Op> {
    var mine := PersonalOf(row.0);
    [Query] +
    (if row.1 then [Touch(WalletRow(Revenue)), Take(WalletRow(mine))] + Both(site, Revenue, mine) else []) +
    [Query]
  }

  function Refunds(site: Site, rows: seq<(UserId, bool)>): seq<Op> {
    if rows == [] then [] else RefundOf(site, rows[0]) + Refunds(site, rows[1..])
  }

  function Plan(site: Site, job: Job): seq<Op> {
    match job
    case Confirming(user, student, holds, trips, transfers) =>
      var mine := WalletRow(PersonalOf(user));
      [Take(Advisory(site.hash(user)))] +
      (if student then [Take(mine), Touch(WalletRow(Revenue)), Take(WalletRow(Revenue))] else []) +
      Holds(holds) + Trips(trips) +
      (if student then Repeat(Both(site, PersonalOf(user), Revenue), transfers) else [])
    case Reaping(hold, trip) => [Take(HoldRow(hold)), Take(TripRow(trip))]
    case Holding(user, trip, count) => [Take(Advisory(site.hash(user)))] + Repeat([Take(TripRow(trip))], count)
    case Editing(trip) => [Take(TripRow(trip))]
    case Recording(ref) => [Take(PaymentRow(ref)), Take(PaymentRow(ref))]
    case Crediting(user) => Funds(site, user, Liability)
    case CardCallback(ref, user, success) =>
      [Take(PaymentRow(ref))] + (if success then Funds(site, user, Liability) else []) + [Query]
    case Cancelling(user, priced, debited, ticket, trip) =>
      (if priced then [Query] + (if debited then Funds(site, user, Revenue) else []) else []) +
      [Take(TicketRow(ticket)), Take(TripRow(trip))]
    case Releasing(holds, trips) => Holds(holds) + Trips(trips)
    case TripCancelling(rows, tickets, trip) => Refunds(site, rows) + Tickets(tickets) + [Take(TripRow(trip))]
  }

  // ----- the machine

  /** How far each transaction in progress has come. */
  type Progress = map<Pid, nat>

  /** `asking` are the transactions that have got a second connection for their next
      statement. */
  datatype State = State(at: Progress, asking: set<Pid>)

  datatype Step = Begin(p: Pid) | Ask(p: Pid) | Advance(p: Pid) | End(p: Pid)

  /** The transactions, their statements, and the size of the pool. */
  datatype Sys = Sys(site: Site, jobs: map<Pid, Job>, plans: map<Pid, seq<Op>>, connections: nat)

  function Of(site: Site, jobs: map<Pid, Job>, connections: nat): Sys {
    Sys(site, jobs, map p | p in jobs :: Plan(site, jobs[p]), connections)
  }

  const START := State(map[], {})

  function PlanOf(sys: Sys, p: Pid): seq<Op> {
    if p in sys.plans then sys.plans[p] else []
  }

  ghost predicate Has(sys: Sys, at: Progress, p: Pid, l: Lock) {
    p in at && exists k :: 0 <= k < at[p] && k < |PlanOf(sys, p)| && PlanOf(sys, p)[k] == Take(l)
  }

  /** The next statement of `p` waits for `q`. */
  ghost predicate WaitsFor(sys: Sys, at: Progress, p: Pid, q: Pid) {
    && p in at && at[p] < |PlanOf(sys, p)|
    && (var op := PlanOf(sys, p)[at[p]]; !op.Query? && Has(sys, at, q, op.lock) && (op.Take? ==> q != p))
  }

  ghost predicate Blocked(sys: Sys, at: Progress, p: Pid) {
    exists q :: WaitsFor(sys, at, p, q)
  }

  predicate Unfinished(sys: Sys, at: Progress, p: Pid) {
    p in at && at[p] < |PlanOf(sys, p)|
  }

  predicate ConnectionFree(sys: Sys, st: State) {
    |st.at| + |st.asking| < sys.connections
  }

  /** A transaction may end at any point, by a commit or by a failure. */
  ghost predicate Enabled(sys: Sys, st: State, s: Step) {
    match s
    case Begin(p) => p in sys.jobs && p !in st.at && ConnectionFree(sys, st)
    case Ask(p) =>
      Unfinished(sys, st.at, p) && !PlanOf(sys, p)[st.at[p]].Take? && p !in st.asking && ConnectionFree(sys, st)
    case Advance(p) =>
      && Unfinished(sys, st.at, p) && !Blocked(sys, st.at, p)
      && (!PlanOf(sys, p)[st.at[p]].Take? ==> p in st.asking)
    case End(p) => p in st.at
  }

  function Next(st: State, s: Step): State {
    match s
    case Begin(p) => st.(at := st.at[p := 0])
    case Ask(p) => st.(asking := st.asking + {p})
    case Advance(p) => if p in st.at then State(st.at[p := st.at[p] + 1], st.asking - {p}) else st
    case End(p) => State(st.at - {p}, st.asking - {p})
  }

  ghost predicate Leads(sys: Sys, st: State, s: Step, st': State) {
    Enabled(sys, st, s) && st' == Next(st, s)
  }

  ghost predicate Run(sys: Sys, sts: seq<State>, steps: seq<Step>) {
    && |sts| == |steps| + 1 && sts[0] == START
    && forall i :: 0 <= i < |steps| ==> Leads(sys, sts[i], steps[i], sts[i + 1])
  }

  /** The transaction has run all its statements, or can get the connection for its
      next one, or can run it. */
  ghost predicate GoesOn(sys: Sys, st: State, p: Pid) {
    p in st.at && (!Unfinished(sys, st.at, p) || Enabled(sys, st, Ask(p)) || Enabled(sys, st, Advance(p)))
  }

  // ----- the order the code keeps to

  /** Confirmations name only holds of their user and take their trips in ascending
      order; releases and trip cancellations follow no order. */
  ghost predicate InOrder(site: Site, job: Job) {
    match job
    case Confirming(user, _, holds, trips, _) =>
      StrictlyAscending(trips) && forall i :: 0 <= i < |holds| ==> site.owner(holds[i]) == user
    case Releasing(_, _) => false
    case TripCancelling(_, _, _) => false
    case _ => true
  }

  function Rank(l: Lock, reaper: bool): nat {
    match l
    case Advisory(_) => 0
    case PaymentRow(_) => 0
    case WalletRow(w) => if w.PersonalOf? then 1 else 2
    case HoldRow(_) => if reaper then 3 else 4
    case TicketRow(_) => 5
    case TripRow(t) => 6 + t
  }

  /** Statement `j` asks for a row that an earlier statement took. */
  ghost predicate Again(plan: seq<Op>, j: nat)
    requires j < |plan|
  {
    exists i :: 0 <= i < j && plan[i] == plan[j] && plan[i].Take?
  }

  ghost predicate Ordered(plan: seq<Op>, reaper: bool) {
    forall k, j :: 0 <= k < j < |plan| && plan[k].Take? && !plan[j].Query? ==>
      Again(plan, j) || Rank(plan[j].lock, reaper) > Rank(plan[k].lock, reaper)
      || (!reaper && plan[k].lock.HoldRow? && plan[j].lock.HoldRow?)
  }

  lemma {:induction false} RepeatIn(ops: seq<Op>, n: nat)
    ensures forall op :: op in Repeat(ops, n) ==> op in ops
  {
    if n > 0 {
      RepeatIn(ops, n - 1);
    }
  }

  /** The part of a confirmation before its transfers. */
  function Locking(site: Site, user: UserId, student: bool, holds: seq<HoldId>, trips: seq<TripId>): seq<Op> {
    [Take(Advisory(site.hash(user)))] +
    (if student then [Take(WalletRow(PersonalOf(user))), Touch(WalletRow(Revenue)), Take(WalletRow(Revenue))] else []) +
    Holds(holds) + Trips(trips)
  }

  lemma LockingOrdered(site: Site, user: UserId, student: bool, holds: seq<HoldId>, trips: seq<TripId>)
    requires StrictlyAscending(trips)
    ensures Ordered(Locking(site, user, student, holds, trips), false)
  {
    var plan := Locking(site, user, student, holds, trips);
    var h := if student then 4 else 1;
    var t := h + |holds|;
    assert forall i :: h <= i < t ==> plan[i] == Take(HoldRow(holds[i - h]));
    assert forall i :: t <= i < |plan| ==> plan[i] == Take(TripRow(trips[i - t]));
  }

  /** `op` may follow `pre`: it asks again for what `pre` took, for a row of higher
      rank, or for none. */
  ghost predicate MayFollow(pre: seq<Op>, op: Op) {
    op.Query? || (op.Take? && op in pre)
      || forall a :: a in pre && a.Take? ==> Rank(op.lock, false) > Rank(a.lock, false)
  }

  lemma OrderedConcat(pre: seq<Op>, post: seq<Op>)
    requires Ordered(pre, false) && Ordered(post, false) && forall op :: op in post ==> MayFollow(pre, op)
    ensures Ordered(pre + post, false)
  {
    var plan, n := pre + post, |pre|;
    forall k, j | 0 <= k < j < |plan| && plan[k].Take? && !plan[j].Query?
      ensures Again(plan, j) || Rank(plan[j].lock, false) > Rank(plan[k].lock, false)
              || (plan[k].lock.HoldRow? && plan[j].lock.HoldRow?)
    {
      if j < n {
        AgainInPrefix(pre, post, j);
      } else {
        assert post[j - n] in post && MayFollow(pre, plan[j]);
        AgainInSuffix(pre, post, j - n);
        if k < n {
          assert pre[k] in pre;
          if plan[j].Take? && plan[j] in pre {
            var i :| 0 <= i < n && pre[i] == plan[j];
            assert plan[i] == plan[j];
          }
        }
      }
    }
  }

  /** Statements that only ask again for what was taken change nothing. */
  lemma OrderedThenAgain(pre: seq<Op>, post: seq<Op>)
    requires Ordered(pre, false) && forall op :: op in post ==> op.Take? && op in pre
    ensures Ordered(pre + post, false)
  {
    var plan, n := pre + post, |pre|;
    forall k, j | 0 <= k < j < |plan| && plan[k].Take? && !plan[j].Query?
      ensures Again(plan, j) || Rank(plan[j].lock, false) > Rank(plan[k].lock, false)
              || (plan[k].lock.HoldRow? && plan[j].lock.HoldRow?)
    {
      if j < n {
        AgainInPrefix(pre, post, j);
      } else {
        assert post[j - n] in post;
        var i :| 0 <= i < n && pre[i] == plan[j];
        assert plan[i] == plan[j];
      }
    }
  }

  lemma AgainInPrefix(pre: seq<Op>, post: seq<Op>, j: nat)
    requires j < |pre|
    ensures Again(pre, j) ==> Again(pre + post, j)
  {
    if Again(pre, j) {
      var i :| 0 <= i < j && pre[i] == pre[j] && pre[i].Take?;
      assert (pre + post)[i] == (pre + post)[j];
    }
  }

  lemma AgainInSuffix(pre: seq<Op>, post: seq<Op>, j: nat)
    requires j < |post|
    ensures Again(post, j) ==> Again(pre + post, |pre| + j)
  {
    if Again(post, j) {
      var i :| 0 <= i < j && post[i] == post[j] && post[i].Take?;
      assert (pre + post)[|pre| + i] == (pre + post)[|pre| + j];
    }
  }

  lemma ConfirmingOrdered(site: Site, job: Job)
    requires job.Confirming? && InOrder(site, job)
    ensures Ordered(Plan(site, job), false)
  {
    var pre := Locking(site, job.user, job.student, job.holds, job.trips);
    var both := Both(site, PersonalOf(job.user), Revenue);
    var post := if job.student then Repeat(both, job.transfers) else [];
    assert Plan(site, job) == pre + post;
    LockingOrdered(site, job.user, job.student, job.holds, job.trips);
    RepeatIn(both, job.transfers);
    if job.student {
      assert pre[1] == Take(WalletRow(PersonalOf(job.user))) && pre[3] == Take(WalletRow(Revenue));
      assert pre[1] in pre && pre[3] in pre;
    }
    OrderedThenAgain(pre, post);
  }

  lemma FundsAloneOrdered(site: Site, user: UserId, system: WalletId)
    requires !system.PersonalOf?
    ensures Ordered(Funds(site, user, system), false)
  {
    var plan := Funds(site, user, system);
    var mine, theirs := Take(WalletRow(PersonalOf(user))), Take(WalletRow(system));
    if site.idOf(system) > site.idOf(PersonalOf(user)) {
      assert plan == [mine, Touch(WalletRow(system)), mine, theirs];
      assert plan[0] == plan[2] && Again(plan, 2);
    } else {
      assert plan == [mine, Touch(WalletRow(system)), theirs, mine];
      assert plan[0] == plan[3] && Again(plan, 3);
    }
  }

  lemma FundsOrdered(site: Site, user: UserId, system: WalletId, before: seq<Op>, after: seq<Op>)
    requires !system.PersonalOf?
    requires before == [] || before == [Query] || exists r :: before == [Take(PaymentRow(r))]
    requires after == [] || after == [Query] || exists t, u :: after == [Take(TicketRow(t)), Take(TripRow(u))]
    ensures Ordered(before + Funds(site, user, system) + after, false)
  {
    FundsAloneOrdered(site, user, system);
    OrderedConcat(before, Funds(site, user, system));
    OrderedConcat(before + Funds(site, user, system), after);
  }

  lemma HoldingOrdered(site: Site, job: Job)
    requires job.Holding?
    ensures Ordered(Plan(site, job), false)
  {
    var plan := Plan(site, job);
    var seat := [Take(TripRow(job.trip))];
    RepeatIn(seat, job.count);
    assert forall j :: 1 <= j < |plan| ==> plan[j] == Repeat(seat, job.count)[j - 1] && plan[j] in seat;
    forall k, j | 0 <= k < j < |plan|
      ensures Again(plan, j) || Rank(plan[j].lock, false) > Rank(plan[k].lock, false)
    {
      if k > 0 {
        assert plan[k] == plan[j];
        assert Again(plan, j);
      }
    }
  }

  /** Every transaction that keeps to the order asks for rows of rising rank, or for
      rows it already has, or it is a confirmation going through its holds. */
  lemma PlanOrdered(site: Site, job: Job)
    requires InOrder(site, job)
    ensures Ordered(Plan(site, job), job.Reaping?)
  {
    match job {
      case Confirming(_, _, _, _, _) => ConfirmingOrdered(site, job);
      case Reaping(_, _) =>
      case Holding(_, _, _) => HoldingOrdered(site, job);
      case Crediting(user) =>
        FundsOrdered(site, user, Liability, [], []);
        assert [] + Funds(site, user, Liability) + [] == Plan(site, job);
      case CardCallback(ref, user, success) =>
        if success {
          FundsOrdered(site, user, Liability, [Take(PaymentRow(ref))], [Query]);
          assert [Take(PaymentRow(ref))] + Funds(site, user, Liability) + [Query] == Plan(site, job);
        }
      case Cancelling(user, priced, debited, ticket, trip) =>
        var after := [Take(TicketRow(ticket)), Take(TripRow(trip))];
        if priced && debited {
          FundsOrdered(site, user, Revenue, [Query], after);
          assert [Query] + Funds(site, user, Revenue) + after == Plan(site, job);
        }
      case Editing(_) =>
      case Recording(_) =>
    }
  }

  // ----- no two transactions have the same row

  ghost predicate Exclusive(sys: Sys, at: Progress) {
    && (forall p :: p in at ==> p in sys.jobs && at[p] <= |PlanOf(sys, p)|)
    && (forall p, q, l :: Has(sys, at, p, l) && Has(sys, at, q, l) ==> p == q)
  }

  ghost predicate StateOk(sys: Sys, st: State) {
    Exclusive(sys, st.at) && st.asking <= st.at.Keys
  }

  lemma HasAfter(sys: Sys, st: State, s: Step, p: Pid, l: Lock)
    requires Enabled(sys, st, s) && Has(sys, Next(st, s).at, p, l)
    ensures Has(sys, st.at, p, l) || (s == Advance(p) && PlanOf(sys, p)[st.at[p]] == Take(l))
  {
  }

  lemma StepKeepsExclusive(sys: Sys, st: State, s: Step)
    requires StateOk(sys, st) && Enabled(sys, st, s)
    ensures StateOk(sys, Next(st, s))
  {
    var at' := Next(st, s).at;
    forall p, q, l | Has(sys, at', p, l) && Has(sys, at', q, l)
      ensures p == q
    {
      HasAfter(sys, st, s, p, l);
      HasAfter(sys, st, s, q, l);
      assert !WaitsFor(sys, st.at, p, q) || s != Advance(p);
      assert !WaitsFor(sys, st.at, q, p) || s != Advance(q);
    }
  }

  lemma {:induction false} RunKeepsExclusive(sys: Sys, sts: seq<State>, steps: seq<Step>, n: nat)
    requires Run(sys, sts, steps) && n <= |steps|
    ensures StateOk(sys, sts[n])
  {
    if n > 0 {
      RunKeepsExclusive(sys, sts, steps, n - 1);
      assert Leads(sys, sts[n - 1], steps[n - 1], sts[n - 1 + 1]);
      StepKeepsExclusive(sys, sts[n - 1], steps[n - 1]);
    }
  }

  // ----- nobody waits in a circle

  ghost predicate AllInOrder(sys: Sys) {
    forall p :: p in sys.jobs ==> InOrder(sys.site, sys.jobs[p]) && PlanOf(sys, p) == Plan(sys.site, sys.jobs[p])
  }

  function RankOf(sys: Sys, at: Progress, p: Pid): nat {
    if p in at && at[p] < |PlanOf(sys, p)| && p in sys.jobs && !PlanOf(sys, p)[at[p]].Query?
    then Rank(PlanOf(sys, p)[at[p]].lock, sys.jobs[p].Reaping?) else 0
  }

  /** Only the reaper and confirmations by the owner take hold rows, and a
      confirmation that did has the owner's advisory lock. */
  lemma HoldTakers(sys: Sys, at: Progress, p: Pid, h: HoldId)
    requires AllInOrder(sys) && p in sys.jobs && p in at && at[p] <= |PlanOf(sys, p)|
    requires Has(sys, at, p, HoldRow(h)) || (at[p] < |PlanOf(sys, p)| && PlanOf(sys, p)[at[p]] == Take(HoldRow(h)))
    ensures sys.jobs[p].Reaping?
            || (sys.jobs[p].Confirming? && Has(sys, at, p, Advisory(sys.site.hash(sys.site.owner(h)))))
  {
    var job := sys.jobs[p];
    var plan := PlanOf(sys, p);
    assert InOrder(sys.site, job);
    var k :| 0 <= k < |plan| && plan[k] == Take(HoldRow(h)) && k <= at[p];
    NoHoldElsewhere(sys.site, job, k);
    if job.Confirming? {
      assert plan[0] == Take(Advisory(sys.site.hash(job.user)));
    }
  }

  lemma HoldingTakesNoHold(site: Site, job: Job, k: nat)
    requires job.Holding? && k < |Plan(site, job)|
    ensures !Plan(site, job)[k].Query? && !Plan(site, job)[k].lock.HoldRow?
  {
    var seat := [Take(TripRow(job.trip))];
    RepeatIn(seat, job.count);
    assert k > 0 ==> Plan(site, job)[k] in Repeat(seat, job.count);
  }

  lemma NoHoldElsewhere(site: Site, job: Job, k: nat)
    requires InOrder(site, job) && k < |Plan(site, job)| && !Plan(site, job)[k].Query?
             && Plan(site, job)[k].lock.HoldRow?
    ensures Plan(site, job)[k].Take?
    ensures job.Reaping? || (job.Confirming? && site.owner(Plan(site, job)[k].lock.hold) == job.user)
  {
    var plan := Plan(site, job);
    match job {
      case Confirming(user, student, holds, trips, transfers) =>
        var pre := Locking(site, user, student, holds, trips);
        var both := Both(site, PersonalOf(user), Revenue);
        RepeatIn(both, transfers);
        assert plan == pre + (if student then Repeat(both, transfers) else []);
        assert forall i :: |pre| <= i < |plan| ==> plan[i] in both;
        var h := if student then 4 else 1;
        assert forall i :: h <= i < h + |holds| ==> pre[i] == Take(HoldRow(holds[i - h]));
        assert forall i :: 0 <= i < |pre| ==> plan[i] == pre[i];
      case Holding(_, _, _) => HoldingTakesNoHold(site, job, k);
      case _ =>
    }
  }

  /** A row the transaction already has makes it wait for nobody. */
  lemma NotAgain(sys: Sys, at: Progress, q: Pid, r: Pid)
    requires Exclusive(sys, at) && WaitsFor(sys, at, q, r)
    ensures !Again(PlanOf(sys, q), at[q])
  {
    var plan, j := PlanOf(sys, q), at[q];
    forall i | 0 <= i < j && plan[i].Take?
      ensures plan[i] != plan[j]
    {
      assert Has(sys, at, q, plan[i].lock);
    }
  }

  /** What a transaction asks for once it has a hold. */
  lemma AfterHold(plan: seq<Op>, reaper: bool, k: nat, j: nat)
    requires Ordered(plan, reaper) && k < j < |plan| && !plan[j].Query? && !Again(plan, j)
    requires plan[k].Take? && plan[k].lock.HoldRow?
    ensures Rank(plan[j].lock, reaper) > (if reaper then 4 else 3)
  {
  }

  lemma HoldWaitRises(sys: Sys, at: Progress, p: Pid, q: Pid)
    requires AllInOrder(sys) && Exclusive(sys, at) && WaitsFor(sys, at, p, q) && PlanOf(sys, p)[at[p]].lock.HoldRow?
    requires Unfinished(sys, at, q) && !PlanOf(sys, q)[at[q]].Query? && !Again(PlanOf(sys, q), at[q])
    ensures RankOf(sys, at, q) > RankOf(sys, at, p)
  {
    var l := PlanOf(sys, p)[at[p]].lock;
    NoHoldElsewhere(sys.site, sys.jobs[p], at[p]);
    HoldTakers(sys, at, p, l.hold);
    HoldTakers(sys, at, q, l.hold);
    PlanOrdered(sys.site, sys.jobs[q]);
    var k :| 0 <= k < at[q] && PlanOf(sys, q)[k] == Take(l);
    AfterHold(PlanOf(sys, q), sys.jobs[q].Reaping?, k, at[q]);
    assert sys.jobs[p].Reaping? || sys.jobs[q].Reaping?;
  }

  /** And once it has any other row. */
  lemma AfterOther(plan: seq<Op>, reaper: bool, k: nat, j: nat)
    requires Ordered(plan, reaper) && k < j < |plan| && !plan[j].Query? && !Again(plan, j)
    requires plan[k].Take? && !plan[k].lock.HoldRow?
    ensures Rank(plan[j].lock, reaper) > Rank(plan[k].lock, false)
  {
  }

  lemma OtherWaitRises(sys: Sys, at: Progress, p: Pid, q: Pid)
    requires AllInOrder(sys) && Exclusive(sys, at) && WaitsFor(sys, at, p, q) && !PlanOf(sys, p)[at[p]].lock.HoldRow?
    requires Unfinished(sys, at, q) && !PlanOf(sys, q)[at[q]].Query? && !Again(PlanOf(sys, q), at[q])
    ensures RankOf(sys, at, q) > RankOf(sys, at, p)
  {
    PlanOrdered(sys.site, sys.jobs[q]);
    var k :| 0 <= k < at[q] && PlanOf(sys, q)[k] == Take(PlanOf(sys, p)[at[p]].lock);
    AfterOther(PlanOf(sys, q), sys.jobs[q].Reaping?, k, at[q]);
  }

  /** The transaction waited for waits, if at all, for a row of higher rank. */
  lemma WaitsRise(sys: Sys, at: Progress, p: Pid, q: Pid, r: Pid)
    requires AllInOrder(sys) && Exclusive(sys, at)
    requires WaitsFor(sys, at, p, q) && WaitsFor(sys, at, q, r)
    ensures RankOf(sys, at, q) > RankOf(sys, at, p)
  {
    NotAgain(sys, at, q, r);
    if PlanOf(sys, p)[at[p]].lock.HoldRow? {
      HoldWaitRises(sys, at, p, q);
    } else {
      OtherWaitRises(sys, at, p, q);
    }
  }

  ghost function Blocker(sys: Sys, at: Progress, p: Pid): Pid
    requires Blocked(sys, at, p)
  {
    var q :| WaitsFor(sys, at, p, q);
    q
  }

  lemma SomeoneMoves(sys: Sys, at: Progress)
    requires AllInOrder(sys) && Exclusive(sys, at) && at != map[]
    ensures exists p :: p in at && !Blocked(sys, at, p)
  {
    var blocker := map p | p in at && Blocked(sys, at, p) :: Blocker(sys, at, p);
    var rank := map p | p in at && Blocked(sys, at, p) :: RankOf(sys, at, p);
    forall p | p in blocker && p in at.Keys
      ensures blocker[p] in at.Keys && (blocker[p] in blocker ==> rank[blocker[p]] > rank[p])
    {
      var q := blocker[p];
      assert WaitsFor(sys, at, p, q);
      if q in blocker {
        WaitsRise(sys, at, p, q, blocker[q]);
      }
    }
    SomeoneProceeds(at.Keys, blocker, rank);
  }

  /** No deadlock: in every reachable state with transactions in progress, and with two
      connections in the pool for each of them, one of them can go on. */
  lemma NeverAllWaiting(sys: Sys, sts: seq<State>, steps: seq<Step>, n: nat)
    requires AllInOrder(sys) && Run(sys, sts, steps) && n <= |steps|
    requires sts[n].at != map[] && 2 * |sts[n].at| <= sys.connections
    ensures exists p :: GoesOn(sys, sts[n], p)
  {
    RunKeepsExclusive(sys, sts, steps, n);
    SomeoneGoesOn(sys, sts[n]);
  }

  lemma SomeoneGoesOn(sys: Sys, st: State)
    requires AllInOrder(sys) && StateOk(sys, st) && st.at != map[] && 2 * |st.at| <= sys.connections
    ensures exists p :: GoesOn(sys, st, p)
  {
    SomeoneMoves(sys, st.at);
    var p :| p in st.at && !Blocked(sys, st.at, p);
    if p !in st.asking {
      FewerAsk(st, p);
    }
    assert GoesOn(sys, st, p);
  }

  lemma FewerAsk(st: State, p: Pid)
    requires st.asking <= st.at.Keys && p in st.at && p !in st.asking
    ensures |st.asking| < |st.at|
  {
    var rest := st.at.Keys - {p} - st.asking;
    assert st.at.Keys == st.asking + {p} + rest;
    assert |st.at.Keys| == |st.asking| + 1 + |rest|;
  }
}
