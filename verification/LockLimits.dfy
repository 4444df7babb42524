/** What the lock order of `BookingLocks` cannot do without: a transaction that does not
    block itself, holds of one's own, sorted trips, and a large enough pool. */
module LockLimits {
  import opened Ledgers
  import opened Tables
  import opened BookingLocks

  // ----- transactions that wait for themselves

  /** A statement touches a row that the same transaction took before. */
  ghost predicate BlocksItself(plan: seq<Op>) {
    exists i, j :: 0 <= i < j < |plan| && plan[i].Take? && plan[j] == Touch(plan[i].lock)
  }

  lemma BlocksConcat(a: seq<Op>, b: seq<Op>)
    ensures BlocksItself(a + b) <==>
            BlocksItself(a) || BlocksItself(b) || exists l :: Take(l) in a && Touch(l) in b
  {
    var plan := a + b;
    if BlocksItself(a) {
      var i, j :| 0 <= i < j < |a| && a[i].Take? && a[j] == Touch(a[i].lock);
      assert plan[i] == a[i] && plan[j] == a[j];
    }
    if BlocksItself(b) {
      var i, j :| 0 <= i < j < |b| && b[i].Take? && b[j] == Touch(b[i].lock);
      assert plan[|a| + i] == b[i] && plan[|a| + j] == b[j];
    }
    if l :| Take(l) in a && Touch(l) in b {
      var i :| 0 <= i < |a| && a[i] == Take(l);
      var j :| 0 <= j < |b| && b[j] == Touch(l);
      assert plan[i] == a[i] && plan[|a| + j] == b[j];
    }
    if BlocksItself(plan) {
      var i, j :| 0 <= i < j < |plan| && plan[i].Take? && plan[j] == Touch(plan[i].lock);
      if i < |a| <= j {
        assert plan[i] in a && b[j - |a|] in b;
      } else if j < |a| {
        assert a[i] == plan[i] && a[j] == plan[j];
      } else {
        assert b[i - |a|] == plan[i] && b[j - |a|] == plan[j];
      }
    }
  }

  function Debited(rows: seq<(UserId, bool)>): nat {
    if rows == [] then 0 else Debited(rows[1..]) + if rows[0].1 then 1 else 0
  }

  /** What one refund takes and touches. */
  lemma RefundOps(site: Site, row: (UserId, bool))
    ensures !BlocksItself(RefundOf(site, row))
    ensures forall l :: Touch(l) in RefundOf(site, row) <==> row.1 && l == WalletRow(Revenue)
    ensures row.1 ==> Take(WalletRow(Revenue)) in RefundOf(site, row)
    ensures forall l :: Take(l) in RefundOf(site, row) ==> row.1
  {
    var mine := Take(WalletRow(PersonalOf(row.0)));
    var touch, revenue := Touch(WalletRow(Revenue)), Take(WalletRow(Revenue));
    var plan := RefundOf(site, row);
    if !row.1 {
      assert plan == [Query, Query];
    } else if site.idOf(Revenue) > site.idOf(PersonalOf(row.0)) {
      assert plan == [Query, touch, mine, mine, revenue, Query];
      assert plan[1] == touch && plan[4] == revenue;
    } else {
      assert plan == [Query, touch, mine, revenue, mine, Query];
      assert plan[1] == touch && plan[3] == revenue;
    }
  }

  lemma {:induction false} RefundsOps(site: Site, rows: seq<(UserId, bool)>)
    ensures BlocksItself(Refunds(site, rows)) <==> Debited(rows) > 1
    ensures forall l :: Touch(l) in Refunds(site, rows) <==> Debited(rows) > 0 && l == WalletRow(Revenue)
  {
    if rows != [] {
      RefundsOps(site, rows[1..]);
      RefundOps(site, rows[0]);
      BlocksConcat(RefundOf(site, rows[0]), Refunds(site, rows[1..]));
    }
  }

  /** The upsert that looks up the revenue wallet runs outside the transaction, so a
      trip cancellation waits for itself exactly when it has a second refund to pay. */
  lemma TripCancelBlocksItselfIff(site: Site, rows: seq<(UserId, bool)>, tickets: seq<TicketId>, trip: TripId)
    ensures BlocksItself(Plan(site, TripCancelling(rows, tickets, trip))) <==> Debited(rows) > 1
  {
    var last := Tickets(tickets) + [Take(TripRow(trip))];
    RefundsOps(site, rows);
    assert forall l :: Touch(l) !in last;
    assert Plan(site, TripCancelling(rows, tickets, trip)) == Refunds(site, rows) + last;
    BlocksConcat(Refunds(site, rows), last);
  }

  // ----- building runs

  lemma More(sys: Sys, sts: seq<State>, steps: seq<Step>, s: Step) returns (sts': seq<State>, steps': seq<Step>)
    requires Run(sys, sts, steps) && Enabled(sys, sts[|steps|], s)
    ensures Run(sys, sts', steps') && steps' == steps + [s] && sts'[|steps'|] == Next(sts[|steps|], s)
  {
    sts', steps' := sts + [Next(sts[|steps|], s)], steps + [s];
    forall i | 0 <= i < |steps'|
      ensures Leads(sys, sts'[i], steps'[i], sts'[i + 1])
    {
      if i < |steps| {
        EarlierStep(sys, sts, steps, i, sts'[i], steps'[i], sts'[i + 1]);
      }
    }
  }

  lemma EarlierStep(sys: Sys, sts: seq<State>, steps: seq<Step>, i: nat, st: State, s: Step, st': State)
    requires Run(sys, sts, steps) && i < |steps| && st == sts[i] && s == steps[i] && st' == sts[i + 1]
    ensures Leads(sys, st, s, st')
  {
  }

  // ----- alone

  function Alone(p: Pid, n: nat, asking: set<Pid>): State {
    State(map[p := n], asking)
  }

  lemma AloneSize(p: Pid, n: nat)
    ensures |Alone(p, n, {}).at| == 1
  {
    assert Alone(p, n, {}).at.Keys == {p};
  }

  ghost predicate OnlyBy(steps: seq<Step>, p: Pid) {
    forall s :: s in steps ==> s.p == p
  }

  /** Nobody else is there, and `p` gets through all its statements. */
  ghost predicate FinishesAlone(sys: Sys, p: Pid, sts: seq<State>, steps: seq<Step>) {
    && Run(sys, sts, steps) && OnlyBy(steps, p)
    && p in sts[|steps|].at && sts[|steps|].at[p] == |PlanOf(sys, p)|
  }

  /** Whoever else is there, nobody gets beyond a statement that waits for its own
      transaction. */
  lemma {:induction false} NeverPast(sys: Sys, sts: seq<State>, steps: seq<Step>, n: nat, p: Pid, i: nat, j: nat)
    requires Run(sys, sts, steps) && n <= |steps| && i < j < |PlanOf(sys, p)|
    requires PlanOf(sys, p)[i].Take? && PlanOf(sys, p)[j] == Touch(PlanOf(sys, p)[i].lock)
    ensures p in sts[n].at ==> sts[n].at[p] <= j
  {
    if n > 0 {
      NeverPast(sys, sts, steps, n - 1, p, i, j);
      var st, s := sts[n - 1], steps[n - 1];
      EarlierStep(sys, sts, steps, n - 1, st, s, sts[n]);
      if p in st.at && st.at[p] == j {
        assert Has(sys, st.at, p, PlanOf(sys, p)[i].lock);
        assert WaitsFor(sys, st.at, p, p);
      }
    }
  }

  lemma AloneUnblocked(sys: Sys, p: Pid, n: nat)
    requires n < |PlanOf(sys, p)| && !BlocksItself(PlanOf(sys, p))
    ensures !Blocked(sys, Alone(p, n, {}).at, p)
  {
    forall q: Pid
      ensures !WaitsFor(sys, Alone(p, n, {}).at, p, q)
    {
    }
  }

  lemma AloneSteps(sys: Sys, p: Pid, n: nat)
    requires p in sys.jobs && sys.connections >= 2 && n < |PlanOf(sys, p)| && !BlocksItself(PlanOf(sys, p))
    ensures if PlanOf(sys, p)[n].Take? then Leads(sys, Alone(p, n, {}), Advance(p), Alone(p, n + 1, {}))
            else Leads(sys, Alone(p, n, {}), Ask(p), Alone(p, n, {p}))
                 && Leads(sys, Alone(p, n, {p}), Advance(p), Alone(p, n + 1, {}))
  {
    AloneUnblocked(sys, p, n);
    AloneSize(p, n);
    assert map[p := n][p := n + 1] == map[p := n + 1];
  }

  lemma AloneNext(sys: Sys, p: Pid, n: nat, sts: seq<State>, steps: seq<Step>)
    returns (sts': seq<State>, steps': seq<Step>)
    requires p in sys.jobs && sys.connections >= 2 && n < |PlanOf(sys, p)| && !BlocksItself(PlanOf(sys, p))
    requires Run(sys, sts, steps) && OnlyBy(steps, p) && sts[|steps|] == Alone(p, n, {})
    ensures Run(sys, sts', steps') && OnlyBy(steps', p) && sts'[|steps'|] == Alone(p, n + 1, {})
  {
    AloneSteps(sys, p, n);
    if PlanOf(sys, p)[n].Take? {
      sts', steps' := More(sys, sts, steps, Advance(p));
    } else {
      sts', steps' := More(sys, sts, steps, Ask(p));
      sts', steps' := More(sys, sts', steps', Advance(p));
    }
  }

  lemma {:induction false} AloneReaches(sys: Sys, p: Pid, n: nat) returns (sts: seq<State>, steps: seq<Step>)
    requires p in sys.jobs && sys.connections >= 2 && n <= |PlanOf(sys, p)| && !BlocksItself(PlanOf(sys, p))
    ensures Run(sys, sts, steps) && OnlyBy(steps, p) && sts[|steps|] == Alone(p, n, {})
  {
    if n == 0 {
      assert START.at.Keys == {};
      sts, steps := More(sys, [START], [], Begin(p));
    } else {
      sts, steps := AloneReaches(sys, p, n - 1);
      sts, steps := AloneNext(sys, p, n - 1, sts, steps);
    }
  }

  /** With a second connection, a transaction that nobody disturbs has a run to its end
      exactly when it does not block itself. */
  lemma AloneFinishesIff(sys: Sys, p: Pid)
    requires p in sys.jobs && sys.connections >= 2
    ensures (exists sts, steps :: FinishesAlone(sys, p, sts, steps)) <==> !BlocksItself(PlanOf(sys, p))
  {
    var plan := PlanOf(sys, p);
    if BlocksItself(plan) {
      forall sts, steps
        ensures !FinishesAlone(sys, p, sts, steps)
      {
        if FinishesAlone(sys, p, sts, steps) {
          SelfBlockedNeverFinishes(sys, sts, steps, |steps|, p);
        }
      }
    } else {
      var sts, steps := AloneReaches(sys, p, |plan|);
      assert FinishesAlone(sys, p, sts, steps);
    }
  }

  /** One that does block itself finishes in no run at all. */
  lemma SelfBlockedNeverFinishes(sys: Sys, sts: seq<State>, steps: seq<Step>, n: nat, p: Pid)
    requires Run(sys, sts, steps) && n <= |steps| && p in sts[n].at && BlocksItself(PlanOf(sys, p))
    ensures sts[n].at[p] < |PlanOf(sys, p)|
  {
    var plan := PlanOf(sys, p);
    var i, j :| 0 <= i < j < |plan| && plan[i].Take? && plan[j] == Touch(plan[i].lock);
    NeverPast(sys, sts, steps, n, p, i, j);
  }

  // ----- two transactions

  /** The first `a` statements of one and the first `b` of the other ask for different
      rows. */
  ghost predicate Apart(one: seq<Op>, other: seq<Op>, a: nat, b: nat) {
    && a <= |one| && b <= |other|
    && (forall i :: 0 <= i < a ==> one[i].Take?)
    && (forall j :: 0 <= j < b ==> other[j].Take?)
    && (forall i, j :: 0 <= i < a && 0 <= j < b ==> one[i].lock != other[j].lock)
  }

  /** So two transactions can get that far. */
  lemma {:induction false} BothReach(sys: Sys, a: nat, b: nat) returns (sts: seq<State>, steps: seq<Step>)
    requires sys.jobs.Keys == {1, 2} && sys.connections >= 2 && Apart(PlanOf(sys, 1), PlanOf(sys, 2), a, b)
    ensures Run(sys, sts, steps) && sts[|steps|] == State(map[1 := a, 2 := b], {})
    decreases a + b
  {
    if a == 0 && b == 0 {
      sts, steps := [START], [];
      sts, steps := More(sys, sts, steps, Begin(1));
      sts, steps := More(sys, sts, steps, Begin(2));
    } else {
      var step := if a > 0 then Advance(1) else Advance(2);
      var a0, b0 := if a > 0 then a - 1 else a, if a > 0 then b else b - 1;
      sts, steps := BothReach(sys, a0, b0);
      assert forall q :: !WaitsFor(sys, sts[|steps|].at, step.p, q);
      assert Next(sts[|steps|], step) == State(map[1 := a, 2 := b], {});
      sts, steps := More(sys, sts, steps, step);
    }
  }

  /** And wait for each other, when each has what the other asks for next. */
  lemma Crossing(site: Site, one: Job, other: Job, connections: nat, a: nat, b: nat, l: Lock, m: Lock)
    returns (sys: Sys, sts: seq<State>, steps: seq<Step>)
    requires connections >= 2 && Apart(Plan(site, one), Plan(site, other), a, b)
    requires 0 < a < |Plan(site, one)| && 0 < b < |Plan(site, other)|
    requires Plan(site, one)[a - 1] == Take(l) && Plan(site, one)[a] == Take(m)
    requires Plan(site, other)[b - 1] == Take(m) && Plan(site, other)[b] == Take(l)
    ensures sys == Of(site, map[1 := one, 2 := other], connections)
    ensures Run(sys, sts, steps) && sts[|steps|].at.Keys == {1, 2}
    ensures Blocked(sys, sts[|steps|].at, 1) && Blocked(sys, sts[|steps|].at, 2)
  {
    sys := Of(site, map[1 := one, 2 := other], connections);
    assert PlanOf(sys, 1) == Plan(site, one) && PlanOf(sys, 2) == Plan(site, other);
    sts, steps := BothReach(sys, a, b);
    var at := sts[|steps|].at;
    assert Has(sys, at, 1, l) && Has(sys, at, 2, m);
    assert WaitsFor(sys, at, 1, 2) && WaitsFor(sys, at, 2, 1);
  }

  // ----- two transactions out of order

  lemma TwoHoldPlan(site: Site, user: UserId, h1: HoldId, h2: HoldId, trip: TripId)
    ensures Plan(site, Confirming(user, false, [h1, h2], [trip], 0)) ==
            [Take(Advisory(site.hash(user))), Take(HoldRow(h1)), Take(HoldRow(h2)), Take(TripRow(trip))]
  {
  }

  /** Two batches that each name a hold of the other user as well lock what the other
      needs: ownership is checked only after the row is locked. */
  lemma ForeignHoldsCanDeadlock(site: Site, h1: HoldId, h2: HoldId, trip: TripId, connections: nat)
    returns (sys: Sys, sts: seq<State>, steps: seq<Step>)
    requires site.owner(h1) == 1 && site.owner(h2) == 2 && site.hash(1) != site.hash(2) && connections >= 2
    ensures sys == Of(site, map[1 := Confirming(1, false, [h1, h2], [trip], 0),
                                2 := Confirming(2, false, [h2, h1], [trip], 0)], connections)
    ensures Run(sys, sts, steps) && sts[|steps|].at.Keys == {1, 2}
    ensures Blocked(sys, sts[|steps|].at, 1) && Blocked(sys, sts[|steps|].at, 2)
  {
    var one, other := Confirming(1, false, [h1, h2], [trip], 0), Confirming(2, false, [h2, h1], [trip], 0);
    TwoHoldPlan(site, 1, h1, h2, trip);
    TwoHoldPlan(site, 2, h2, h1, trip);
    sys, sts, steps := Crossing(site, one, other, connections, 2, 2, HoldRow(h1), HoldRow(h2));
  }

  /** The statements of a confirmation of two holds over two trips, and of a release. */
  function ConfirmTwo(site: Site, h1: HoldId, h2: HoldId, t1: TripId, t2: TripId): seq<Op> {
    [Take(Advisory(site.hash(1))), Take(HoldRow(h1)), Take(HoldRow(h2)), Take(TripRow(t1)), Take(TripRow(t2))]
  }

  function ReleaseTwo(g1: HoldId, g2: HoldId, t1: TripId, t2: TripId): seq<Op> {
    [Take(HoldRow(g1)), Take(HoldRow(g2)), Take(TripRow(t1)), Take(TripRow(t2))]
  }

  lemma TwoTripPlans(site: Site, h1: HoldId, h2: HoldId, t1: TripId, t2: TripId, g1: HoldId, g2: HoldId)
    ensures Plan(site, Confirming(1, false, [h1, h2], [t1, t2], 0)) == ConfirmTwo(site, h1, h2, t1, t2)
    ensures Plan(site, Releasing([g1, g2], [t2, t1])) == ReleaseTwo(g1, g2, t2, t1)
  {
  }

  lemma ConfirmTwoInOrder(site: Site, h1: HoldId, h2: HoldId, t1: TripId, t2: TripId)
    requires t1 < t2 && site.owner(h1) == site.owner(h2) == 1
    ensures InOrder(site, Confirming(1, false, [h1, h2], [t1, t2], 0))
  {
  }

  lemma TwoTripsApart(site: Site, h1: HoldId, h2: HoldId, t1: TripId, t2: TripId, g1: HoldId, g2: HoldId)
    requires t1 != t2 && {h1, h2} !! {g1, g2}
    ensures Apart(ConfirmTwo(site, h1, h2, t1, t2), ReleaseTwo(g1, g2, t2, t1), 4, 3)
  {
  }

  /** Releases return seats in the order the delete reports the holds, so a release and
      a confirmation in order over the same two trips can wait for each other. */
  lemma ReleaseCanDeadlock(site: Site, h1: HoldId, h2: HoldId, g1: HoldId, g2: HoldId, t1: TripId, t2: TripId,
      connections: nat)
    returns (sys: Sys, sts: seq<State>, steps: seq<Step>)
    requires t1 < t2 && {h1, h2} !! {g1, g2} && site.owner(h1) == site.owner(h2) == 1 && connections >= 2
    ensures sys == Of(site, map[1 := Confirming(1, false, [h1, h2], [t1, t2], 0),
                                2 := Releasing([g1, g2], [t2, t1])], connections)
    ensures InOrder(site, Confirming(1, false, [h1, h2], [t1, t2], 0))
    ensures Run(sys, sts, steps) && sts[|steps|].at.Keys == {1, 2}
    ensures Blocked(sys, sts[|steps|].at, 1) && Blocked(sys, sts[|steps|].at, 2)
  {
    var one, other := Confirming(1, false, [h1, h2], [t1, t2], 0), Releasing([g1, g2], [t2, t1]);
    TwoTripPlans(site, h1, h2, t1, t2, g1, g2);
    TwoTripsApart(site, h1, h2, t1, t2, g1, g2);
    sys, sts, steps := Crossing(site, one, other, connections, 4, 3, TripRow(t1), TripRow(t2));
    ConfirmTwoInOrder(site, h1, h2, t1, t2);
  }

  // ----- the size of the pool

  /** Transactions are open and none can go on. */
  ghost predicate Stopped(sys: Sys, st: State) {
    st.at != map[] && forall p :: !GoesOn(sys, st, p)
  }

  /** Whatever the transactions are, as long as they keep to the order, `n` of them are
      never all stopped with this many connections. */
  ghost predicate AlwaysGoesOn(n: nat, connections: nat) {
    forall sys: Sys, sts: seq<State>, steps: seq<Step> ::
      AllInOrder(sys) && sys.connections == connections && Run(sys, sts, steps) && |sts[|steps|].at| == n ==>
        !Stopped(sys, sts[|steps|])
  }

  const CALLBACK := [Take(PaymentRow(0)), Take(WalletRow(PersonalOf(0))), Touch(WalletRow(Liability)),
                     Take(WalletRow(Liability)), Take(WalletRow(PersonalOf(0))), Query]

  function TopUp(p: Pid): seq<Op> {
    [Take(WalletRow(PersonalOf(p))), Touch(WalletRow(Liability)), Take(WalletRow(Liability)),
     Take(WalletRow(PersonalOf(p)))]
  }

  /** A card callback, and top-ups that need the liability wallet as it does. */
  ghost predicate Crowd(sys: Sys, n: nat) {
    && (forall p: Pid :: p in sys.jobs <==> p < n)
    && (n > 0 ==> PlanOf(sys, 0) == CALLBACK)
    && (forall p :: 0 < p < n ==> PlanOf(sys, p) == TopUp(p))
  }

  /** The callback is at its last statement; `k` top-ups are about to look up the
      liability wallet, and `a` of them have got a connection for it. */
  ghost predicate Waiting(st: State, k: nat, a: nat) {
    && (forall p: Pid :: p in st.at <==> p <= k) && |st.at| == k + 1
    && (forall p :: p in st.at ==> st.at[p] == if p == 0 then 5 else 1)
    && (forall p: Pid :: p in st.asking <==> 0 < p <= a) && |st.asking| == a
  }

  lemma AddKey(at: Progress, p: Pid, i: nat)
    ensures |at[p := i]| == |at| + if p in at then 0 else 1
  {
    assert at[p := i].Keys == at.Keys + {p};
  }

  // ----- the callback

  lemma CallbackBegins(sys: Sys, n: nat)
    requires Crowd(sys, n) && n > 0 && sys.connections >= 1
    ensures Leads(sys, START, Begin(0), Alone(0, 0, {}))
  {
    assert START.at.Keys == {};
  }

  lemma NobodyBlocks(sys: Sys, n: nat, k: nat)
    requires Crowd(sys, n) && n > 0 && k < 5
    ensures !Blocked(sys, map[0 := k], 0)
  {
    forall q: Pid
      ensures !WaitsFor(sys, map[0 := k], 0, q)
    {
    }
  }

  lemma CallbackTakes(sys: Sys, n: nat, k: nat)
    requires Crowd(sys, n) && n > 0 && k < 5 && k != 2
    ensures Leads(sys, Alone(0, k, {}), Advance(0), Alone(0, k + 1, {}))
  {
    NobodyBlocks(sys, n, k);
    assert map[0 := k][0 := k + 1] == map[0 := k + 1];
  }

  lemma CallbackTouches(sys: Sys, n: nat)
    requires Crowd(sys, n) && n > 0 && sys.connections >= 2
    ensures Leads(sys, Alone(0, 2, {}), Ask(0), Alone(0, 2, {0}))
    ensures Leads(sys, Alone(0, 2, {0}), Advance(0), Alone(0, 3, {}))
  {
    AloneSize(0, 2);
    NobodyBlocks(sys, n, 2);
    assert map[0 := 2][0 := 3] == map[0 := 3];
  }

  lemma CallbackLooks(sys: Sys, n: nat) returns (sts: seq<State>, steps: seq<Step>)
    requires Crowd(sys, n) && n > 0 && sys.connections >= 1
    ensures Run(sys, sts, steps) && sts[|steps|] == Alone(0, 2, {})
  {
    CallbackBegins(sys, n);
    sts, steps := More(sys, [START], [], Begin(0));
    CallbackTakes(sys, n, 0);
    sts, steps := More(sys, sts, steps, Advance(0));
    CallbackTakes(sys, n, 1);
    sts, steps := More(sys, sts, steps, Advance(0));
  }

  lemma CallbackFirst(sys: Sys, n: nat) returns (sts: seq<State>, steps: seq<Step>)
    requires Crowd(sys, n) && n > 0 && sys.connections >= 2
    ensures Run(sys, sts, steps) && Waiting(sts[|steps|], 0, 0)
  {
    sts, steps := CallbackLooks(sys, n);
    CallbackTouches(sys, n);
    sts, steps := More(sys, sts, steps, Ask(0));
    sts, steps := More(sys, sts, steps, Advance(0));
    CallbackTakes(sys, n, 3);
    sts, steps := More(sys, sts, steps, Advance(0));
    CallbackTakes(sys, n, 4);
    sts, steps := More(sys, sts, steps, Advance(0));
    AloneSize(0, 5);
  }

  // ----- the top-ups

  lemma CreditBegins(sys: Sys, n: nat, k: nat, st: State)
    requires Crowd(sys, n) && k + 1 < n <= sys.connections && Waiting(st, k, 0)
    ensures Enabled(sys, st, Begin(k + 1))
  {
  }

  lemma CreditLocks(sys: Sys, n: nat, k: nat, st: State, begun: State)
    requires Crowd(sys, n) && k + 1 < n <= sys.connections && Waiting(st, k, 0) && begun == Next(st, Begin(k + 1))
    ensures Enabled(sys, begun, Advance(k + 1)) && Waiting(Next(begun, Advance(k + 1)), k + 1, 0)
  {
    var p := k + 1;
    AddKey(st.at, p, 0);
    AddKey(begun.at, p, 1);
    OwnWalletFree(sys, n, k, begun.at);
    assert st.asking == {};
  }

  lemma OwnWalletFree(sys: Sys, n: nat, k: nat, at: Progress)
    requires Crowd(sys, n) && k + 1 < n && (forall p: Pid :: p in at <==> p <= k + 1)
    requires forall p :: p in at ==> at[p] == if p == 0 then 5 else if p == k + 1 then 0 else 1
    ensures !Blocked(sys, at, k + 1)
  {
    var p := k + 1;
    forall q: Pid
      ensures !WaitsFor(sys, at, p, q)
    {
      if q <= k + 1 {
        assert PlanOf(sys, q) == if q == 0 then CALLBACK else TopUp(q);
      }
    }
  }

  lemma {:induction false} CreditsBegin(sys: Sys, n: nat, k: nat) returns (sts: seq<State>, steps: seq<Step>)
    requires Crowd(sys, n) && k < n <= sys.connections && sys.connections >= 2
    ensures Run(sys, sts, steps) && Waiting(sts[|steps|], k, 0)
  {
    if k == 0 {
      sts, steps := CallbackFirst(sys, n);
    } else {
      sts, steps := CreditsBegin(sys, n, k - 1);
      var st := sts[|steps|];
      CreditBegins(sys, n, k - 1, st);
      sts, steps := More(sys, sts, steps, Begin(k));
      CreditLocks(sys, n, k - 1, st, sts[|steps|]);
      sts, steps := More(sys, sts, steps, Advance(k));
    }
  }

  lemma CreditAsks(sys: Sys, n: nat, a: nat, st: State)
    requires Crowd(sys, n) && 0 < a < n && n + a <= sys.connections && Waiting(st, n - 1, a - 1)
    ensures Enabled(sys, st, Ask(a)) && Waiting(Next(st, Ask(a)), n - 1, a)
  {
    assert PlanOf(sys, a) == TopUp(a);
  }

  /** Top-ups take the connections that are left. */
  lemma {:induction false} CreditsAsk(sys: Sys, n: nat, a: nat) returns (sts: seq<State>, steps: seq<Step>)
    requires Crowd(sys, n) && a < n && n + a <= sys.connections && sys.connections >= 2
    ensures Run(sys, sts, steps) && Waiting(sts[|steps|], n - 1, a)
  {
    if a == 0 {
      sts, steps := CreditsBegin(sys, n, n - 1);
    } else {
      sts, steps := CreditsAsk(sys, n, a - 1);
      CreditAsks(sys, n, a, sts[|steps|]);
      sts, steps := More(sys, sts, steps, Ask(a));
    }
  }

  // ----- everybody stopped

  lemma NobodyGoesOn(sys: Sys, n: nat, a: nat, st: State, p: Pid)
    requires Crowd(sys, n) && a < n && sys.connections == n + a && Waiting(st, n - 1, a)
    ensures !GoesOn(sys, st, p)
  {
    assert PlanOf(sys, 0)[3] == Take(WalletRow(Liability)) && Has(sys, st.at, 0, WalletRow(Liability));
    if 0 < p < n {
      assert PlanOf(sys, p) == TopUp(p);
      assert WaitsFor(sys, st.at, p, 0);
    }
  }

  /** The pool is full, the callback needs one more connection, and the others need what
      the callback has. */
  lemma FullPoolStops(sys: Sys, n: nat, a: nat, st: State)
    requires Crowd(sys, n) && a < n && sys.connections == n + a && Waiting(st, n - 1, a)
    ensures Stopped(sys, st)
  {
    assert 0 in st.at;
    forall p: Pid
      ensures !GoesOn(sys, st, p)
    {
      NobodyGoesOn(sys, n, a, st, p);
    }
  }

  /** One transaction with one connection cannot even look up a wallet. */
  lemma OneConnectionStops(sys: Sys, n: nat) returns (sts: seq<State>, steps: seq<Step>)
    requires Crowd(sys, n) && n > 0 && sys.connections == 1
    ensures Run(sys, sts, steps) && |sts[|steps|].at| == 1 && Stopped(sys, sts[|steps|])
  {
    sts, steps := CallbackLooks(sys, n);
    AloneSize(0, 2);
    assert 0 in sts[|steps|].at;
    forall p: Pid
      ensures !GoesOn(sys, sts[|steps|], p)
    {
    }
  }

  function Below(n: nat): set<Pid> {
    if n == 0 then {} else Below(n - 1) + {n - 1}
  }

  lemma {:induction false} BelowIs(n: nat)
    ensures forall p: Pid :: p in Below(n) <==> p < n
  {
    if n > 0 {
      BelowIs(n - 1);
    }
  }

  lemma CrowdPlans(site: Site, p: Pid)
    requires forall w :: site.idOf(w) == 0
    ensures Plan(site, CardCallback(0, 0, true)) == CALLBACK && Plan(site, Crediting(p)) == TopUp(p)
  {
  }

  lemma CrowdExists(n: nat, connections: nat) returns (sys: Sys)
    ensures AllInOrder(sys) && Crowd(sys, n) && sys.connections == connections
  {
    BelowIs(n);
    var all := Below(n);
    var site := Site((u: UserId) => u, (w: WalletId) => 0, (h: HoldId) => h);
    sys := Of(site, map p | p in all :: if p == 0 then CardCallback(0, 0, true) else Crediting(p), connections);
    forall p: Pid | p < n
      ensures PlanOf(sys, p) == if p == 0 then CALLBACK else TopUp(p)
    {
      CrowdPlans(site, p);
    }
  }

  lemma StoppedRun(n: nat, connections: nat) returns (sys: Sys, sts: seq<State>, steps: seq<Step>)
    requires 0 < n <= connections < 2 * n
    ensures AllInOrder(sys) && sys.connections == connections
    ensures Run(sys, sts, steps) && |sts[|steps|].at| == n && Stopped(sys, sts[|steps|])
  {
    sys := CrowdExists(n, connections);
    if connections == 1 {
      sts, steps := OneConnectionStops(sys, n);
    } else {
      sts, steps := CreditsAsk(sys, n, connections - n);
      FullPoolStops(sys, n, connections - n, sts[|steps|]);
    }
  }

  /** With `n` open transactions the pool must have room for a second connection of
      each: with fewer, all can be stopped for good, with as many never. */
  lemma PoolSizeIff(n: nat, connections: nat)
    requires 0 < n <= connections
    ensures AlwaysGoesOn(n, connections) <==> 2 * n <= connections
  {
    if 2 * n <= connections {
      forall sys: Sys, sts: seq<State>, steps: seq<Step> |
        AllInOrder(sys) && sys.connections == connections && Run(sys, sts, steps) && |sts[|steps|].at| == n
        ensures !Stopped(sys, sts[|steps|])
      {
        NeverAllWaiting(sys, sts, steps, |steps|);
      }
    } else {
      var sys, sts, steps := StoppedRun(n, connections);
    }
  }
}
