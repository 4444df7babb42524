/** The argument behind every deadlock result: when each blocked party waits for
    something of higher rank than the parties waiting for it, they cannot all be
    blocked. */
module LockOrder {

  lemma HighestRank<P>(ps: set<P>, rank: map<P, nat>) returns (top: P)
    requires ps != {} && ps <= rank.Keys
    ensures top in ps && forall p :: p in ps ==> rank[p] <= rank[top]
  {
    var one :| one in ps;
    top := one;
    var rest := ps - {one};
    if rest != {} {
      var other := HighestRank(rest, rank);
      if rank[one] < rank[other] {
        top := other;
      }
    }
    assert ps == rest + {one};
  }

  /** `blocker[p]` is who p waits for and `rank[p]` the rank of what it waits for. */
  lemma SomeoneProceeds<P>(active: set<P>, blocker: map<P, P>, rank: map<P, nat>)
    requires active != {} && blocker.Keys <= rank.Keys
    requires forall p :: p in blocker && p in active ==>
               blocker[p] in active && (blocker[p] in blocker ==> rank[blocker[p]] > rank[p])
    ensures exists p :: p in active && p !in blocker
  {
    var blocked := active * blocker.Keys;
    if blocked == {} {
      var p :| p in active;
    } else {
      var top := HighestRank(blocked, rank);
      assert blocker[top] !in blocker;
    }
  }
}
