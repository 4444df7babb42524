/** Renewal of the access token when requests come back unauthorised: the first one
    asks for a new token and the others queue for it (frontend/src/lib/axios.ts). */
module TokenRefresh {
  import opened Options

  /** Each unauthorised response is an occurrence of its own. */
  type Req = nat
  type Token = nat

  // ----- the machine

  datatype Phase = Importing | Refreshing

  /** How a request leaves the queue: sent again with a token, or dropped, in which case
      its promise is never resolved or rejected. */
  datatype Departure = Replayed(req: Req, token: Token) | Dropped(req: Req)

  /** `queued` is every request ever queued and `gone` how they left, both in order. */
  datatype World = World(
    isRefreshing: bool, queue: seq<Req>, leaders: map<Req, Phase>,
    seen: set<Req>, queued: seq<Req>, gone: seq<Departure>)

  /** The pieces of the handler between two suspensions. */
  datatype Step =
    | Unauthorized(req: Req)
    | StoreRead(req: Req, hasRefreshToken: bool)
    | Refreshed(req: Req, token: Option<Token>)
    | Threw(req: Req)

  const START := World(false, [], map[], {}, [], [])

  predicate Enabled(w: World, s: Step) {
    match s
    case Unauthorized(req) => req !in w.seen
    case StoreRead(req, _) => req in w.leaders && w.leaders[req] == Importing
    case Refreshed(req, _) => req in w.leaders && w.leaders[req] == Refreshing
    case Threw(req) => req in w.leaders
  }

  function AllReplayed(queue: seq<Req>, token: Token): (r: seq<Departure>)
    ensures |r| == |queue| && forall i :: 0 <= i < |queue| ==> r[i] == Replayed(queue[i], token)
  {
    seq(|queue|, i requires 0 <= i < |queue| => Replayed(queue[i], token))
  }

  function AllDropped(queue: seq<Req>): (r: seq<Departure>)
    ensures |r| == |queue| && forall i :: 0 <= i < |queue| ==> r[i] == Dropped(queue[i])
  {
    seq(|queue|, i requires 0 <= i < |queue| => Dropped(queue[i]))
  }

  function Next(w: World, s: Step): World {
    match s
    case Unauthorized(req) =>
      if !w.isRefreshing
      then w.(isRefreshing := true, leaders := w.leaders[req := Importing], seen := w.seen + {req})
      else w.(queue := w.queue + [req], queued := w.queued + [req], seen := w.seen + {req})
    case StoreRead(req, has) =>
      w.(leaders := if has then w.leaders[req := Refreshing] else w.leaders - {req})
    case Refreshed(req, token) =>
      var w1 := w.(isRefreshing := false, leaders := w.leaders - {req});
      if token.None? then w1 else w1.(queue := [], gone := w.gone + AllReplayed(w.queue, token.value))
    case Threw(req) =>
      w.(isRefreshing := false, leaders := w.leaders - {req}, queue := [], gone := w.gone + AllDropped(w.queue))
  }

  // ----- the interceptor

  /** The two module variables.  Each method is one piece of the handler and does the
      step of that name; `world` is the machine's state beside them. */
  class ResponseInterceptor {
    var isRefreshing: bool
    var refreshSubscribers: seq<Req>
    ghost var world: World

    ghost predicate Valid()
      reads this
    {
      isRefreshing == world.isRefreshing && refreshSubscribers == world.queue
    }

    constructor ()
      ensures Valid() && world == START
    {
      isRefreshing := false;
      refreshSubscribers := [];
      world := START;
    }

    /** A 401 on a request other than a sign-in or a refresh. */
    method OnUnauthorized(req: Req) returns (leads: bool)
      requires Valid() && Enabled(world, Unauthorized(req))
      modifies this
      ensures Valid() && world == Next(old(world), Unauthorized(req))
      ensures leads == !old(world).isRefreshing && (leads ==> req in world.leaders)
    {
      world := Next(world, Unauthorized(req));
      if !isRefreshing {
        isRefreshing := true;
        return true;
      }
      refreshSubscribers := refreshSubscribers + [req];
      return false;
    }

    /** The store has been imported and its refresh token looked at; without one the
        handler leaves both variables as they are. */
    method AfterImport(leader: Req, hasRefreshToken: bool) returns (refreshes: bool)
      requires Valid() && Enabled(world, StoreRead(leader, hasRefreshToken))
      modifies this
      ensures Valid() && world == Next(old(world), StoreRead(leader, hasRefreshToken))
      ensures refreshes <==> leader in world.leaders
    {
      world := Next(world, StoreRead(leader, hasRefreshToken));
      return hasRefreshToken;
    }

    /** Calls every subscriber in turn, then forgets them. */
    method OnRefreshed(token: Token) returns (replays: seq<Departure>)
      modifies this`refreshSubscribers
      ensures replays == AllReplayed(old(refreshSubscribers), token) && refreshSubscribers == []
    {
      replays := [];
      for i := 0 to |refreshSubscribers|
        invariant refreshSubscribers == old(refreshSubscribers)
        invariant replays == AllReplayed(refreshSubscribers[..i], token)
      {
        replays := replays + [Replayed(refreshSubscribers[i], token)];
      }
      assert refreshSubscribers[..|refreshSubscribers|] == refreshSubscribers;
      refreshSubscribers := [];
    }

    /** The refresh call has returned; `token` is what is then in local storage. */
    method AfterRefresh(leader: Req, token: Option<Token>) returns (replays: seq<Departure>)
      requires Valid() && Enabled(world, Refreshed(leader, token))
      modifies this
      ensures Valid() && world == Next(old(world), Refreshed(leader, token))
      ensures world.gone + (if token.Some? then [Replayed(leader, token.value)] else []) == old(world).gone + replays
    {
      ghost var before := world;
      world := Next(world, Refreshed(leader, token));
      replays := [];
      isRefreshing := false;
      if token.Some? {
        replays := OnRefreshed(token.value);
        replays := replays + [Replayed(leader, token.value)];
        assert world.gone == before.gone + AllReplayed(before.queue, token.value);
      }
    }

    /** Anything in the attempt threw. */
    method OnRefreshError(leader: Req)
      requires Valid() && Enabled(world, Threw(leader))
      modifies this
      ensures Valid() && world == Next(old(world), Threw(leader))
    {
      world := Next(world, Threw(leader));
      isRefreshing := false;
      refreshSubscribers := [];
    }
  }

  // ----- runs

  ghost predicate Run(ws: seq<World>, steps: seq<Step>) {
    && |ws| == |steps| + 1 && ws[0] == START
    && forall i :: 0 <= i < |steps| ==> Enabled(ws[i], steps[i]) && ws[i + 1] == Next(ws[i], steps[i])
  }

  function Reqs(gone: seq<Departure>): (r: seq<Req>)
    ensures |r| == |gone| && forall i :: 0 <= i < |r| ==> r[i] == gone[i].req
  {
    seq(|gone|, i requires 0 <= i < |gone| => gone[i].req)
  }

  ghost predicate Inv(w: World) {
    && (forall a, b :: a in w.leaders && b in w.leaders ==> a == b)
    && (w.leaders != map[] ==> w.isRefreshing)
    && Reqs(w.gone) + w.queue == w.queued
    && (forall i, j :: 0 <= i < j < |w.queued| ==> w.queued[i] != w.queued[j])
    && (forall r :: r in w.queued || r in w.leaders ==> r in w.seen)
  }

  lemma StepKeepsInv(w: World, s: Step)
    requires Inv(w) && Enabled(w, s)
    ensures Inv(Next(w, s))
  {
  }

  /** At most one refresh is in flight, and only while the flag is up; every queued
      request is still waiting or has left the queue, once, in the order of queueing. */
  lemma {:induction false} SingleFlight(ws: seq<World>, steps: seq<Step>, n: nat)
    requires Run(ws, steps) && n <= |steps|
    ensures |ws[n].leaders| <= 1 && (ws[n].leaders != map[] ==> ws[n].isRefreshing)
    ensures Reqs(ws[n].gone) + ws[n].queue == ws[n].queued
    ensures forall i, j :: 0 <= i < j < |ws[n].queued| ==> ws[n].queued[i] != ws[n].queued[j]
    ensures Inv(ws[n])
  {
    if n > 0 {
      SingleFlight(ws, steps, n - 1);
      StepKeepsInv(ws[n - 1], steps[n - 1]);
    }
    AtMostOne(ws[n].leaders);
  }

  lemma AtMostOne(m: map<Req, Phase>)
    requires forall a, b :: a in m && b in m ==> a == b
    ensures |m| <= 1
  {
    if m != map[] {
      var a :| a in m;
      assert m.Keys == {a};
    }
  }

  /** A successful refresh replays everything that waits, each request with the token
      just read and never again, and leaves the queue empty and the flag down. */
  lemma SuccessServesQueue(ws: seq<World>, steps: seq<Step>, n: nat)
    requires Run(ws, steps) && n < |steps| && steps[n].Refreshed? && steps[n].token.Some?
    ensures ws[n + 1].queue == [] && !ws[n + 1].isRefreshing
    ensures forall r :: r in ws[n].queue ==> Replayed(r, steps[n].token.value) in ws[n + 1].gone
    ensures forall m, i, j :: n < m <= |steps| && 0 <= i < j < |ws[m].gone| ==> ws[m].gone[i].req != ws[m].gone[j].req
  {
    forall r | r in ws[n].queue
      ensures Replayed(r, steps[n].token.value) in ws[n + 1].gone
    {
      ReplayedNow(ws[n], steps[n], r);
    }
    forall m, i, j | n < m <= |steps| && 0 <= i < j < |ws[m].gone|
      ensures ws[m].gone[i].req != ws[m].gone[j].req
    {
      SingleFlight(ws, steps, m);
      assert ws[m].queued[i] == Reqs(ws[m].gone)[i] && ws[m].queued[j] == Reqs(ws[m].gone)[j];
    }
  }

  // ----- who is answered

  predicate Serves(s: Step) {
    s.Refreshed? && s.token.Some?
  }

  lemma ReplayedNow(w: World, s: Step, r: Req)
    requires Serves(s) && r in w.queue
    ensures Replayed(r, s.token.value) in Next(w, s).gone
  {
    var i :| 0 <= i < |w.queue| && w.queue[i] == r;
    assert Next(w, s).gone[|w.gone| + i] == Replayed(r, s.token.value);
  }

  lemma DroppedNow(w: World, s: Step, r: Req)
    requires s.Threw? && r in w.queue
    ensures Dropped(r) in Next(w, s).gone
  {
    var i :| 0 <= i < |w.queue| && w.queue[i] == r;
    assert Next(w, s).gone[|w.gone| + i] == Dropped(r);
  }

  /** From `n` up to `m` a refresh succeeds, and none throws before it. */
  ghost predicate ServedBetween(steps: seq<Step>, n: nat, m: nat)
    requires m <= |steps|
  {
    exists j :: n <= j < m && Serves(steps[j]) && forall k :: n <= k < j ==> !steps[k].Threw?
  }

  ghost predicate UntouchedBetween(steps: seq<Step>, n: nat, m: nat)
    requires m <= |steps|
  {
    forall k :: n <= k < m ==> !steps[k].Threw? && !Serves(steps[k])
  }

  lemma StillGone(w: World, s: Step)
    ensures forall d :: d in w.gone ==> d in Next(w, s).gone
  {
  }

  lemma {:induction false} FateInQueue(ws: seq<World>, steps: seq<Step>, n: nat, m: nat, r: Req)
    requires Run(ws, steps) && n <= m <= |steps| && r in ws[n].queue
    ensures if UntouchedBetween(steps, n, m) then r in ws[m].queue
            else if ServedBetween(steps, n, m) then exists t :: Replayed(r, t) in ws[m].gone
            else Dropped(r) in ws[m].gone
  {
    if n < m {
      var s := steps[m - 1];
      FateInQueue(ws, steps, n, m - 1, r);
      StillGone(ws[m - 1], s);
      ServedStep(steps, n, m);
      if UntouchedBetween(steps, n, m - 1) {
        if Serves(s) {
          ReplayedNow(ws[m - 1], s, r);
        } else if s.Threw? {
          DroppedNow(ws[m - 1], s, r);
        }
      }
    }
  }

  lemma ServedStep(steps: seq<Step>, n: nat, m: nat)
    requires n < m <= |steps|
    ensures UntouchedBetween(steps, n, m - 1) ==> (ServedBetween(steps, n, m) <==> Serves(steps[m - 1]))
    ensures !UntouchedBetween(steps, n, m - 1) ==> (ServedBetween(steps, n, m) <==> ServedBetween(steps, n, m - 1))
  {
  }

  /** A queued request is sent again exactly when a later refresh succeeds before any
      throws; a failure drops the queue without an answer to anyone in it. */
  lemma AnsweredIff(ws: seq<World>, steps: seq<Step>, n: nat, m: nat, r: Req)
    requires Run(ws, steps) && n <= m <= |steps| && r in ws[n].queue
    ensures (exists t :: Replayed(r, t) in ws[m].gone) <==> ServedBetween(steps, n, m)
  {
    FateInQueue(ws, steps, n, m, r);
    SingleFlight(ws, steps, m);
    if t :| Replayed(r, t) in ws[m].gone {
      LeavesOnce(ws[m], r, t);
    }
  }

  lemma LeavesOnce(w: World, r: Req, t: Token)
    requires Inv(w) && Replayed(r, t) in w.gone
    ensures r !in w.queue && Dropped(r) !in w.gone
  {
    var i :| 0 <= i < |w.gone| && w.gone[i] == Replayed(r, t);
    assert w.queued[i] == Reqs(w.gone)[i] == r;
    forall j | 0 <= j < |w.queue|
      ensures w.queue[j] != r
    {
      assert w.queued[|w.gone| + j] == w.queue[j];
    }
    forall j | 0 <= j < |w.gone|
      ensures w.gone[j] != Dropped(r)
    {
      assert w.queued[j] == Reqs(w.gone)[j];
    }
  }

  // ----- stuck

  /** The flag is up and nobody will take it down. */
  ghost predicate Stuck(w: World) {
    w.isRefreshing && w.leaders == map[]
  }

  /** Requests queue for ever exactly when some handler found no refresh token: that
      branch returns without lowering the flag. */
  lemma {:induction false} StuckIff(ws: seq<World>, steps: seq<Step>, n: nat)
    requires Run(ws, steps) && n <= |steps|
    ensures Stuck(ws[n]) <==> exists i :: 0 <= i < n && steps[i].StoreRead? && !steps[i].hasRefreshToken
  {
    if n > 0 {
      StuckIff(ws, steps, n - 1);
      SingleFlight(ws, steps, n - 1);
      OneStepStuck(ws[n - 1], steps[n - 1]);
    }
  }

  lemma OneStepStuck(w: World, s: Step)
    requires Inv(w) && Enabled(w, s)
    ensures Stuck(Next(w, s)) <==> Stuck(w) || (s.StoreRead? && !s.hasRefreshToken)
  {
  }

  /** Such a run: one handler finds no refresh token, and the next request waits. */
  lemma NoTokenStrands() returns (ws: seq<World>, steps: seq<Step>)
    ensures Run(ws, steps) && |steps| == 3 && steps[1] == StoreRead(0, false)
    ensures Stuck(ws[3]) && ws[3].queue == [1]
  {
    steps := [Unauthorized(0), StoreRead(0, false), Unauthorized(1)];
    var w1 := Next(START, steps[0]);
    var w2 := Next(w1, steps[1]);
    ws := [START, w1, w2, Next(w2, steps[2])];
  }

  /** From then on the queue only grows and nobody in it is answered. */
  lemma {:induction false} StuckNeverAnswers(ws: seq<World>, steps: seq<Step>, n: nat, m: nat)
    requires Run(ws, steps) && n <= m <= |steps| && Stuck(ws[n])
    ensures Stuck(ws[m]) && ws[m].gone == ws[n].gone && ws[n].queue <= ws[m].queue
  {
    if n < m {
      StuckNeverAnswers(ws, steps, n, m - 1);
      assert steps[m - 1].Unauthorized?;
    }
  }
}
