/** The dashboard cache of weekly trips: a look without the lock, then a second look
    with it before the query (backend/internal/transport/service.go). */
module TripCache {
  import opened Outcomes
  import opened Tables

  datatype TripResponse = TripResponse(id: TripId, available: int)

  type Trips = seq<TripResponse>

  /** The first and the last second of the range asked for. */
  type Key = (int, int)

  datatype Entry = Entry(data: Trips, expiresAt: Time)

  type Cache = map<Key, Entry>

  datatype Found = Nothing | Something(entry: Entry)

  const LIFETIME := 5
  const MAX_KEPT := 100

  predicate Fresh(cache: Cache, key: Key, now: Time) {
    key in cache && now < cache[key].expiresAt
  }

  predicate Full(cache: Cache) {
    |cache| > MAX_KEPT
  }

  function Store(cache: Cache, key: Key, data: Trips, now: Time): Cache {
    (if Full(cache) then map[] else cache)[key := Entry(data, now + LIFETIME)]
  }

  // ----- any number of readers

  type Pid = nat

  datatype Phase =
    | Looked(key: Key, found: Found)   // the entry as read under the read lock
    | Wanting(key: Key)                // it was missing or old
    | Querying(key: Key)               // holds the write lock, and it still is

  datatype Event =
    | Stored(key: Key, data: Trips, at: Time, emptied: bool)
    | Served(key: Key, data: Trips, at: Time)

  datatype World = World(cache: Cache, now: Time, readers: map<Pid, Phase>, log: seq<Event>)

  datatype Step =
    | Tick(to: Time)
    | Look(p: Pid, key: Key)
    | Check(p: Pid)
    | Enter(p: Pid)
    | Finish(p: Pid, data: Trips)
    | Fail(p: Pid)

  predicate Locked(w: World) {
    exists p :: p in w.readers && w.readers[p].Querying?
  }

  predicate Enabled(w: World, s: Step) {
    match s
    case Tick(to) => w.now <= to
    case Look(p, _) => p !in w.readers && !Locked(w)
    case Check(p) => p in w.readers && w.readers[p].Looked?
    case Enter(p) => p in w.readers && w.readers[p].Wanting? && !Locked(w)
    case Finish(p, _) => p in w.readers && w.readers[p].Querying?
    case Fail(p) => p in w.readers && w.readers[p].Querying?
  }

  function Serve(w: World, p: Pid, key: Key, data: Trips): World {
    w.(readers := w.readers - {p}, log := w.log + [Served(key, data, w.now)])
  }

  function Next(w: World, s: Step): World
    requires Enabled(w, s)
  {
    match s
    case Tick(to) => w.(now := to)
    case Look(p, key) =>
      w.(readers := w.readers[p := Looked(key, if key in w.cache then Something(w.cache[key]) else Nothing)])
    case Check(p) =>
      var r := w.readers[p];
      if r.found.Something? && w.now < r.found.entry.expiresAt then Serve(w, p, r.key, r.found.entry.data)
      else w.(readers := w.readers[p := Wanting(r.key)])
    case Enter(p) =>
      var key := w.readers[p].key;
      if Fresh(w.cache, key, w.now) then Serve(w, p, key, w.cache[key].data)
      else w.(readers := w.readers[p := Querying(key)])
    case Finish(p, data) =>
      var key := w.readers[p].key;
      World(Store(w.cache, key, data, w.now), w.now, w.readers - {p}, w.log + [Stored(key, data, w.now, Full(w.cache))])
    case Fail(p) => w.(readers := w.readers - {p})
  }

  // ----- the service

  /** What one call of GetWeeklyTrips does between the points where other calls may run.
      Each method is one such piece and does the step of that name for reader `p`;
      `world` is the machine's state beside the cache. */
  class TripService {
    var dashboardCache: Cache
    ghost var world: World

    ghost predicate Valid()
      reads this
    {
      dashboardCache == world.cache
    }

    constructor (now: Time)
      ensures Valid() && world == World(map[], now, map[], [])
    {
      dashboardCache := map[];
      world := World(map[], now, map[], []);
    }

    /** Under the read lock. */
    method ReadEntry(ghost p: Pid, key: Key) returns (entry: Found)
      requires Valid() && Enabled(world, Look(p, key))
      modifies this
      ensures Valid() && world == Next(old(world), Look(p, key)) && world.readers[p] == Looked(key, entry)
    {
      world := Next(world, Look(p, key));
      if key in dashboardCache {
        return Something(dashboardCache[key]);
      }
      return Nothing;
    }

    /** Under no lock, at time `now`. */
    method CheckEntry(ghost p: Pid, key: Key, entry: Found, now: Time) returns (hit: bool, data: Trips)
      requires Valid() && Enabled(world, Check(p)) && world.readers[p] == Looked(key, entry) && now == world.now
      modifies this
      ensures Valid() && world == Next(old(world), Check(p))
      ensures hit <==> p !in world.readers
      ensures hit ==> world.log == old(world).log + [Served(key, data, now)]
    {
      world := Next(world, Check(p));
      if entry.Something? && now < entry.entry.expiresAt {
        return true, entry.entry.data;
      }
      return false, [];
    }

    /** The second check, with the write lock just taken. */
    method CheckAgain(ghost p: Pid, key: Key, now: Time) returns (hit: bool, data: Trips)
      requires Valid() && Enabled(world, Enter(p)) && world.readers[p].key == key && now == world.now
      modifies this
      ensures Valid() && world == Next(old(world), Enter(p))
      ensures hit <==> p !in world.readers
      ensures hit ==> world.log == old(world).log + [Served(key, data, now)]
    {
      world := Next(world, Enter(p));
      if key in dashboardCache && now < dashboardCache[key].expiresAt {
        return true, dashboardCache[key].data;
      }
      return false, [];
    }

    /** The query has answered, with rows or with an error, and the write lock goes. */
    method Complete(ghost p: Pid, key: Key, rows: Result<Trips>, now: Time) returns (r: Result<Trips>)
      requires Valid() && p in world.readers && world.readers[p] == Querying(key) && now == world.now
      modifies this
      ensures Valid() && r == rows
      ensures world == Next(old(world), if rows.Ok? then Finish(p, rows.value) else Fail(p))
    {
      if rows.Err? {
        world := Next(world, Fail(p));
        return rows;
      }
      world := Next(world, Finish(p, rows.value));
      if |dashboardCache| > 100 {
        dashboardCache := map[];
      }
      dashboardCache := dashboardCache[key := Entry(rows.value, now + 5)];
      return rows;
    }
  }

  // ----- runs

  ghost predicate Run(ws: seq<World>, steps: seq<Step>) {
    && |ws| == |steps| + 1
    && ws[0].cache == map[] && ws[0].readers == map[] && ws[0].log == []
    && forall i :: 0 <= i < |steps| ==> Enabled(ws[i], steps[i]) && ws[i + 1] == Next(ws[i], steps[i])
  }

  // ----- what the log shows

  ghost predicate StoredAt(log: seq<Event>, i: nat, key: Key) {
    i < |log| && log[i].Stored? && log[i].key == key
  }

  /** Event `i` stored what the entry holds. */
  ghost predicate ComesFrom(log: seq<Event>, i: nat, key: Key, e: Entry) {
    StoredAt(log, i, key) && log[i].data == e.data && log[i].at + LIFETIME == e.expiresAt
  }

  ghost predicate InLog(log: seq<Event>, key: Key, e: Entry) {
    exists i :: ComesFrom(log, i, key, e)
  }

  /** The map was not emptied by an event after `i` and before `j`. */
  ghost predicate KeptBetween(log: seq<Event>, i: nat, j: nat) {
    forall k :: i < k < j && k < |log| ==> !(log[k].Stored? && log[k].emptied)
  }

  /** A result from the cache was stored for its key less than five seconds before the
      check that let it through. */
  ghost predicate ServedFresh(log: seq<Event>, j: nat)
    requires j < |log|
  {
    log[j].Served? ==> exists i: nat :: i < j && StoredAt(log, i, log[j].key) && log[i].data == log[j].data
                                       && log[i].at <= log[j].at < log[i].at + 5
  }

  /** Queries of one key are five seconds apart while the map is kept. */
  ghost predicate Apart(log: seq<Event>, i: nat, j: nat)
    requires i < j < |log|
  {
    log[i].Stored? && StoredAt(log, j, log[i].key) && KeptBetween(log, i, j) ==> log[i].at + 5 <= log[j].at
  }

  ghost predicate LogOk(log: seq<Event>) {
    && (forall j :: 0 <= j < |log| ==> ServedFresh(log, j))
    && (forall i, j :: 0 <= i < j < |log| ==> Apart(log, i, j))
  }

  /** What event `i` stored is in the map, or something newer, unless it was emptied. */
  ghost predicate StillHeld(log: seq<Event>, i: nat, cache: Cache)
    requires i < |log|
  {
    log[i].Stored? && KeptBetween(log, i, |log|) ==>
      log[i].key in cache && log[i].at + LIFETIME <= cache[log[i].key].expiresAt
  }

  ghost predicate CacheOk(w: World) {
    && |w.cache| <= MAX_KEPT + 1
    && (forall key :: key in w.cache ==> InLog(w.log, key, w.cache[key]))
    && (forall i :: 0 <= i < |w.log| ==> w.log[i].at <= w.now)
    && (forall i :: 0 <= i < |w.log| ==> StillHeld(w.log, i, w.cache))
  }

  ghost predicate ReadersOk(w: World) {
    && (forall p :: p in w.readers && w.readers[p].Looked? && w.readers[p].found.Something? ==>
          InLog(w.log, w.readers[p].key, w.readers[p].found.entry))
    && (forall p :: p in w.readers && w.readers[p].Querying? ==> !Fresh(w.cache, w.readers[p].key, w.now))
    && (forall p, q :: p in w.readers && q in w.readers && w.readers[p].Querying? && w.readers[q].Querying? ==> p == q)
  }

  ghost predicate Inv(w: World) {
    LogOk(w.log) && CacheOk(w) && ReadersOk(w)
  }

  lemma InLogStays(log: seq<Event>, more: Event, key: Key, e: Entry)
    requires InLog(log, key, e)
    ensures InLog(log + [more], key, e)
  {
    var i :| ComesFrom(log, i, key, e);
    assert ComesFrom(log + [more], i, key, e);
  }

  lemma LogExtends(log: seq<Event>, e: Event)
    requires LogOk(log) && ServedFresh(log + [e], |log|)
    requires forall i :: 0 <= i < |log| ==> Apart(log + [e], i, |log|)
    ensures LogOk(log + [e])
  {
    var log' := log + [e];
    forall j | 0 <= j < |log'|
      ensures ServedFresh(log', j)
    {
      if j < |log| {
        assert ServedFresh(log, j);
        if log[j].Served? {
          var i: nat :| i < j && StoredAt(log, i, log[j].key) && log[i].data == log[j].data
                        && log[i].at <= log[j].at < log[i].at + LIFETIME;
          assert StoredAt(log', i, log'[j].key);
        }
      }
    }
    forall i, j | 0 <= i < j < |log'|
      ensures Apart(log', i, j)
    {
      if j < |log| {
        assert Apart(log, i, j);
        if KeptBetween(log', i, j) {
          assert forall k :: i < k < j ==> log'[k] == log[k];
        }
      }
    }
  }

  lemma ServeKeepsInv(w: World, p: Pid, key: Key, e: Entry)
    requires Inv(w) && p in w.readers && InLog(w.log, key, e) && w.now < e.expiresAt
    ensures Inv(Serve(w, p, key, e.data))
  {
    var event := Served(key, e.data, w.now);
    var w' := Serve(w, p, key, e.data);
    var i :| ComesFrom(w.log, i, key, e);
    assert StoredAt(w'.log, i, key);
    LogExtends(w.log, event);
    forall k | k in w'.cache
      ensures InLog(w'.log, k, w'.cache[k])
    {
      InLogStays(w.log, event, k, w.cache[k]);
    }
    forall q | q in w'.readers && w'.readers[q].Looked? && w'.readers[q].found.Something?
      ensures InLog(w'.log, w'.readers[q].key, w'.readers[q].found.entry)
    {
      InLogStays(w.log, event, w.readers[q].key, w.readers[q].found.entry);
    }
    forall j | 0 <= j < |w'.log|
      ensures StillHeld(w'.log, j, w'.cache)
    {
      if j < |w.log| {
        assert StillHeld(w.log, j, w.cache);
        StillKept(w.log, event, j);
      }
    }
  }

  /** What counts as kept up to the end of the longer log was kept in the shorter one. */
  lemma StillKept(log: seq<Event>, e: Event, i: nat)
    requires i < |log|
    ensures KeptBetween(log + [e], i, |log + [e]|) ==> KeptBetween(log, i, |log|) && !(e.Stored? && e.emptied)
  {
    var log' := log + [e];
    assert forall k :: 0 <= k < |log| ==> log'[k] == log[k];
    assert log'[|log|] == e;
  }

  lemma StoreIsBounded(cache: Cache, key: Key, data: Trips, now: Time)
    requires |cache| <= MAX_KEPT + 1
    ensures |Store(cache, key, data, now)| <= MAX_KEPT + 1
  {
    var kept := if Full(cache) then map[] else cache;
    assert |kept| <= MAX_KEPT;
    assert Store(cache, key, data, now).Keys == kept.Keys + {key};
  }

  lemma FinishKeepsEntries(w: World, p: Pid, data: Trips)
    requires Inv(w) && Enabled(w, Finish(p, data))
    ensures var w' := Next(w, Finish(p, data));
            forall k :: k in w'.cache ==> InLog(w'.log, k, w'.cache[k])
  {
    var w' := Next(w, Finish(p, data));
    var key := w.readers[p].key;
    assert ComesFrom(w'.log, |w.log|, key, w'.cache[key]);
    forall k | k in w'.cache
      ensures InLog(w'.log, k, w'.cache[k])
    {
      if k != key {
        InLogStays(w.log, w'.log[|w.log|], k, w.cache[k]);
      }
    }
  }

  lemma FinishKeepsCache(w: World, p: Pid, data: Trips)
    requires Inv(w) && Enabled(w, Finish(p, data))
    ensures CacheOk(Next(w, Finish(p, data)))
  {
    var key := w.readers[p].key;
    StoreIsBounded(w.cache, key, data, w.now);
    FinishKeepsEntries(w, p, data);
    forall i | 0 <= i <= |w.log|
      ensures StillHeld(Next(w, Finish(p, data)).log, i, Next(w, Finish(p, data)).cache)
    {
      FinishHolds(w, p, data, i);
    }
  }

  lemma FinishHolds(w: World, p: Pid, data: Trips, i: nat)
    requires Inv(w) && Enabled(w, Finish(p, data)) && i <= |w.log|
    ensures var w' := Next(w, Finish(p, data)); StillHeld(w'.log, i, w'.cache)
  {
    if i < |w.log| {
      assert StillHeld(w.log, i, w.cache);
      StillKept(w.log, Stored(w.readers[p].key, data, w.now, Full(w.cache)), i);
      assert w.log[i].at <= w.now;
    }
  }

  lemma FinishKeepsLog(w: World, p: Pid, data: Trips)
    requires Inv(w) && Enabled(w, Finish(p, data))
    ensures LogOk(Next(w, Finish(p, data)).log)
  {
    var key := w.readers[p].key;
    var event := Stored(key, data, w.now, Full(w.cache));
    var log' := w.log + [event];
    forall i | 0 <= i < |w.log|
      ensures Apart(log', i, |w.log|)
    {
      assert StillHeld(w.log, i, w.cache);
      if KeptBetween(log', i, |w.log|) {
        assert KeptBetween(w.log, i, |w.log|) by {
          assert forall k :: 0 <= k < |w.log| ==> log'[k] == w.log[k];
        }
      }
    }
    LogExtends(w.log, event);
  }

  lemma FinishKeepsReaders(w: World, p: Pid, data: Trips)
    requires Inv(w) && Enabled(w, Finish(p, data))
    ensures ReadersOk(Next(w, Finish(p, data)))
  {
    var w' := Next(w, Finish(p, data));
    forall q | q in w'.readers && w'.readers[q].Looked? && w'.readers[q].found.Something?
      ensures InLog(w'.log, w'.readers[q].key, w'.readers[q].found.entry)
    {
      InLogStays(w.log, w'.log[|w.log|], w.readers[q].key, w.readers[q].found.entry);
    }
  }

  lemma StepKeepsInv(w: World, s: Step)
    requires Inv(w) && Enabled(w, s)
    ensures Inv(Next(w, s))
  {
    match s {
      case Check(p) =>
        var r := w.readers[p];
        if r.found.Something? && w.now < r.found.entry.expiresAt {
          ServeKeepsInv(w, p, r.key, r.found.entry);
        }
      case Enter(p) =>
        var key := w.readers[p].key;
        if Fresh(w.cache, key, w.now) {
          ServeKeepsInv(w, p, key, w.cache[key]);
        }
      case Finish(p, data) =>
        FinishKeepsCache(w, p, data);
        FinishKeepsLog(w, p, data);
        FinishKeepsReaders(w, p, data);
      case _ =>
    }
  }

  /** In every interleaving of readers: a cached result is less than five seconds old
      when it is let through, two queries of one key are at least five seconds apart
      unless the map was emptied between them, and the map never holds more than 101
      entries. */
  lemma {:induction false} CacheRuns(ws: seq<World>, steps: seq<Step>, n: nat)
    requires Run(ws, steps) && n <= |steps|
    ensures LogOk(ws[n].log) && |ws[n].cache| <= 101 && Inv(ws[n])
  {
    if n > 0 {
      CacheRuns(ws, steps, n - 1);
      StepKeepsInv(ws[n - 1], steps[n - 1]);
    }
  }

  /** A query's result is kept for five seconds.  The other entries stay unless there are
      more than a hundred, and then none does. */
  lemma FinishStores(w: World, p: Pid, data: Trips)
    requires Enabled(w, Finish(p, data))
    ensures var key, cache' := w.readers[p].key, Next(w, Finish(p, data)).cache;
            && key in cache' && cache'[key] == Entry(data, w.now + 5)
            && (if |w.cache| <= 100
                then cache' == w.cache[key := cache'[key]]
                else cache'.Keys == {key})
  {
  }
}
