/** The export of trips: rows grouped by trip, and one manifest with stop headers for
    each group (backend/internal/transport/service.go). */
module ExportManifest {
  import opened Uuids

  datatype Row = Row(
    trip: Uuid, route: string, bus: string, departure: int, direction: string,
    serial: int, code: string, passenger: string, phone: string, stop: string)

  datatype TripGroup = TripGroup(trip: Uuid, route: string, departure: int, bus: string, direction: string,
                                 tickets: seq<Row>)

  datatype Line =
    | Title
    | RouteLine(route: string)
    | BusLine(bus: string)
    | DepartureLine(departure: int)
    | DirectionLine(direction: string)
    | PassengersLine(count: int)
    | Blank
    | StopLine(stop: string, total: int)
    | Columns
    | TicketLine(serial: int, code: string, passenger: string, phone: string)

  // ----- groups

  function RowsOf(rows: seq<Row>, trip: Uuid): seq<Row> {
    if rows == [] then []
    else
      var init, last := RowsOf(rows[..|rows| - 1], trip), rows[|rows| - 1];
      if last.trip == trip then init + [last] else init
  }

  /** The trips in the order in which each first appears. */
  function TripsInOrder(rows: seq<Row>): seq<Uuid> {
    if rows == [] then []
    else
      var init, last := TripsInOrder(rows[..|rows| - 1]), rows[|rows| - 1].trip;
      if last in init then init else init + [last]
  }

  function NewGroup(row: Row): TripGroup {
    TripGroup(row.trip, row.route, row.departure, row.bus, row.direction, [])
  }

  /** The heading comes from the first row of the trip. */
  ghost predicate IsGroup(g: TripGroup, rows: seq<Row>, trip: Uuid) {
    && g.tickets == RowsOf(rows, trip) && g.tickets != []
    && g == NewGroup(g.tickets[0]).(tickets := g.tickets) && g.trip == trip
  }

  ghost predicate Grouped(groups: seq<TripGroup>, rows: seq<Row>) {
    && |groups| == |TripsInOrder(rows)|
    && forall j :: 0 <= j < |groups| ==> IsGroup(groups[j], rows, TripsInOrder(rows)[j])
  }

  lemma {:induction false} TripsKnown(rows: seq<Row>, trip: Uuid)
    ensures trip in TripsInOrder(rows) <==> RowsOf(rows, trip) != []
    ensures forall i, j :: 0 <= i < j < |TripsInOrder(rows)| ==> TripsInOrder(rows)[i] != TripsInOrder(rows)[j]
  {
    if rows != [] {
      TripsKnown(rows[..|rows| - 1], trip);
    }
  }

  lemma Extend(rows: seq<Row>, row: Row, trip: Uuid)
    ensures RowsOf(rows + [row], trip) == RowsOf(rows, trip) + if row.trip == trip then [row] else []
    ensures TripsInOrder(rows + [row]) == TripsInOrder(rows) + if row.trip in TripsInOrder(rows) then [] else [row.trip]
  {
    assert (rows + [row])[..|rows|] == rows;
  }

  /** The map sends each trip to its place among the groups. */
  ghost predicate Indexed(trips: map<Uuid, nat>, rows: seq<Row>) {
    && trips.Keys == (set t | t in TripsInOrder(rows))
    && forall t :: t in trips ==> trips[t] < |TripsInOrder(rows)| && TripsInOrder(rows)[trips[t]] == t
  }

  method GroupByTrip(rows: seq<Row>) returns (tripOrder: seq<TripGroup>)
    ensures Grouped(tripOrder, rows)
  {
    var trips: map<Uuid, nat> := map[];
    tripOrder := [];
    for i := 0 to |rows|
      invariant Grouped(tripOrder, rows[..i])
      invariant Indexed(trips, rows[..i])
    {
      var row := rows[i];
      ghost var before := tripOrder;
      if row.trip !in trips {
        trips := trips[row.trip := |tripOrder|];
        tripOrder := tripOrder + [NewGroup(row)];
      }
      var k := trips[row.trip];
      tripOrder := tripOrder[k := tripOrder[k].(tickets := tripOrder[k].tickets + [row])];
      assert rows[..i + 1] == rows[..i] + [row];
      assert k == |before| ==> tripOrder == before + [NewGroup(row).(tickets := [] + [row])];
      AddRow(before, tripOrder, rows[..i], row, k);
    }
    assert rows[..|rows|] == rows;
  }

  lemma AddRow(before: seq<TripGroup>, after: seq<TripGroup>, rows: seq<Row>, row: Row, k: nat)
    requires Grouped(before, rows) && k <= |before|
    requires if row.trip in TripsInOrder(rows)
             then k < |before| && TripsInOrder(rows)[k] == row.trip
                  && after == before[k := before[k].(tickets := before[k].tickets + [row])]
             else k == |before| && after == before + [NewGroup(row).(tickets := [] + [row])]
    ensures Grouped(after, rows + [row])
    ensures TripsInOrder(rows + [row]) == TripsInOrder(rows) + if row.trip in TripsInOrder(rows) then [] else [row.trip]
  {
    var trips := TripsInOrder(rows + [row]);
    Extend(rows, row, row.trip);
    TripsKnown(rows, row.trip);
    TripsKnown(rows + [row], row.trip);
    forall j | 0 <= j < |after|
      ensures IsGroup(after[j], rows + [row], trips[j])
    {
      Extend(rows, row, trips[j]);
      if j < |before| {
        assert IsGroup(before[j], rows, TripsInOrder(rows)[j]);
      }
    }
  }

  function FirstIndex(rows: seq<Row>, trip: Uuid): nat {
    if rows == [] || rows[0].trip == trip then 0 else 1 + FirstIndex(rows[1..], trip)
  }

  lemma {:induction false} FirstIndexAppend(rows: seq<Row>, row: Row, trip: Uuid)
    ensures FirstIndex(rows, trip) <= |rows|
    ensures FirstIndex(rows, trip) < |rows| <==> RowsOf(rows, trip) != []
    ensures FirstIndex(rows, trip) < |rows| ==> FirstIndex(rows + [row], trip) == FirstIndex(rows, trip)
    ensures FirstIndex(rows, trip) == |rows| && row.trip == trip ==> FirstIndex(rows + [row], trip) == |rows|
  {
    RowsOfNothing(rows, trip);
    if rows != [] {
      FirstIndexAppend(rows[1..], row, trip);
      RowsOfNothing(rows[1..], trip);
      assert (rows + [row])[1..] == rows[1..] + [row];
      assert rows == [rows[0]] + rows[1..];
    }
  }

  lemma {:induction false} RowsOfNothing(rows: seq<Row>, trip: Uuid)
    ensures RowsOf(rows, trip) == [] <==> forall r :: r in rows ==> r.trip != trip
  {
    if rows != [] {
      RowsOfNothing(rows[..|rows| - 1], trip);
      assert rows == rows[..|rows| - 1] + [rows[|rows| - 1]];
    }
  }

  /** The groups come in the order in which the trips first appear. */
  lemma {:induction false} FirstAppearanceOrder(rows: seq<Row>, i: nat, j: nat)
    requires i < j < |TripsInOrder(rows)|
    ensures FirstIndex(rows, TripsInOrder(rows)[i]) < FirstIndex(rows, TripsInOrder(rows)[j]) < |rows|
  {
    var init, last := rows[..|rows| - 1], rows[|rows| - 1];
    assert rows == init + [last];
    var trips := TripsInOrder(init);
    TripsKnown(init, trips[i]);
    FirstIndexAppend(init, last, trips[i]);
    if j < |trips| {
      FirstAppearanceOrder(init, i, j);
      FirstIndexAppend(init, last, trips[j]);
    } else {
      TripsKnown(init, last.trip);
      FirstIndexAppend(init, last, last.trip);
    }
  }

  /** The rows of the first `n` groups. */
  function AllTickets(groups: seq<TripGroup>, n: nat): seq<Row>
    requires n <= |groups|
  {
    if n == 0 then [] else AllTickets(groups, n - 1) + groups[n - 1].tickets
  }

  lemma {:induction false} RowsOfCount(rows: seq<Row>, trip: Uuid, r: Row)
    ensures multiset(RowsOf(rows, trip))[r] == if r.trip == trip then multiset(rows)[r] else 0
  {
    if rows != [] {
      RowsOfCount(rows[..|rows| - 1], trip, r);
      assert rows == rows[..|rows| - 1] + [rows[|rows| - 1]];
    }
  }

  lemma {:induction false} TicketsCount(groups: seq<TripGroup>, rows: seq<Row>, n: nat, r: Row)
    requires Grouped(groups, rows) && n <= |groups|
    ensures multiset(AllTickets(groups, n))[r] ==
            if exists j :: 0 <= j < n && TripsInOrder(rows)[j] == r.trip then multiset(rows)[r] else 0
  {
    if n > 0 {
      TicketsCount(groups, rows, n - 1, r);
      assert IsGroup(groups[n - 1], rows, TripsInOrder(rows)[n - 1]);
      RowsOfCount(rows, groups[n - 1].trip, r);
      TripsKnown(rows, r.trip);
    }
  }

  /** Every row is in the groups exactly as often as it was exported. */
  lemma GroupsHoldEveryRow(groups: seq<TripGroup>, rows: seq<Row>)
    requires Grouped(groups, rows)
    ensures multiset(AllTickets(groups, |groups|)) == multiset(rows)
  {
    forall r
      ensures multiset(AllTickets(groups, |groups|))[r] == multiset(rows)[r]
    {
      TicketsCount(groups, rows, |groups|, r);
      TripsKnown(rows, r.trip);
      RowsOfNothing(rows, r.trip);
    }
  }

  // ----- one manifest

  /** Rows of the stop from `lo` up to `hi`. */
  function CountIn(rows: seq<Row>, lo: nat, hi: nat, stop: string): nat
    requires hi <= |rows|
  {
    if hi <= lo then 0 else CountIn(rows, lo, hi - 1, stop) + if rows[hi - 1].stop == stop then 1 else 0
  }

  function CountOf(rows: seq<Row>, stop: string): nat {
    CountIn(rows, 0, |rows|, stop)
  }

  function Ticket(row: Row): Line {
    TicketLine(row.serial, row.code, row.passenger, row.phone)
  }

  function Heading(row: Row, current: string, total: int): seq<Line> {
    if row.stop == current then []
    else (if current != "" then [Blank] else []) + [StopLine(row.stop, total), Columns]
  }

  /** The name the loop has in `currentStop` when it comes to row `k`. */
  function Current(rows: seq<Row>, k: nat): string
    requires k <= |rows|
  {
    if k == 0 then "" else rows[k - 1].stop
  }

  function LinesFrom(rows: seq<Row>, k: nat): seq<Line>
    requires k <= |rows|
    decreases |rows| - k
  {
    if k == |rows| then []
    else Heading(rows[k], Current(rows, k), CountOf(rows, rows[k].stop)) + [Ticket(rows[k])] + LinesFrom(rows, k + 1)
  }

  function Preamble(g: TripGroup): seq<Line> {
    [Title, RouteLine(g.route), BusLine(g.bus), DepartureLine(g.departure), DirectionLine(g.direction),
     PassengersLine(|g.tickets|), Blank]
  }

  method CountStops(tickets: seq<Row>) returns (stopCounts: map<string, int>)
    ensures forall k :: 0 <= k < |tickets| ==>
              tickets[k].stop in stopCounts && stopCounts[tickets[k].stop] == CountOf(tickets, tickets[k].stop)
  {
    stopCounts := map[];
    for i := 0 to |tickets|
      invariant forall s :: (if s in stopCounts then stopCounts[s] else 0) == CountIn(tickets, 0, i, s)
      invariant forall k :: 0 <= k < i ==> tickets[k].stop in stopCounts
    {
      var s := tickets[i].stop;
      stopCounts := stopCounts[s := (if s in stopCounts then stopCounts[s] else 0) + 1];
    }
  }

  method WriteManifest(tg: TripGroup) returns (lines: seq<Line>)
    ensures lines == Preamble(tg) + LinesFrom(tg.tickets, 0)
  {
    var stopCounts := CountStops(tg.tickets);
    lines := Preamble(tg);
    var currentStop := "";
    for i := 0 to |tg.tickets|
      invariant currentStop == Current(tg.tickets, i)
      invariant lines + LinesFrom(tg.tickets, i) == Preamble(tg) + LinesFrom(tg.tickets, 0)
    {
      var ticket := tg.tickets[i];
      ghost var before := lines;
      lines := WriteRow(lines, currentStop, ticket, stopCounts[ticket.stop]);
      currentStop := ticket.stop;
      LinesAdded(tg.tickets, i, before, lines);
    }
  }

  /** One row, after a stop header where the stop changes. */
  method WriteRow(before: seq<Line>, currentStop: string, ticket: Row, count: int) returns (lines: seq<Line>)
    ensures lines == before + Heading(ticket, currentStop, count) + [Ticket(ticket)]
  {
    lines := before;
    if ticket.stop != currentStop {
      if currentStop != "" {
        lines := lines + [Blank];
      }
      lines := lines + [StopLine(ticket.stop, count)];
      lines := lines + [Columns];
      HeadingAdded(before, ticket, currentStop, count);
    }
    lines := lines + [Ticket(ticket)];
  }

  lemma HeadingAdded(before: seq<Line>, row: Row, current: string, total: int)
    requires row.stop != current
    ensures before + Heading(row, current, total) ==
            (if current != "" then before + [Blank] else before) + [StopLine(row.stop, total)] + [Columns]
  {
  }

  lemma LinesAdded(rows: seq<Row>, k: nat, before: seq<Line>, after: seq<Line>)
    requires k < |rows|
    requires after == before + Heading(rows[k], Current(rows, k), CountOf(rows, rows[k].stop)) + [Ticket(rows[k])]
    ensures after + LinesFrom(rows, k + 1) == before + LinesFrom(rows, k)
  {
  }

  /** Ticket lines before the next stop header. */
  function Under(lines: seq<Line>): nat {
    if lines == [] || lines[0].StopLine? then 0
    else (if lines[0].TicketLine? then 1 else 0) + Under(lines[1..])
  }

  /** Each stop header announces the ticket lines that follow it. */
  ghost predicate TotalsRight(lines: seq<Line>) {
    lines == [] || ((lines[0].StopLine? ==> lines[0].total == Under(lines[1..])) && TotalsRight(lines[1..]))
  }

  lemma {:induction false} TotalsRightMeans(lines: seq<Line>)
    ensures TotalsRight(lines) <==>
            forall i :: 0 <= i < |lines| && lines[i].StopLine? ==> lines[i].total == Under(lines[i + 1..])
  {
    if lines != [] {
      var rest := lines[1..];
      TotalsRightMeans(rest);
      forall i | 0 <= i < |rest|
        ensures rest[i] == lines[i + 1] && rest[i + 1..] == lines[i + 2..]
      {
      }
      assert forall i :: 0 < i < |lines| ==> lines[i] == rest[i - 1] && lines[i + 1..] == rest[i..];
    }
  }

  /** The rows of each stop are next to each other. */
  ghost predicate Contiguous(rows: seq<Row>) {
    forall i, m, j :: 0 <= i < m < j < |rows| && rows[i].stop == rows[j].stop ==> rows[m].stop == rows[i].stop
  }

  function RunFrom(rows: seq<Row>, k: nat, stop: string): nat
    requires k <= |rows|
    decreases |rows| - k
  {
    if k == |rows| || rows[k].stop != stop then 0 else 1 + RunFrom(rows, k + 1, stop)
  }

  lemma UnderHeading(row: Row, current: string, total: int, rest: seq<Line>)
    ensures Under(Heading(row, current, total) + [Ticket(row)] + rest) ==
            if row.stop == current then 1 + Under(rest) else 0
    ensures Under([Columns, Ticket(row)] + rest) == 1 + Under(rest)
  {
  }

  lemma {:induction false} UnderIsRun(rows: seq<Row>, k: nat)
    requires k <= |rows|
    ensures Under(LinesFrom(rows, k)) == RunFrom(rows, k, Current(rows, k))
    decreases |rows| - k
  {
    if k < |rows| {
      UnderIsRun(rows, k + 1);
      UnderHeading(rows[k], Current(rows, k), CountOf(rows, rows[k].stop), LinesFrom(rows, k + 1));
    }
  }

  /** A header is printed where the stop changes; its total is right when all the
      rows of the stop are in the run that starts there. */
  ghost predicate RunIsAll(rows: seq<Row>, k: nat)
    requires k < |rows|
  {
    rows[k].stop != Current(rows, k) ==> CountOf(rows, rows[k].stop) == RunFrom(rows, k, rows[k].stop)
  }

  ghost predicate RunsAreAll(rows: seq<Row>, k: nat)
    requires k <= |rows|
    decreases |rows| - k
  {
    k == |rows| || (RunIsAll(rows, k) && RunsAreAll(rows, k + 1))
  }

  lemma {:induction false} RunsAreAllMeans(rows: seq<Row>, k: nat)
    requires k <= |rows|
    ensures RunsAreAll(rows, k) <==> forall m :: k <= m < |rows| ==> RunIsAll(rows, m)
    decreases |rows| - k
  {
    if k < |rows| {
      RunsAreAllMeans(rows, k + 1);
    }
  }

  lemma {:induction false} TotalsRightFrom(rows: seq<Row>, k: nat)
    requires k <= |rows|
    ensures TotalsRight(LinesFrom(rows, k)) <==> RunsAreAll(rows, k)
    decreases |rows| - k
  {
    if k < |rows| {
      TotalsRightFrom(rows, k + 1);
      HeadingTotal(rows, k);
      assert TotalsRight(LinesFrom(rows, k)) <==> RunIsAll(rows, k) && RunsAreAll(rows, k + 1);
    }
  }

  lemma TotalsRightStep(line: Line, rest: seq<Line>)
    ensures TotalsRight([line] + rest) <==> (line.StopLine? ==> line.total == Under(rest)) && TotalsRight(rest)
  {
    assert ([line] + rest)[1..] == rest;
  }

  lemma {:induction false} TotalsRightPrefix(head: seq<Line>, rest: seq<Line>)
    requires forall i :: 0 <= i < |head| ==> !head[i].StopLine?
    ensures TotalsRight(head + rest) <==> TotalsRight(rest)
  {
    if head == [] {
      assert head + rest == rest;
    } else {
      TotalsRightPrefix(head[1..], rest);
      TotalsRightStep(head[0], head[1..] + rest);
      assert head + rest == [head[0]] + (head[1..] + rest);
    }
  }

  lemma TotalsOfHeading(row: Row, current: string, total: int, rest: seq<Line>)
    ensures TotalsRight(Heading(row, current, total) + [Ticket(row)] + rest) <==>
            (row.stop != current ==> total == 1 + Under(rest)) && TotalsRight(rest)
  {
    var lines := Heading(row, current, total) + [Ticket(row)] + rest;
    if row.stop == current {
      assert lines == [Ticket(row)] + rest;
      TotalsRightPrefix([Ticket(row)], rest);
    } else {
      var blank := if current != "" then [Blank] else [];
      var after := [Columns, Ticket(row)] + rest;
      assert lines == blank + ([StopLine(row.stop, total)] + after);
      TotalsRightPrefix(blank, [StopLine(row.stop, total)] + after);
      TotalsRightStep(StopLine(row.stop, total), after);
      TotalsRightPrefix([Columns, Ticket(row)], rest);
      UnderHeading(row, current, total, rest);
    }
  }

  lemma HeadingTotal(rows: seq<Row>, k: nat)
    requires k < |rows|
    ensures TotalsRight(LinesFrom(rows, k)) <==> RunIsAll(rows, k) && TotalsRight(LinesFrom(rows, k + 1))
  {
    TotalsOfHeading(rows[k], Current(rows, k), CountOf(rows, rows[k].stop), LinesFrom(rows, k + 1));
    UnderIsRun(rows, k + 1);
  }

  lemma {:induction false} CountSplit(rows: seq<Row>, lo: nat, mid: nat, hi: nat, stop: string)
    requires lo <= mid <= hi <= |rows|
    ensures CountIn(rows, lo, hi, stop) == CountIn(rows, lo, mid, stop) + CountIn(rows, mid, hi, stop)
    decreases hi
  {
    if mid < hi {
      CountSplit(rows, lo, mid, hi - 1, stop);
    }
  }

  lemma {:induction false} CountNone(rows: seq<Row>, lo: nat, hi: nat, stop: string)
    requires hi <= |rows|
    ensures CountIn(rows, lo, hi, stop) == 0 <==> forall i :: lo <= i < hi ==> rows[i].stop != stop
  {
    if lo < hi {
      CountNone(rows, lo, hi - 1, stop);
    }
  }

  lemma {:induction false} RunIsCounted(rows: seq<Row>, k: nat, stop: string)
    requires k <= |rows|
    ensures var e := k + RunFrom(rows, k, stop);
            && e <= |rows| && (e < |rows| ==> rows[e].stop != stop)
            && (forall i :: k <= i < e ==> rows[i].stop == stop)
            && CountIn(rows, k, e, stop) == e - k
    decreases |rows| - k
  {
    if k < |rows| && rows[k].stop == stop {
      RunIsCounted(rows, k + 1, stop);
      CountSplit(rows, k, k + 1, k + RunFrom(rows, k, stop), stop);
    }
  }

  /** A run holds all rows of its stop exactly when there is none outside it. */
  lemma RunIsAllIff(rows: seq<Row>, k: nat)
    requires k < |rows|
    ensures CountOf(rows, rows[k].stop) == RunFrom(rows, k, rows[k].stop) <==>
            forall i :: 0 <= i < |rows| && rows[i].stop == rows[k].stop ==> k <= i < k + RunFrom(rows, k, rows[k].stop)
  {
    var stop := rows[k].stop;
    var e := k + RunFrom(rows, k, stop);
    RunIsCounted(rows, k, stop);
    CountSplit(rows, 0, k, |rows|, stop);
    CountSplit(rows, k, e, |rows|, stop);
    CountNone(rows, 0, k, stop);
    CountNone(rows, e, |rows|, stop);
  }

  /** The header totals of a manifest are right exactly when the rows come grouped by
      stop, which is what the query's order is for. */
  lemma TotalsRightIff(tg: TripGroup)
    ensures TotalsRight(Preamble(tg) + LinesFrom(tg.tickets, 0)) <==> Contiguous(tg.tickets)
  {
    var rows := tg.tickets;
    TotalsRightPrefix(Preamble(tg), LinesFrom(rows, 0));
    TotalsRightFrom(rows, 0);
    RunsAreAllMeans(rows, 0);
    if Contiguous(rows) {
      forall k | 0 <= k < |rows|
        ensures RunIsAll(rows, k)
      {
        ContiguousRun(rows, k);
      }
    } else {
      var i, m, j :| 0 <= i < m < j < |rows| && rows[i].stop == rows[j].stop && rows[m].stop != rows[i].stop;
      var k := LateStart(rows, m, j);
      RunIsAllIff(rows, k);
      assert !RunIsAll(rows, k);
    }
  }

  lemma ContiguousRun(rows: seq<Row>, k: nat)
    requires Contiguous(rows) && k < |rows|
    ensures RunIsAll(rows, k)
  {
    if rows[k].stop != Current(rows, k) {
      RunIsAllIff(rows, k);
      RunIsCounted(rows, k, rows[k].stop);
    }
  }

  lemma {:induction false} LateStart(rows: seq<Row>, m: nat, j: nat) returns (k: nat)
    requires m < j < |rows| && rows[m].stop != rows[j].stop
    ensures m < k <= j && rows[k].stop == rows[j].stop && Current(rows, k) != rows[k].stop
    decreases j
  {
    if rows[j - 1].stop != rows[j].stop {
      k := j;
    } else {
      k := LateStart(rows, m, j - 1);
    }
  }

  function Headers(lines: seq<Line>, stop: string): nat {
    if lines == [] then 0
    else (if lines[0].StopLine? && lines[0].stop == stop then 1 else 0) + Headers(lines[1..], stop)
  }

  lemma HeadersStep(line: Line, rest: seq<Line>, stop: string)
    ensures Headers([line] + rest, stop) == Headers(rest, stop) + if line.StopLine? && line.stop == stop then 1 else 0
  {
    assert ([line] + rest)[1..] == rest;
  }

  lemma HeadersOfHeading(row: Row, current: string, total: int, rest: seq<Line>, stop: string)
    ensures Headers(Heading(row, current, total) + [Ticket(row)] + rest, stop) ==
            Headers(rest, stop) + if row.stop != current && row.stop == stop then 1 else 0
  {
    var lines := Heading(row, current, total) + [Ticket(row)] + rest;
    var ticket := [Ticket(row)] + rest;
    HeadersStep(Ticket(row), rest, stop);
    if row.stop == current {
      assert lines == ticket;
    } else {
      var columns := [Columns] + ticket;
      var after := [StopLine(row.stop, total)] + columns;
      HeadersStep(Columns, ticket, stop);
      HeadersStep(StopLine(row.stop, total), columns, stop);
      if current == "" {
        assert lines == after;
      } else {
        HeadersStep(Blank, after, stop);
        assert lines == [Blank] + after;
      }
    }
  }

  /** With the rows grouped by stop, a stop is announced where it first appears and
      nowhere else. */
  lemma {:induction false} OneHeaderFrom(rows: seq<Row>, k: nat, first: nat, stop: string)
    requires Contiguous(rows) && stop != "" && k <= |rows| && first < |rows| && rows[first].stop == stop
    requires forall i :: 0 <= i < first ==> rows[i].stop != stop
    ensures Headers(LinesFrom(rows, k), stop) == if k <= first then 1 else 0
    decreases |rows| - k
  {
    if k < |rows| {
      OneHeaderFrom(rows, k + 1, first, stop);
      HeadersOfHeading(rows[k], Current(rows, k), CountOf(rows, rows[k].stop), LinesFrom(rows, k + 1), stop);
      if k > first && rows[k].stop == stop {
        assert rows[k - 1].stop == stop;
      }
    }
  }

  lemma OneHeaderEach(tg: TripGroup, i: nat)
    requires Contiguous(tg.tickets) && i < |tg.tickets| && tg.tickets[i].stop != ""
    ensures Headers(LinesFrom(tg.tickets, 0), tg.tickets[i].stop) == 1
  {
    var first := FirstAt(tg.tickets, tg.tickets[i].stop, i);
    OneHeaderFrom(tg.tickets, 0, first, tg.tickets[i].stop);
  }

  lemma FirstAt(rows: seq<Row>, stop: string, i: nat) returns (first: nat)
    requires i < |rows| && rows[i].stop == stop
    ensures first <= i && rows[first].stop == stop && forall j :: 0 <= j < first ==> rows[j].stop != stop
  {
    first := 0;
    while rows[first].stop != stop
      invariant first <= i && forall j :: 0 <= j < first ==> rows[j].stop != stop
      decreases i - first
    {
      first := first + 1;
    }
  }

  // ----- what is printed

  function TicketLines(lines: seq<Line>): seq<Line> {
    if lines == [] then []
    else (if lines[0].TicketLine? then [lines[0]] else []) + TicketLines(lines[1..])
  }

  lemma {:induction false} TicketLinesAppend(a: seq<Line>, b: seq<Line>)
    ensures TicketLines(a + b) == TicketLines(a) + TicketLines(b)
  {
    if a == [] {
      assert a + b == b;
    } else {
      var first := if a[0].TicketLine? then [a[0]] else [];
      TicketLinesAppend(a[1..], b);
      assert (a + b)[1..] == a[1..] + b;
      assert TicketLines(a + b) == first + (TicketLines(a[1..]) + TicketLines(b));
    }
  }

  lemma {:induction false} NoTicketLines(lines: seq<Line>)
    requires forall l :: l in lines ==> !l.TicketLine?
    ensures TicketLines(lines) == []
  {
    if lines != [] {
      NoTicketLines(lines[1..]);
    }
  }

  lemma OneTicketLine(head: seq<Line>, ticket: Line, rest: seq<Line>)
    requires (forall l :: l in head ==> !l.TicketLine?) && ticket.TicketLine?
    ensures TicketLines(head + [ticket] + rest) == [ticket] + TicketLines(rest)
  {
    NoTicketLines(head);
    TicketLinesAppend(head, [ticket] + rest);
    assert head + [ticket] + rest == head + ([ticket] + rest);
    assert ([ticket] + rest)[1..] == rest;
  }

  /** The rows from `k` on, as they are to be printed. */
  function Printed(rows: seq<Row>, k: nat): (lines: seq<Line>)
    requires k <= |rows|
    ensures |lines| == |rows| - k
  {
    seq(|rows| - k, i requires 0 <= i < |rows| - k =>
      TicketLine(rows[k + i].serial, rows[k + i].code, rows[k + i].passenger, rows[k + i].phone))
  }

  lemma PrintedNext(rows: seq<Row>, k: nat)
    requires k < |rows|
    ensures Printed(rows, k) == [Ticket(rows[k])] + Printed(rows, k + 1)
  {
  }

  lemma {:induction false} TicketsPrinted(rows: seq<Row>, k: nat)
    requires k <= |rows|
    ensures TicketLines(LinesFrom(rows, k)) == Printed(rows, k)
    decreases |rows| - k
  {
    if k < |rows| {
      TicketsPrinted(rows, k + 1);
      PrintedNext(rows, k);
      OneTicketLine(Heading(rows[k], Current(rows, k), CountOf(rows, rows[k].stop)), Ticket(rows[k]),
                    LinesFrom(rows, k + 1));
    }
  }

  /** The manifest of a trip begins with the columns of its first row and the number of
      its rows, and then lists every row of the trip, in order, by serial number, code,
      passenger and telephone number. */
  lemma ManifestPrints(groups: seq<TripGroup>, rows: seq<Row>, j: nat)
    requires Grouped(groups, rows) && j < |groups|
    ensures var mine := RowsOf(rows, TripsInOrder(rows)[j]);
            var lines := Preamble(groups[j]) + LinesFrom(groups[j].tickets, 0);
            && mine != [] && |lines| >= 7
            && lines[..7] == [Title, RouteLine(mine[0].route), BusLine(mine[0].bus), DepartureLine(mine[0].departure),
                              DirectionLine(mine[0].direction), PassengersLine(|mine|), Blank]
            && TicketLines(lines) == Printed(mine, 0)
  {
    assert IsGroup(groups[j], rows, TripsInOrder(rows)[j]);
    ManifestParts(groups[j]);
  }

  lemma ManifestParts(g: TripGroup)
    ensures var lines := Preamble(g) + LinesFrom(g.tickets, 0);
            lines[..7] == Preamble(g) && TicketLines(lines) == Printed(g.tickets, 0)
  {
    NoTicketLines(Preamble(g));
    TicketLinesAppend(Preamble(g), LinesFrom(g.tickets, 0));
    TicketsPrinted(g.tickets, 0);
  }

  /** Under each stop header come the column titles and then a ticket of that stop. */
  lemma {:induction false} HeadersPrinted(rows: seq<Row>, k: nat, i: nat)
    requires k <= |rows| && i < |LinesFrom(rows, k)| && LinesFrom(rows, k)[i].StopLine?
    ensures var lines := LinesFrom(rows, k);
            && i + 2 < |lines| && lines[i + 1] == Columns
            && exists m :: k <= m < |rows| && rows[m].stop == lines[i].stop && lines[i + 2] == Ticket(rows[m])
    decreases |rows| - k
  {
    var head := Heading(rows[k], Current(rows, k), CountOf(rows, rows[k].stop));
    var lines, rest := LinesFrom(rows, k), LinesFrom(rows, k + 1);
    assert lines == head + [Ticket(rows[k])] + rest;
    if i > |head| {
      HeadersPrinted(rows, k + 1, i - |head| - 1);
      assert lines[|head| + 1..] == rest;
    } else {
      assert rows[k].stop == lines[i].stop && lines[|head|] == Ticket(rows[k]);
    }
  }
}
