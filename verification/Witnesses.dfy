/** Runs that show what the conditions of `SeatRuns`, `Overbooking`, `LiveFares` and
    `WeeklyQuota` exclude: each starts from empty tables and reaches a world in which the property
    has failed. */
module Witnesses {
  import opened Outcomes
  import opened Sums
  import opened Ledgers
  import opened Tables
  import opened Bookings
  import opened SeatAccounting
  import opened Topups
  import opened System
  import opened LiveFares
  import opened ClosedTrips
  import opened Overbooking
  import opened WeeklyQuota

  const DAY := 24 * 60 * MINUTE
  const QUOTAS := map[(TransportAdmin, Outbound) := 2]
  const EMPTY := World(Db(EMPTY_LEDGER, map[], map[], map[], map[], QUOTAS), 0, map[], {}, {}, {}, {}, {})

  /** The user asks for two of the four seats of trip 7, at price 5. */
  const ASK := HoldRequest(7, 2, 0, 0)

  function Request(departure: Time): TripRequest {
    TripRequest(4, 5, Outbound, Student, departure, 2, 1)
  }

  function Bus(departure: Time, available: int): Trip {
    Trip(4, available, 5, Outbound, Student, departure, 2, 1, Unset)
  }

  function Kept(at: Time): Hold {
    Hold(7, 1, 0, 0, at + 7 * MINUTE)
  }

  /** A run with one more step. */
  lemma More(ws: seq<World>, steps: seq<Step>, s: Step) returns (ws': seq<World>, steps': seq<Step>)
    requires Run(ws, steps) && Enabled(ws[|steps|], s)
    ensures Run(ws', steps') && |steps'| == |steps| + 1 && ws <= ws' && steps <= steps'
    ensures ws'[|steps|] == ws[|steps|] && ws'[|steps'|] == Next(ws[|steps|], s) && steps'[|steps|] == s
  {
    ws', steps' := ws + [Next(ws[|steps|], s)], steps + [s];
    forall i | 0 <= i < |steps'|
      ensures Enabled(ws'[i], steps'[i]) && ws'[i + 1] == Next(ws'[i], steps'[i])
    {
      if i < |steps| {
        assert ws'[i] == ws[i] && ws'[i + 1] == ws[i + 1] && steps'[i] == steps[i];
      }
    }
  }

  // ----- the common beginning

  /** Holds taken while the current week counts none of the user's. */
  lemma TakeTwo(db: Db, now: Time, departure: Time, available: int, a: HoldId, b: HoldId)
    requires db.trips == map[7 := Bus(departure, available)] && db.tickets == map[] && db.quotas == QUOTAS
    requires available >= 2 && a != b && a !in db.holds && b !in db.holds
    requires CountedHolds(db, 1, Outbound, WeekOf(now), now) == {}
    ensures HoldSeats(db, 1, TransportAdmin, ASK, now, [a, b]) ==
            Ok(db.(trips := map[7 := Bus(departure, available - 2)], holds := db.holds[a := Kept(now)][b := Kept(now)]))
  {
    assert CountedTickets(db, 1, Outbound, WeekOf(now)) == {};
    var db1 := db.(trips := db.trips[7 := Bus(departure, available - 1)], holds := db.holds[a := Kept(now)]);
    var db2 := db1.(trips := db1.trips[7 := Bus(departure, available - 2)], holds := db1.holds[b := Kept(now)]);
    assert [a, b][1..] == [b] && [b][1..] == [];
    assert TakeSeats(db1, Kept(now), [b]) == TakeSeats(db2, Kept(now), []) == Ok(db2);
    assert db2.trips == map[7 := Bus(departure, available - 2)];
  }

  /** Two seats of a new trip are held. */
  function TwoHeld(departure: Time): World {
    EMPTY.(db := EMPTY.db.(trips := map[7 := Bus(departure, 2)], holds := map[5 := Kept(0), 6 := Kept(0)]),
           born := map[5 := Kept(0), 6 := Kept(0)])
  }

  lemma HoldTwo(departure: Time) returns (ws: seq<World>, steps: seq<Step>)
    ensures Run(ws, steps) && |steps| == 2 && ws[2] == TwoHeld(departure)
  {
    var w1 := EMPTY.(db := EMPTY.db.(trips := map[7 := Bus(departure, 4)]));
    ws, steps := More([EMPTY], [], AddTrip(7, Request(departure)));
    assert ws[1] == w1;
    TakeTwo(w1.db, 0, departure, 4, 5, 6);
    ws, steps := More(ws, steps, TakeHolds(1, TransportAdmin, ASK, [5, 6]));
    assert ws[2] == TwoHeld(departure);
  }

  function Sold(code: nat, status: TicketStatus): Ticket {
    Ticket(7, 1, code, 0, 0, 5, status)
  }

  /** A confirmation without payment is one ticket for each line. */
  lemma ConfirmLine(db: Db, item: Item, now: Time, departure: Time, available: int)
    requires db.trips == map[7 := Bus(departure, available)] && item.hold in db.holds && item.draws != []
    requires db.holds[item.hold].trip == 7 && db.holds[item.hold].user == 1 && now <= db.holds[item.hold].expiresAt
    requires db.holds[item.hold].pickup == db.holds[item.hold].dropoff == 0
    requires !CodeTaken(db, 7, item.draws[0])
    ensures ConfirmBatch(db, 1, TransportAdmin, [item], now) ==
            Ok(db.(holds := db.holds - {item.hold},
                   tickets := db.tickets[item.ticket := Sold(item.draws[0], Confirmed)]))
  {
    var row := db.holds[item.hold];
    assert [item][1..] == [] && [row] + [] == [row] && LockHolds(db, 1, [item]) == Ok([row]);
    assert ConfirmItems(db, 1, false, [item], [row], now) == ConfirmItem(db, 1, false, item, row, now);
  }

  lemma TwoHeldIsFine(departure: Time)
    ensures SeatsOk(TwoHeld(departure).db) && Within(TwoHeld(departure), 1, Outbound, 0, 2)
  {
    var db := TwoHeld(departure).db;
    assert HoldsOn(db, 7) == {5, 6} && SoldOn(db, 7) == {};
    assert CountedTickets(db, 1, Outbound, 0) == {};
    SubsetSize(CountedHolds(db, 1, Outbound, 0, 0), {5, 6});
  }

  // ----- seats

  ghost predicate Oversold(db: Db) {
    7 in db.trips && Room(db, 7) < 0
  }

  lemma OversoldIsNotOk(db: Db)
    requires Oversold(db)
    ensures !SeatsOk(db)
  {
    if SeatsOk(db) {
      SeatsNeverExceedCapacity(db, 7);
    }
  }

  const TWICE := [Item(5, 1, [10]), Item(5, 2, [11])]

  lemma ConfirmTwice(departure: Time)
    ensures var db := TwoHeld(departure).db;
            ConfirmBatch(db, 1, TransportAdmin, TWICE, 0) ==
            Ok(db.(holds := map[6 := Kept(0)], tickets := map[1 := Sold(10, Confirmed), 2 := Sold(11, Confirmed)]))
  {
    var db := TwoHeld(departure).db;
    var row := Kept(0);
    var db1 := db.(holds := map[6 := row], tickets := map[1 := Sold(10, Confirmed)]);
    assert TWICE[1..] == [TWICE[1]] && [TWICE[1]][1..] == [] && [row, row][1..] == [row] && [row][1..] == [];
    assert [row] + [] == [row] && [row] + [row] == [row, row];
    assert LockHolds(db, 1, [TWICE[1]]) == Ok([row]);
    assert LockHolds(db, 1, TWICE) == Ok([row, row]);
    assert db.holds - {5} == map[6 := row] && db1.holds - {5} == map[6 := row];
    assert ConfirmItem(db, 1, false, TWICE[0], row, 0) == Ok(db1);
    assert ConfirmItems(db1, 1, false, [TWICE[1]], [row], 0) == ConfirmItem(db1, 1, false, TWICE[1], row, 0);
  }

  lemma TwiceIsTooMuch(db: Db)
    requires db.trips == map[7 := Bus(DAY, 2)] && db.holds == map[6 := Kept(0)]
    requires db.tickets == map[1 := Sold(10, Confirmed), 2 := Sold(11, Confirmed)]
    ensures Oversold(db) && Usage(db, 1, Outbound, 0, 0) == 3
  {
    assert HoldsOn(db, 7) == {6} && ConfirmedTickets(db, 7) == {1, 2};
    assert CountedTickets(db, 1, Outbound, 0) == {1, 2} && CountedHolds(db, 1, Outbound, 0, 0) == {6};
  }

  /** One hold named twice: two tickets for one seat, and three places taken under a
      limit of two. */
  lemma DuplicateHoldOversells() returns (ws: seq<World>, steps: seq<Step>)
    ensures Run(ws, steps) && |steps| == 3 && SeatsOk(ws[2].db) && Within(ws[2], 1, Outbound, 0, 2)
    ensures Oversold(ws[3].db) && !SeatsOk(ws[3].db) && !Within(ws[3], 1, Outbound, 0, 2)
  {
    ws, steps := HoldTwo(DAY);
    TwoHeldIsFine(DAY);
    ConfirmTwice(DAY);
    ws, steps := More(ws, steps, Confirm(1, TransportAdmin, TWICE));
    TwiceIsTooMuch(ws[3].db);
    OversoldIsNotOk(ws[3].db);
  }

  /** The capacity is cut below the two holds. */
  lemma CapacityCutOversells() returns (ws: seq<World>, steps: seq<Step>)
    ensures Run(ws, steps) && |steps| == 3 && SeatsOk(ws[2].db)
    ensures Oversold(ws[3].db) && !SeatsOk(ws[3].db)
  {
    ws, steps := HoldTwo(DAY);
    TwoHeldIsFine(DAY);
    ws, steps := More(ws, steps, ChangeTrip(7, Request(DAY).(capacity := 1), 0));
    assert HoldsOn(ws[3].db, 7) == {5, 6};
    OversoldIsNotOk(ws[3].db);
  }

  /** Two seats are held and the trip is cancelled. */
  function HeldAndGone(): World {
    var w := TwoHeld(DAY);
    w.(db := w.db.(trips := map[7 := Bus(DAY, 2).(manual := MarkedCancelled)]), tripReads := {(7, [])})
  }

  lemma CancelHeldTrip() returns (ws: seq<World>, steps: seq<Step>)
    ensures Run(ws, steps) && |steps| == 4 && ws[4] == HeldAndGone() && CancelsAt(ws, steps, 3, 7)
  {
    ws, steps := HoldTwo(DAY);
    ws, steps := More(ws, steps, ReadTrip(7, []));
    ws, steps := More(ws, steps, CancelTrip(7, []));
    assert CancelTicketsOf(map[], 7) == map[];
  }

  /** A hold outlives the cancellation of its trip and is confirmed afterwards: a valid
      ticket for a cancelled trip. */
  lemma HoldOutlivesTrip() returns (ws: seq<World>, steps: seq<Step>)
    ensures Run(ws, steps) && |steps| == 5 && CancelsAt(ws, steps, 3, 7) && steps[4].Confirm?
    ensures MarkedSo(ws[5].db, 7, MarkedCancelled)
    ensures ConfirmedTickets(ws[4].db, 7) == {} && ConfirmedTickets(ws[5].db, 7) == {1}
  {
    ws, steps := CancelHeldTrip();
    ConfirmOneOf(HeldAndGone().db);
    ws, steps := More(ws, steps, Confirm(1, TransportAdmin, [Item(5, 1, [10])]));
    assert ConfirmedTickets(ws[4].db, 7) == {};
    assert ConfirmedTickets(ws[5].db, 7) == {1};
  }

  lemma ConfirmOneOf(db: Db)
    requires db == HeldAndGone().db
    ensures ConfirmBatch(db, 1, TransportAdmin, [Item(5, 1, [10])], 0) ==
            Ok(db.(holds := map[6 := Kept(0)], tickets := map[1 := Sold(10, Confirmed)]))
  {
    var item, row := Item(5, 1, [10]), Kept(0);
    assert [item][1..] == [] && [row] + [] == [row] && LockHolds(db, 1, [item]) == Ok([row]);
    assert db.holds - {5} == map[6 := row];
    assert ConfirmItems(db, 1, false, [item], [row], 0) == ConfirmItem(db, 1, false, item, row, 0);
  }

  const READ := TicketRead(1, 7, 1, 5)

  /** One hold has become a ticket, which a cancellation has read. */
  function OneSold(available: int, status: TicketStatus): World {
    var w := TwoHeld(DAY);
    w.(db := w.db.(trips := map[7 := Bus(DAY, available)], holds := map[6 := Kept(0)],
                   tickets := map[1 := Sold(10, status)]),
       ticketReads := {READ})
  }

  lemma SellAndRead() returns (ws: seq<World>, steps: seq<Step>)
    ensures Run(ws, steps) && |steps| == 4 && ws[4] == OneSold(2, Confirmed)
  {
    ws, steps := HoldTwo(DAY);
    ConfirmLine(ws[2].db, Item(5, 1, [10]), 0, DAY, 2);
    ws, steps := More(ws, steps, Confirm(1, TransportAdmin, [Item(5, 1, [10])]));
    assert ws[3].db.holds == map[6 := Kept(0)] && ws[3].db.tickets == map[1 := Sold(10, Confirmed)];
    ws, steps := More(ws, steps, ReadTicket(1, 1));
    assert ReadForCancellation(ws[3].db, 1, 1, 0) == Ok(READ);
  }

  lemma CancelOnce(available: int, status: TicketStatus)
    requires available < 4 && status != CancelledByAdmin
    ensures Next(OneSold(available, status), Cancel(READ, TransportAdmin)) == OneSold(available + 1, Cancelled)
  {
    var db := OneSold(available, status).db;
    assert SetTicketCancelled(db, 1).tickets == map[1 := Sold(10, Cancelled)];
    assert IncrementTripSeat(SetTicketCancelled(db, 1), 7).trips == map[7 := Bus(DAY, available + 1)];
  }

  lemma ReturnedTwice(once: Db, twice: Db)
    requires once == OneSold(3, Cancelled).db && twice == OneSold(4, Cancelled).db
    ensures SeatsOk(once) && Oversold(twice) && !SeatsOk(twice)
  {
    assert HoldsOn(once, 7) == {6} && SoldOn(once, 7) == {};
    assert HoldsOn(twice, 7) == {6};
    OversoldIsNotOk(twice);
  }

  /** Two cancellations act on one read: the seat comes back twice, once from under a
      hold. */
  lemma StaleCancelOversells() returns (ws: seq<World>, steps: seq<Step>)
    ensures Run(ws, steps) && |steps| == 6 && steps[4] == steps[5] == Cancel(READ, TransportAdmin)
    ensures SeatsOk(ws[5].db) && Oversold(ws[6].db) && !SeatsOk(ws[6].db)
  {
    ws, steps := SellAndRead();
    CancelOnce(2, Confirmed);
    ws, steps := More(ws, steps, Cancel(READ, TransportAdmin));
    CancelOnce(3, Cancelled);
    ws, steps := More(ws, steps, Cancel(READ, TransportAdmin));
    ReturnedTwice(ws[5].db, ws[6].db);
  }

  // ----- refunds

  const WALLETS := {Revenue, Liability, PersonalOf(1)}
  const FUNDED := Ledger(WALLETS, [Header(JazzcashDeposit, 0)],
                         [Entry(Liability, -5, 0, -5), Entry(PersonalOf(1), 5, 0, 5)])
  const PAID := Ledger(WALLETS, [Header(JazzcashDeposit, 0), Header(TransportBooking, 1)],
                       [Entry(Liability, -5, 0, -5), Entry(PersonalOf(1), 5, 0, 5),
                        Entry(PersonalOf(1), -5, 1, 0), Entry(Revenue, 5, 1, 5)])

  lemma FundedBalances()
    ensures Balance(FUNDED, PersonalOf(1)) == 5 && Balance(FUNDED, Revenue) == 0
  {
    var debit, credit := FUNDED.entries[0], FUNDED.entries[1];
    assert FUNDED.entries == [] + [debit] + [credit];
    forall w
      ensures Balance(FUNDED, w) == if w == PersonalOf(1) then 5 else if w == Liability then -5 else 0
    {
      SumAppend([], debit, w);
      SumAppend([] + [debit], credit, w);
    }
  }

  lemma TopUpFunds()
    ensures CreditLedger(EMPTY_LEDGER, Credit(0, 1, 5)) == Ok(FUNDED)
  {
    var l := OpenWallet(EMPTY_LEDGER, 1);
    var l' := Post(l, Liability, PersonalOf(1), 5, JazzcashDeposit, 0);
    assert l.wallets == WALLETS && l'.wallets == WALLETS;
    assert l'.headers == FUNDED.headers && l'.entries == FUNDED.entries;
  }

  lemma BookingPays()
    ensures Transfer(FUNDED, PersonalOf(1), Revenue, 5, TransportBooking, 1) == Ok(PAID)
  {
    FundedBalances();
    var l' := Post(FUNDED, PersonalOf(1), Revenue, 5, TransportBooking, 1);
    assert l'.headers == PAID.headers && l'.entries == PAID.entries;
    assert FUNDED.headers[0] != Header(TransportBooking, 1);
  }

  /** The user has topped up what one ticket costs. */
  function Funded(): World {
    var w := TwoHeld(DAY);
    w.(db := w.db.(ledger := FUNDED, payments := map[0 := Payment(1, 5, Success, false)]), reported := {0})
  }

  /** And bought it as a student. */
  function Bought(status: TicketStatus): World {
    var w := Funded();
    w.(db := w.db.(ledger := PAID, holds := map[6 := Kept(0)], tickets := map[1 := Sold(10, status)]))
  }

  lemma FundTwo() returns (ws: seq<World>, steps: seq<Step>)
    ensures Run(ws, steps) && |steps| == 4 && ws[4] == Funded()
  {
    ws, steps := HoldTwo(DAY);
    ws, steps := More(ws, steps, NewPayment(0, 1, 5));
    TopUpFunds();
    ws, steps := More(ws, steps, CardResult(0, Success));
    assert ws[4].db.payments == map[0 := Payment(1, 5, Success, false)];
  }

  lemma StudentBuys(w: World, now: Time)
    requires w.db == Funded().db && now <= 420
    ensures ConfirmBatch(w.db, 1, Student, [Item(5, 1, [10])], now) == Ok(Bought(Confirmed).db)
  {
    var db, item, row := w.db, Item(5, 1, [10]), Kept(0);
    BookingPays();
    assert OpenWallet(FUNDED, 1) == FUNDED && Opened(db, 1, Student) == db;
    assert [item][1..] == [] && [row] + [] == [row] && LockHolds(db, 1, [item]) == Ok([row]);
    assert db.holds - {5} == map[6 := row];
    assert ConfirmItems(db, 1, true, [item], [row], now) == ConfirmItem(db, 1, true, item, row, now);
  }

  lemma PaidAndGone(db: Db, status: TicketStatus)
    requires db.ledger == PAID && db.tickets == map[1 := Sold(10, status)]
    ensures AllRefunded(db) <==> status == Confirmed
  {
    assert PAID.headers[1] == Header(TransportBooking, 1) && Header(Refund, 1) !in PAID.headers;
    assert BookingDebitExists(db.ledger, 1);
  }

  /** And a cancellation has read the ticket. */
  function BoughtAndRead(): World {
    Bought(Confirmed).(ticketReads := {READ})
  }

  lemma BuyAndRead() returns (ws: seq<World>, steps: seq<Step>)
    ensures Run(ws, steps) && |steps| == 6 && ws[6] == BoughtAndRead()
  {
    ws, steps := FundTwo();
    StudentBuys(ws[4], 0);
    ws, steps := More(ws, steps, Confirm(1, Student, [Item(5, 1, [10])]));
    ws, steps := More(ws, steps, ReadTicket(1, 1));
    assert ReadForCancellation(Bought(Confirmed).db, 1, 1, 0) == Ok(READ);
  }

  lemma CancelAsEmployee()
    ensures var db := Next(BoughtAndRead(), Cancel(READ, Employee)).db;
            db.ledger == PAID && db.tickets == map[1 := Sold(10, Cancelled)]
  {
  }

  /** A ticket paid for as a student and cancelled under another role: no refund, and
      the ticket is gone. */
  lemma OtherRoleKeepsFare() returns (ws: seq<World>, steps: seq<Step>)
    ensures Run(ws, steps) && |steps| == 7 && steps[6] == Cancel(READ, Employee)
    ensures AllRefunded(ws[6].db) && !AllRefunded(ws[7].db)
    ensures Balance(ws[7].db.ledger, Revenue) > SumMap(LiveFares.LiveFares(ws[7].db))
  {
    ws, steps := BuyAndRead();
    CancelAsEmployee();
    ws, steps := More(ws, steps, Cancel(READ, Employee));
    PaidAndGone(ws[6].db, Confirmed);
    PaidAndGone(ws[7].db, Cancelled);
    RevenueLiveIff(ws, steps, 7);
  }

  lemma TripGoes()
    ensures var r := CommitTripCancel(Bought(Confirmed).db, 7, []);
            r.Ok? && r.value.ledger == PAID && r.value.tickets == map[1 := Sold(10, CancelledByAdmin)]
  {
    assert CancelTicketsOf(map[1 := Sold(10, Confirmed)], 7) == map[1 := Sold(10, CancelledByAdmin)];
  }

  /** The list of tickets is read, a ticket is sold, and the trip is cancelled by the
      list: the ticket is cancelled without its refund. */
  lemma ListMissesTicket() returns (ws: seq<World>, steps: seq<Step>)
    ensures Run(ws, steps) && |steps| == 7 && steps[4] == ReadTrip(7, []) && steps[6] == CancelTrip(7, [])
    ensures ConfirmedTickets(ws[4].db, 7) == {} && AllRefunded(ws[6].db) && !AllRefunded(ws[7].db)
    ensures Balance(ws[7].db.ledger, Revenue) > SumMap(LiveFares.LiveFares(ws[7].db))
  {
    ws, steps := FundTwo();
    ws, steps := More(ws, steps, ReadTrip(7, []));
    StudentBuys(ws[5], 0);
    ws, steps := More(ws, steps, Confirm(1, Student, [Item(5, 1, [10])]));
    TripGoes();
    ws, steps := More(ws, steps, CancelTrip(7, []));
    PaidAndGone(ws[6].db, Confirmed);
    PaidAndGone(ws[7].db, CancelledByAdmin);
    RevenueLiveIff(ws, steps, 7);
  }

  // ----- the weekly limit

  /** Two holds have just expired and two more are taken; seven minutes have passed. */
  function FourHeld(): World {
    var w := TwoHeld(DAY);
    var holds := map[5 := Kept(0), 6 := Kept(0), 8 := Kept(420), 9 := Kept(420)];
    w.(db := w.db.(trips := map[7 := Bus(DAY, 0)], holds := holds), now := 420, born := holds)
  }

  lemma FourHeldUsage()
    ensures Usage(FourHeld().db, 1, Outbound, 0, 420) == 2
  {
    assert CountedTickets(FourHeld().db, 1, Outbound, 0) == {};
    assert CountedHolds(FourHeld().db, 1, Outbound, 0, 420) == {8, 9};
  }

  lemma TakeTwoMore() returns (ws: seq<World>, steps: seq<Step>)
    ensures Run(ws, steps) && |steps| == 4 && ws[4] == FourHeld()
  {
    ws, steps := HoldTwo(DAY);
    ws, steps := More(ws, steps, Tick(420));
    assert CountedHolds(ws[3].db, 1, Outbound, 0, 420) == {};
    TakeTwo(ws[3].db, 420, DAY, 2, 8, 9);
    ws, steps := More(ws, steps, TakeHolds(1, TransportAdmin, ASK, [8, 9]));
  }

  lemma ConfirmedAtExpiry(db: Db)
    requires db.trips == map[7 := Bus(DAY, 0)] && db.tickets == map[1 := Sold(10, Confirmed)]
    requires db.holds == FourHeld().db.holds - {5}
    ensures Usage(db, 1, Outbound, 0, 420) == 3
  {
    assert CountedTickets(db, 1, Outbound, 0) == {1};
    assert CountedHolds(db, 1, Outbound, 0, 420) == {8, 9};
  }

  /** A hold may be confirmed in the very second in which it expires and no longer
      counts. */
  lemma ExpiryInstantExceedsQuota() returns (ws: seq<World>, steps: seq<Step>)
    ensures Run(ws, steps) && |steps| == 5 && steps[4].Confirm? && DistinctHolds(steps[4].items)
    ensures Within(ws[4], 1, Outbound, 0, 2) && !Within(ws[5], 1, Outbound, 0, 2)
  {
    ws, steps := TakeTwoMore();
    FourHeldUsage();
    ConfirmLine(FourHeld().db, Item(5, 1, [10]), 420, DAY, 0);
    ws, steps := More(ws, steps, Confirm(1, TransportAdmin, [Item(5, 1, [10])]));
    ConfirmedAtExpiry(ws[5].db);
  }

  const LATER := 7 * DAY + DAY

  /** Four holds on a trip of next week, or of this one once it has been moved. */
  function FourTaken(departure: Time): World {
    var holds := map[5 := Kept(0), 6 := Kept(0), 8 := Kept(0), 9 := Kept(0)];
    var w := TwoHeld(departure);
    w.(db := w.db.(trips := map[7 := Bus(departure, 0)], holds := holds), born := holds)
  }

  lemma FourTakenUsage(departure: Time, week: int)
    ensures Usage(FourTaken(departure).db, 1, Outbound, week, 0) == if WeekOf(departure) == week then 4 else 0
  {
    assert CountedTickets(FourTaken(departure).db, 1, Outbound, week) == {};
    assert CountedHolds(FourTaken(departure).db, 1, Outbound, week, 0) ==
           if WeekOf(departure) == week then {5, 6, 8, 9} else {};
  }

  lemma TakeFour() returns (ws: seq<World>, steps: seq<Step>)
    ensures Run(ws, steps) && |steps| == 3 && ws[2] == TwoHeld(LATER) && ws[3] == FourTaken(LATER)
            && steps[2].TakeHolds?
  {
    ws, steps := HoldTwo(LATER);
    assert CountedHolds(ws[2].db, 1, Outbound, 0, 0) == {};
    TakeTwo(ws[2].db, 0, LATER, 2, 8, 9);
    ws, steps := More(ws, steps, TakeHolds(1, TransportAdmin, ASK, [8, 9]));
  }

  /** Next week's trip takes twice the limit, and is then moved into this week. */
  lemma OtherWeeksExceedQuota() returns (ws: seq<World>, steps: seq<Step>)
    ensures Run(ws, steps) && |steps| == 4 && steps[2].TakeHolds? && steps[3].ChangeTrip?
    ensures Within(ws[2], 1, Outbound, 1, 2) && !Within(ws[3], 1, Outbound, 1, 2)
    ensures Within(ws[3], 1, Outbound, 0, 2) && !Within(ws[4], 1, Outbound, 0, 2)
  {
    ws, steps := TakeFour();
    NextWeekIsFine();
    FourTakenUsage(LATER, 1);
    FourTakenUsage(LATER, 0);
    ws, steps := More(ws, steps, ChangeTrip(7, Request(DAY), 0));
    assert ws[4] == FourTaken(DAY);
    FourTakenUsage(DAY, 0);
  }

  lemma NextWeekIsFine()
    ensures Within(TwoHeld(LATER), 1, Outbound, 1, 2)
  {
    var db := TwoHeld(LATER).db;
    assert CountedTickets(db, 1, Outbound, 1) == {};
    SubsetSize(CountedHolds(db, 1, Outbound, 1, 0), {5, 6});
  }
}
