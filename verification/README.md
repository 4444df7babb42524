# A model of the GIKI wallet and transport services

The repository keeps prepaid wallets for a university community and sells bus seats
against them.  Three services share one PostgreSQL database: a double-entry ledger, a
seat life cycle (hold, ticket, cancellation) and top-ups through a payment gateway.
This project states in Dafny what these services do to the tables and proves what their
design relies on: over single calls, over whole runs of interleaved transactions, and
over single statements where locks are the point.

`dafny verify dfyconfig.toml` checks everything.

## How the model is built

* `Uuids`, `Sums`, `Outcomes`, `Options`, `Tables` hold identifiers and their in-place sort,
  sums over maps, error and optional values, the rows, and the all-or-nothing transaction.
* `Ledgers`, `Bookings`, `Topups` are the specification: what each transaction does to the
  tables, as functions.  `Store`, `WalletService`, `TransportService`, `PaymentService` are
  the services themselves, classes whose methods follow the Go code statement by statement
  and are proved against those functions.
* `Holding`, `Cancelling`, `Confirmation` and `Topups` say of the rows alone when each
  operation goes through, which error it answers otherwise and what it leaves, in numbers and
  columns and without the specification's own helpers.  `SeatAccounting` and `Reversals` prove
  what single operations and their reversal keep.
* `System` is a machine whose steps are committed transactions and the reads that precede
  them.  A cancellation, a trip cancellation, the reaper and the second phase of a top-up act
  on rows read earlier, at any later time and any number of times.  `Invariants`, `Reachable`,
  `SeatRuns`, `Overbooking`, `HoldFates`, `LiveFares`, `WeeklyQuota` and `ClosedTrips` prove
  properties of every run, and `Witnesses` holds runs in which the properties that the code does not keep
  fail.
* `LedgerInterleaving` takes transfers apart into row locks, balance reads and inserts under
  read-committed visibility, and `Serializability` shows that what is committed is what atomic
  transfers in the order of the commits would leave.  `BookingLocks` takes the booking,
  payment and clean-up transactions apart into the statements that may wait for a lock or for
  a connection, and `LockLimits` shows what their order cannot do without.  `LockOrder` holds
  the argument both share.
* `SecureHash`, `TripCache`, `TokenRefresh`, `ExportManifest`, `StopOptions` are
  self-contained algorithms of the gateway client, the transport service and the web client.

## What the SQL and the schema contribute

The queries in `backend/internal/*/sql/queries.sql` and the tables in `backend/sql/schema`
decide several points: transaction headers are unique on type and reference
(`005_wallets.sql:29`); the balance of a wallet is the `balance_after` of its newest row, and
rows are stamped with the clock at insertion (`021_fix_ledger_balance_ordering.sql:5`);
incrementing free seats stops at the capacity, decrementing needs one free seat; a refund is of
the price paid; the usage query counts confirmed tickets and unexpired holds of the current
week; setting a ticket cancelled affects confirmed tickets only.  A unique violation leaves the
database transaction in the failed state, so the commit that follows fails too.

## Where the code and what it says of itself differ

* The running balance is the sum of the history only while sender and receiver differ, which
  nothing checks (`Ledgers.SnapshotKeptIffWalletsDiffer`).
* `ErrTripFull` cannot be returned: a full trip makes the seat statement return no row, which
  is reported as a database error (`backend/internal/transport/service.go:314-320`).
* Redrawing a ticket code cannot help, because the first collision fails the transaction
  (`backend/internal/transport/service.go:460-485`).
* A second credit for a payment is meant to count as success; the failed transaction makes the
  commit report an error instead.  The money is right either way (`Topups.AttemptsCreditOnce`).
* The weekly limit is checked against the current week whatever week the trip is in
  (`WeeklyQuota.QuotaCheckedIffCurrentWeek`), and nothing checks it when a trip is moved to
  another week, when a batch names a hold twice, or when a hold is confirmed in the second in
  which it expires.  `WeeklyQuota.QuotaKeptIff` says exactly when a run keeps a limit;
  `Witnesses.OtherWeeksExceedQuota`, `Witnesses.DuplicateHoldOversells` and
  `Witnesses.ExpiryInstantExceedsQuota` are runs that do not.
* A batch may name a hold twice (`SeatAccounting.ConfirmBatchKeepsSeatsIff`), a capacity may be
  cut below holds plus tickets (`SeatAccounting.UpdateTripKeepsSeatsIff`), and a cancellation
  that read its ticket before another one acted may return a seat twice
  (`SeatAccounting.CommitCancelKeepsSeatsIff`).  Over runs, `SeatRuns.SeatsConservedIff` says
  that these three are all that can go wrong with seats, and `Overbooking.CapacityKeptIff`
  exactly when they put more on a trip than it has room for; `Witnesses` has a run for each.
* A paid ticket cancelled under another role is not refunded, and neither is one sold after a
  trip cancellation has read its list (`LiveFares.RefundsCompleteIff`,
  `Witnesses.OtherRoleKeepsFare`, `Witnesses.ListMissesTicket`).  The revenue is then more than
  the prices of the valid tickets (`LiveFares.RevenueAlwaysLiveIff`).
* A hold outlives the cancellation of its trip and can be confirmed afterwards, which makes a
  valid ticket for a cancelled trip (`ClosedTrips.EmptyUntilBoardedIff`,
  `Witnesses.HoldOutlivesTrip`).
* A status check answers success although the credit of it failed, and calls a payment failed
  that it stores as pending (`Topups.StatusCheckAnswers`).
* A trip cancellation with two refunds waits for itself (`LockLimits.TripCancelBlocksItselfIff`).
* Transactions send some statements on a second connection.  When more than half of the pool
  (`backend/cmd/main.go:60`) is taken by open transactions, all of them can be stopped
  (`LockLimits.PoolSizeIff`).
* A session without a refresh token leaves later requests queued for ever
  (`TokenRefresh.StuckIff`, `TokenRefresh.NoTokenStrands`), and a refresh that throws empties the queue without ever answering
  the requests in it (`TokenRefresh.AnsweredIff`).

## Model

| member | source | states |
|---|---|---|
| Uuids.TextForm | backend/internal/common/db_utils.go:73 | the canonical text is 32 lower-case hexadecimal digits that spell the value, with dashes after the eighth, twelfth, sixteenth and twentieth |
| Uuids.TextOrder | backend/internal/common/db_utils.go:73 | comparing two identifiers by their canonical text, as the code does, orders them as their 128-bit values and identifies only equal ones |
| Uuids.SortUuids | backend/internal/common/db_utils.go:70-78 | the exchange sort leaves the array ascending and a permutation of what it was |
| Uuids.AscendingUnique | backend/internal/transport/service.go:412-416 | the order in which a map yields its keys cannot show after sorting: there is one ascending arrangement |
| Uuids.AscendingDistinct | backend/internal/transport/service.go:412-422 | distinct trip identifiers are locked in strictly ascending order |
| Ledgers.SnapshotIsSum | backend/internal/wallet/service.go:383-394 | the balance read from the newest row equals the sum of every amount ever posted to the wallet |
| Ledgers.TransferAnswers | backend/internal/wallet/service.go:37-112 | a transfer goes through exactly when the amount is positive, both wallets exist, the whole history of a personal sender covers it and it was not made before, and which error it answers otherwise |
| Ledgers.TransferKeepsOk | backend/internal/wallet/service.go:86-154 | a transfer keeps balanced pairs of rows, running balances equal to sums, unique headers, and no overdrawn personal wallet |
| Ledgers.SnapshotKeptIffWalletsDiffer | backend/internal/wallet/service.go:57-154 | all snapshots stay sums exactly when sender and receiver differ |
| Ledgers.BalancesSumToZero | backend/internal/wallet/service.go:113-152 | all balances together are zero, so users hold what the two system wallets owe |
| WalletService.Wallets.GetWalletBalance | backend/internal/wallet/service.go:383-394 | reading back from the newest row finds the running balance, zero without rows |
| WalletService.Wallets.InLockOrder | backend/internal/wallet/service.go:57-62 | the two wallets come out in the order of their identifiers as numbers, though their texts are compared |
| WalletService.Wallets.MoveLocked | backend/internal/wallet/service.go:76-154 | once both rows are locked, the balances read, the checks and the inserts do what the ledger specification says |
| WalletService.Wallets.InsertPair | backend/internal/wallet/service.go:101-152 | header, debit row and credit row with the running balances extend the ledger by exactly one transfer |
| WalletService.Wallets.ExecuteDoubleEntry | backend/internal/wallet/service.go:37-155 | the locked, read-once transfer does exactly what the ledger specification says, in every error case too |
| LedgerInterleaving.LockedReadIsSum | backend/internal/wallet/service.go:66-94 | a balance read under the row lock is the sum of all rows, whatever other transactions have written and not committed |
| LedgerInterleaving.RunKeepsInv | backend/internal/wallet/service.go:57-154 | in every interleaving of locks, reads, inserts, commits and aborts, uncommitted rows belong to the lock holder, running balances stay chained, and each transaction's rows amount to what it has done |
| LedgerInterleaving.UnlockedSnapshotIsSum | backend/internal/wallet/service.go:57-154 | while a wallet is unlocked its newest row carries the sum of all its rows and all of them are committed |
| LedgerInterleaving.CommittedBalance | backend/internal/wallet/service.go:57-154 | no lost update: the committed balance is the sum of the effects of the committed transactions at every moment, and is not negative for a user |
| LedgerInterleaving.SomeTransactionSteps | backend/internal/wallet/service.go:57-75 | with both wallets locked in identifier order, transactions over arbitrary pairs always have one that can take its next step |
| LedgerInterleaving.SeveralPairsCanDeadlock | backend/internal/wallet/service.go:57-75 | the order within one transfer does not cover transactions of several transfers: a reachable state in which one that pays two users in turn and a payment by one of them wait for each other |
| Stores.Store.Commit | backend/internal/common/db.go:25-29 | a callback's changes stay only if the commit goes through; otherwise every table is as it was at the start |
| Stores.Store.Rollback | backend/internal/common/db.go:19-23 | after an error of the callback every table is as it was at the start |
| Serializability.InterleavingIsSerial | backend/internal/wallet/service.go:57-154 | at every moment the committed transactions, run one after the other in commit order with each transfer atomic, all go through and leave every wallet the same amounts, running balances and balance |
| Serializability.CommitAgrees | backend/internal/wallet/service.go:57-154 | a commit adds to the committed rows exactly what its transfers would have added as a whole |
| SeatAccounting.TakeSeatsKeepsSeats | backend/internal/transport/service.go:312-339 | holding seats moves them from free to held and loses none |
| SeatAccounting.ConfirmItemsUnheld | backend/internal/transport/service.go:425-513 | over the confirmation loop a trip loses exactly one seat for each turn that does not find its hold any more |
| SeatAccounting.ConfirmItemsSlack | backend/internal/transport/service.go:425-513 | over the confirmation loop no trip gains slack, and none changes exactly when every turn finds its hold still there |
| SeatAccounting.ConfirmBatchKeepsSeatsIff | backend/internal/transport/service.go:392-528 | a successful batch keeps every seat accounted for exactly when it names no hold twice |
| SeatAccounting.ReleaseReturnsEachSeat | backend/internal/transport/service.go:631-640 | a release gives each trip as many seats as holds of it were deleted |
| SeatAccounting.CleanupReturnsOneSeat | backend/internal/transport/cleanup.go:48-86 | the reaper gives back one seat for a hold that is there and none for one that has gone, however stale the list |
| SeatAccounting.CommitCancelKeepsSeatsIff | backend/internal/transport/service.go:652-718 | a cancellation keeps seats accounted for exactly when its ticket is still confirmed or the trip is empty |
| SeatAccounting.UpdateTripKeepsSeatsIff | backend/internal/transport/service.go:156-192 | resizing a trip keeps seats accounted for exactly when the capacity covers holds plus tickets |
| SeatAccounting.UpdateTripCanOversell | backend/internal/transport/service.go:165-176 | the guard on confirmed tickets alone lets a capacity cut lose a held seat |
| SeatAccounting.SeatsNeverExceedCapacity | backend/internal/transport/sql/queries.sql:187-230 | free seats, holds and valid tickets never exceed the capacity, and equal it for a trip without admin-cancelled tickets |
| Confirmation.ConfirmBatchOutcome | backend/internal/transport/service.go:351-528 | a batch succeeds exactly when all holds exist, are the user's, are unexpired and draw free codes and a student can pay for all; then exactly those holds became tickets at the trips' prices and exactly the sum of prices moved to revenue |
| Confirmation.BatchRefusal | backend/internal/transport/service.go:393-513 | a refused batch answers for the first hold that is missing or somebody else's, or else for the first turn that meets an expired hold, a taken code or too low a balance |
| Confirmation.RefundUndoesPayment | backend/internal/wallet/service.go:175-190 | paying and refunding the same price restores every balance |
| Confirmation.ConfirmThenCancelIsRelease | backend/internal/transport/service.go:652-718 | confirm then cancel leaves balances, holds and seats as releasing the hold would have, even at a changed price |
| Reversals.ConfirmThenCancelAll | backend/internal/transport/service.go:652-718 | confirming any batch of distinct holds and cancelling all its tickets leaves balances, holds and seats as reaping all those holds would have, even when trips have changed their prices |
| Holding.HoldSeatsIff | backend/internal/transport/service.go:252-339 | a request goes through exactly when the trip exists, is for the role and open by hand or by its booking window (administrators apart), the quota of the current week has room and so has the bus |
| Holding.HoldSeatsAnswers | backend/internal/transport/service.go:262-339 | which error a request meets first, and the rows it leaves when it meets none: so many seats less and holds of 180 seconds for students and 420 for everybody else |
| Holding.CreatedTripBookable | backend/internal/transport/service.go:97-154 | only a request with seats, no negative price and an opening before its closing makes a trip, and that trip is bookable exactly from the one to the other |
| Holding.UpdatedTripBookable | backend/internal/transport/service.go:156-192 | an update moves the window and the seats of a trip nobody has marked and leaves a mark alone |
| Holding.ReleaseRows | backend/internal/transport/service.go:626-640 | a release takes exactly the user's unexpired holds, and each trip gets as many seats back as it had holds among them |
| Holding.CleanupAllRows | backend/internal/transport/cleanup.go:37-46 | whatever becomes of its neighbours, each listed hold is reaped exactly if it is there and its own transaction commits, each trip gets its seats back, and the count is of the turns without an error |
| Cancelling.CancelTicketIff | backend/internal/transport/service.go:657-709 | only the owner of a valid ticket may cancel it, before the booking closes, and only if a refund that is due was not paid; and which error anybody else gets |
| Cancelling.CancelTicketRows | backend/internal/transport/service.go:668-716 | then the ticket is cancelled, one seat is free again unless all are, exactly the refund that is due goes to the owner, and nothing else changes |
| Cancelling.OwnerCanCancelIff | backend/internal/transport/service.go:657-709 | in every reachable world the refund goes through, so ownership, validity and time decide alone |
| Cancelling.CancelTripRows | backend/internal/transport/service.go:966-973 | the trip is marked cancelled, all its valid tickets are cancelled by the administrator, and no other trip, ticket, hold or payment changes |
| Cancelling.CancelledTripRefuses | backend/internal/transport/service.go:271-279 | nobody but an administrator gets a hold on a cancelled trip |
| Cancelling.RefundAllPays | backend/internal/transport/service.go:933-951 | the refunds of a trip go through exactly when no listed paid ticket was refunded or is listed twice, and then each owner gets exactly the prices paid and the revenue gives their sum |
| TransportService.Transport.HoldSeats | backend/internal/transport/service.go:252-349 | checks, seat loop and commit do what the specification says, with no effect on failure |
| TransportService.Transport.LockHoldRows | backend/internal/transport/service.go:393-409 | the first loop reads the holds in order, stops at the first missing or foreign one, and collects the trips |
| TransportService.Transport.LockTripsSorted | backend/internal/transport/service.go:412-422 | the trips are locked in strictly ascending order, all of them or a missing one is reported |
| TransportService.Transport.InsertWithRedraws | backend/internal/transport/service.go:460-489 | five draws succeed only when the first does |
| TransportService.Transport.ConfirmRows | backend/internal/transport/service.go:425-524 | the loop with its trip cache gives the same tickets and prices as reading each trip anew |
| TransportService.Transport.ConfirmBatch | backend/internal/transport/service.go:351-538 | the whole call is all or nothing and equals the specification |
| TransportService.Transport.ReleaseAllHolds | backend/internal/transport/service.go:626-650 | one increment for each deleted row, in any order, returns each trip its seats |
| TransportService.Transport.CleanupSingleHold | backend/internal/transport/cleanup.go:48-86 | one hold is reclaimed in its own transaction or nothing happens |
| TransportService.Transport.CleanupExpiredHolds | backend/internal/transport/cleanup.go:21-46 | the loop works through its list, one failure does not stop the rest, and counts what went through |
| TransportService.Transport.CancelTicketWithRole | backend/internal/transport/service.go:652-728 | cancellation, refund and seat return equal the specification, rolled back together |
| TransportService.Transport.CancelTrip | backend/internal/transport/service.go:924-979 | the refund loop and the two updates equal the specification, rolled back together |
| Topups.FinalizeOnce | backend/internal/payment/service.go:613-683 | a finalisation credits the ledger once if it is the first success to go through, and otherwise leaves it alone |
| Topups.AttemptsCreditOnce | backend/internal/payment/service.go:613-683 | any mixture of pollers, status checks, callbacks, timeouts, crashes between phases and failed credits ends with the ledger of one uninterrupted run or an untouched one |
| Topups.DepositedIsFinal | backend/internal/payment/service.go:400-443 | once deposited, no further attempt changes the ledger |
| Topups.StatusIsNotTheRecord | backend/internal/payment/service.go:572-589 | a timeout can leave FAILED on a credited payment, and the next success repairs the status without a second deposit |
| Topups.FinalizeAnswers | backend/internal/payment/service.go:613-683 | the status sticks with the first commit, a terminal one ends the polling and is final even when its credit fails, and the deposit is there afterwards exactly if it was or a success went through both commits |
| Topups.StatusCheckAnswers | backend/internal/payment/service.go:494-525 | success is told exactly when the gateway said it and the status was stored; a failure is told as it came and moves no money; a payment pending after 120 seconds is called failed and stored as the gateway said; a younger one is told as it is and not written |
| Topups.UnknownPaymentAnswers | backend/internal/payment/service.go:613-650 | for a payment that is not on record nothing is written, and what each caller is told |
| Topups.CardCallbackAnswers | backend/internal/payment/service.go:253-306 | status and deposit are stored together or not at all, and the polling flag is left alone |
| Topups.TimeoutStores | backend/internal/payment/service.go:572-589 | a timeout stores FAILED, clears the polling flag and moves no money |
| PaymentService.Payments.FinalizeTransaction | backend/internal/payment/service.go:613-683 | the two phases in separate transactions do what the specification says |
| PaymentService.Payments.CompleteCardPayment | backend/internal/payment/service.go:253-306 | the card callback does what the specification says, in one transaction |
| PaymentService.Payments.CreditWalletFromPayment | backend/internal/payment/service.go:400-443 | the credit goes from the liability wallet to the payment's user, once for each reference |
| PaymentService.Payments.CheckTransactionStatus | backend/internal/payment/service.go:484-526 | the status check finalises terminal and overdue payments and reports as the code does |
| PaymentService.Payments.PollTransactionOnce | backend/internal/payment/service.go:591-611 | one poll finalises with what the gateway said or leaves everything alone |
| PaymentService.Payments.HandlePollingTimeout | backend/internal/payment/service.go:572-589 | a timeout writes FAILED and clears the polling flag, nothing else |
| System.FinalizeIsTwoSteps | backend/internal/payment/service.go:619-679 | an uninterrupted finalisation is the machine's two phase steps in a row |
| Reachable.NextKeepsInv | backend/internal/common/db.go:13-30 | every step of every service keeps ledger and tables consistent with each other and takes nothing back |
| Reachable.RunPersists | backend/internal/wallet/service.go:101-154 | over a run the ledger only grows at its end, and tickets and payments keep owner and amount |
| Reachable.MoneyIdentity | backend/internal/payment/service.go:400-443 | in every reachable world revenue is the prices paid and not refunded, liability is minus the credited top-ups, users hold the difference, and nobody is overdrawn |
| Reachable.DepositExactlyOnce | backend/internal/payment/service.go:253-306 | at most one deposit for a payment, of the stored amount to its owner, only after the gateway reported SUCCESS |
| Reachable.ReportedMeansSuccess | backend/internal/payment/service.go:614-665 | such a report was an earlier step of the run |
| Reachable.RefundOnceAfterBooking | backend/internal/transport/service.go:668-707 | every refund is the only one of its ticket and follows the booking debit of the same ticket, user and amount |
| SeatRuns.SeatsStepIff | backend/internal/transport/service.go:312-339 | a step keeps all seats accounted for exactly when it is safe, by a condition that can be checked before it |
| SeatRuns.SeatsConservedIff | backend/internal/transport/cleanup.go:21-86 | in a run all seats are accounted for in every world exactly when every step is safe; the reaper needs no condition |
| SeatRuns.SafeRunNeverOversells | backend/internal/transport/service.go:631-640 | in a safe run holds and valid tickets never exceed the capacity, and with the free seats they equal it for trips never admin-cancelled |
| SeatRuns.StaleRefundFails | backend/internal/transport/service.go:696-709 | a second student cancellation from a stale read fails and changes nothing once the refund is there |
| Overbooking.CapacityStepIff | backend/internal/transport/service.go:165-186 | from within its capacity a trip stays there over a step exactly when the step leaves room, counted before it |
| Overbooking.CapacityKeptIff | backend/internal/transport/sql/queries.sql:187-230 | in a run free seats, holds and valid tickets of a trip stay within its capacity exactly when every step leaves room, whatever became of the seats of admin-cancelled tickets |
| HoldFates.OneFate | backend/internal/transport/cleanup.go:55-62 | a hold goes at most once in a whole run |
| HoldFates.FateOfHold | backend/internal/transport/service.go:395-489 | in every reachable world it becomes a ticket of its user and trip without touching seats, or is released by its user, or reaped, and nothing else; the seats it returns come back exactly when the trip has room for them |
| HoldFates.SeatOfHoldComesBack | backend/internal/transport/sql/queries.sql:226-230 | while seats are accounted for there is always room, so each released or reaped hold gives its seat back once |
| LiveFares.RefundsStepIff | backend/internal/transport/service.go:668-707 | a step leaves every invalidated paid ticket refunded exactly when it is safe |
| LiveFares.RefundsCompleteIff | backend/internal/transport/service.go:933-951 | over a run no paid ticket loses its validity without its refund exactly when every cancellation is safe |
| LiveFares.RevenueLiveIff | backend/internal/transport/service.go:668-707 | in every reachable world revenue is the prices of the valid paid tickets and those still owed for invalid ones, so it is the former alone exactly when every invalidated paid ticket was refunded |
| LiveFares.RevenueAlwaysLiveIff | backend/internal/transport/service.go:924-979 | in a run revenue is the prices of the valid paid tickets in every world exactly when every cancellation is safe |
| LiveFares.LiveMoneyIdentity | backend/internal/transport/service.go:924-979 | then the users hold the credited top-ups less the prices of the valid paid tickets |
| WeeklyQuota.ConfirmBatchUsageIff | backend/internal/transport/service.go:425-489 | confirming leaves its user's weekly usages as they were exactly when the holds are distinct and live; it never lowers one and never touches another user's |
| WeeklyQuota.QuotaStepIff | backend/internal/transport/service.go:259-339 | from within the limit a step stays within it exactly when what it adds fits: holds taken, turns that find no live hold, and places on a trip moved into the week |
| WeeklyQuota.QuotaKeptIff | backend/internal/transport/service.go:259-339 | in a run, tickets plus live holds of a user in a direction and week stay within the limit exactly when every step fits |
| WeeklyQuota.QuotaNeverExceeded | backend/internal/transport/service.go:285-302 | holds asked for in the current week under that quota, confirmations of distinct live holds, and no trip moved into the week keep the limit over any run |
| WeeklyQuota.QuotaCheckedIffCurrentWeek | backend/internal/transport/sql/queries.sql:156-180 | the check protects the limit for trips of a week exactly when it is the current week |
| Witnesses.DuplicateHoldOversells | backend/internal/transport/service.go:392-430 | a run from empty tables in which one hold named twice sells a seat that is not there and exceeds the weekly limit |
| Witnesses.StaleCancelOversells | backend/internal/transport/service.go:657-718 | a run in which two cancellations act on one read and return a seat twice |
| Witnesses.CapacityCutOversells | backend/internal/transport/service.go:165-186 | a run in which the capacity is cut below the holds |
| Witnesses.OtherRoleKeepsFare | backend/internal/transport/service.go:668-711 | a run in which a paid ticket is cancelled under another role without a refund, and revenue keeps its fare |
| Witnesses.ListMissesTicket | backend/internal/transport/service.go:928-965 | a run in which a ticket sold after the list was read is cancelled without a refund, and revenue keeps its fare |
| Witnesses.HoldOutlivesTrip | backend/internal/transport/service.go:393-489 | a run in which a hold is confirmed after its trip was cancelled |
| Witnesses.ExpiryInstantExceedsQuota | backend/internal/transport/service.go:428-430 | a run in which a hold confirmed as it expires takes the user over the weekly limit |
| Witnesses.OtherWeeksExceedQuota | backend/internal/transport/sql/queries.sql:156-180 | a run in which next week's trip takes twice the limit and is then moved into this week |
| ClosedTrips.FreshListGoesThrough | backend/internal/transport/service.go:924-979 | a trip cancellation by a list just read goes through in every reachable world |
| ClosedTrips.StepMarks | backend/internal/transport/sql/queries.sql:104-117 | marking by hand and cancelling are the only steps that change the mark on a trip |
| ClosedTrips.ClosedUntilMarked | backend/internal/transport/service.go:970-973 | from its cancellation until an administrator marks the trip again no student and no employee gets a hold on it, whatever happens in between |
| ClosedTrips.EmptyUntilBoardedIff | backend/internal/transport/service.go:425-489 | after its cancellation nobody has a valid ticket for the trip, exactly until somebody confirms a hold that was left |
| BookingLocks.PlanOrdered | backend/internal/transport/service.go:369-422 | confirmation, reaper, holding, trip edit, both phases of a top-up, callback and cancellation ask for rows of rising rank, for rows they have, or for the next hold of a batch |
| BookingLocks.RunKeepsExclusive | backend/internal/transport/service.go:369-422 | no row or advisory lock has two holders |
| BookingLocks.WaitsRise | backend/internal/transport/cleanup.go:58-72 | whoever is waited for waits itself only for a row of higher rank; holds in request order are safe because of the advisory lock and ownership |
| BookingLocks.SomeoneMoves | backend/internal/transport/service.go:366-422 | whatever the pool, some open transaction is not waiting for a lock |
| BookingLocks.NeverAllWaiting | backend/internal/transport/service.go:366-422 | in every reachable state with two connections for each open transaction, one of them has finished, or can get its connection, or can run its next statement |
| LockLimits.PoolSizeIff | backend/cmd/main.go:60 | some of `n` open transactions can always go on exactly when the pool has at least `2n` connections |
| LockLimits.TripCancelBlocksItselfIff | backend/internal/wallet/service.go:175-190 | a trip cancellation asks for its own revenue lock from outside exactly when it has a second refund |
| LockLimits.AloneFinishesIff | backend/internal/wallet/service.go:347-367 | with a second connection, a transaction alone in the database has a run to its end exactly when it does not do that |
| LockLimits.SelfBlockedNeverFinishes | backend/internal/wallet/service.go:175-190 | one that does is never finished in any run, whoever else is there |
| LockLimits.ForeignHoldsCanDeadlock | backend/internal/transport/service.go:395-405 | two batches that also name each other's holds reach a state in which both wait |
| LockLimits.ReleaseCanDeadlock | backend/internal/transport/service.go:631-640 | a release and a confirmation in order over two trips reach a state in which both wait |
| SecureHash.JazzCashClient.SelectFields | backend/internal/payment/gateway/jazzcash.go:261-267 | whatever order the map is walked in, exactly the non-empty prefixed fields other than the hash are taken |
| SecureHash.JazzCashClient.SortedKeys | backend/internal/payment/gateway/jazzcash.go:269-276 | the keys come out in byte order whatever order the map is walked in |
| SecureHash.JazzCashClient.JazzcashSecureHash | backend/internal/payment/gateway/jazzcash.go:255-300 | the digest is that of the one canonical message |
| SecureHash.JazzCashClient.VerifyResponseHash | backend/internal/payment/gateway/jazzcash.go:303-332 | accepts exactly a response whose hash field is a string equal to the digest of the others |
| SecureHash.SignedText | backend/internal/payment/gateway/jazzcash.go:261-300 | what is digested is the salt and then the values of exactly the non-empty fields with one of the two prefixes, other than the hash, in byte order of their keys, separated; it can be taken apart again when the separator is in none of them |
| SecureHash.RisingUnique | backend/internal/payment/gateway/jazzcash.go:276 | a set of keys has one sorted listing |
| SecureHash.OnlySignedFieldsMatter | backend/internal/payment/gateway/jazzcash.go:261-267 | field maps that agree on the signed fields have the same digest |
| SecureHash.OwnHashAccepted | backend/internal/payment/gateway/jazzcash.go:303-332 | a response carrying a string as its hash is accepted exactly when that is its own hash |
| SecureHash.MessageDeterminesFields | backend/internal/payment/gateway/jazzcash.go:280-289 | with the same keys and no separator inside a value, equal messages come from equal fields |
| TripCache.TripService.ReadEntry | backend/internal/transport/service.go:58-60 | the look under the read lock is that step of the machine |
| TripCache.TripService.CheckEntry | backend/internal/transport/service.go:62-64 | the check under no lock serves the entry as it was read, or goes on |
| TripCache.TripService.CheckAgain | backend/internal/transport/service.go:66-72 | the check under the write lock serves the entry as it is now, or goes on to the query |
| TripCache.TripService.Complete | backend/internal/transport/service.go:74-94 | the end stores the rows, emptying a map of more than a hundred, or passes the error on |
| TripCache.FinishStores | backend/internal/transport/service.go:81-93 | a result is kept for five seconds, and the other entries stay unless there are more than a hundred |
| TripCache.CacheRuns | backend/internal/transport/service.go:54-95 | in every interleaving of readers: served data is under five seconds old at its check, queries of one key are five seconds apart unless the map was emptied, and at most 101 entries are kept |
| TokenRefresh.ResponseInterceptor.OnUnauthorized | frontend/src/lib/axios.ts:72-107 | the first unauthorised response leads and later ones queue, which is that step of the machine |
| TokenRefresh.ResponseInterceptor.AfterImport | frontend/src/lib/axios.ts:77-82 | without a refresh token the handler goes away and leaves the flag up |
| TokenRefresh.ResponseInterceptor.AfterRefresh | frontend/src/lib/axios.ts:82-92 | with a token every queued request and then the leader is replayed with it and the queue is emptied; without one nothing is replayed and the queue stays |
| TokenRefresh.ResponseInterceptor.OnRefreshError | frontend/src/lib/axios.ts:94-97 | a failure lowers the flag and drops the queue |
| TokenRefresh.SingleFlight | frontend/src/lib/axios.ts:34-107 | at most one refresh is in flight, and each queued request still waits or has left the queue once, in order |
| TokenRefresh.SuccessServesQueue | frontend/src/lib/axios.ts:41-44 | a successful refresh replays everything queued with its token, leaves the queue empty, and nothing is replayed from the queue again |
| TokenRefresh.AnsweredIff | frontend/src/lib/axios.ts:80-107 | a queued request is ever sent again exactly when a later refresh succeeds before any throws |
| TokenRefresh.StuckIff | frontend/src/lib/axios.ts:80-97 | requests queue for ever exactly when some handler found no refresh token |
| TokenRefresh.NoTokenStrands | frontend/src/lib/axios.ts:77-82 | a run in which a session without a refresh token strands the next request |
| TokenRefresh.StuckNeverAnswers | frontend/src/lib/axios.ts:98-107 | from then on the queue only grows and nothing in it is answered |
| ExportManifest.GroupByTrip | backend/internal/transport/service.go:775-797 | the groups are the trips in order of first appearance, each with exactly its rows and the heading of its first row |
| ExportManifest.FirstAppearanceOrder | backend/internal/transport/service.go:779-797 | an earlier group has an earlier first row |
| ExportManifest.GroupsHoldEveryRow | backend/internal/transport/service.go:796 | all groups together hold every row exactly as often as it was exported |
| ExportManifest.WriteManifest | backend/internal/transport/service.go:813-847 | the loop over counts and current stop writes the specified lines |
| ExportManifest.ManifestPrints | backend/internal/transport/service.go:813-857 | a trip's manifest begins with the columns of its first row and the number of its rows, and lists every row in order by serial number, code, passenger and telephone number |
| ExportManifest.HeadersPrinted | backend/internal/transport/service.go:829-847 | under each stop header come the column titles and a ticket of that stop |
| ExportManifest.TotalsRightIff | backend/internal/transport/service.go:823-847 | every stop header announces the ticket lines under it exactly when the rows of each stop are contiguous |
| ExportManifest.TotalsRightMeans | backend/internal/transport/service.go:839 | what "every stop header" means, line by line |
| ExportManifest.OneHeaderEach | backend/internal/transport/service.go:829-841 | with contiguous stops each named stop has exactly one header |
| StopOptions.SortIsStable | frontend/src/client/modules/transport/utils.ts:74-79 | the sort is ordered, a permutation, and keeps the order of stops of equal sequence |
| StopOptions.StableSortUnique | frontend/src/client/modules/transport/utils.ts:77 | ordered and stable determine the result, so any stable sort is this one |
| StopOptions.OptionsShowStops | frontend/src/client/modules/transport/utils.ts:74-79 | the full list shows each stop once by its name and picks it by its identifier |
| StopOptions.FilterCommutesWithSort | frontend/src/client/modules/transport/utils.ts:96-98 | filtering then sorting is sorting then filtering |
| StopOptions.PickersNarrow | frontend/src/client/modules/transport/utils.ts:92-113 | a narrowed picker is the full list without the stops on the wrong side; with no, an empty or an unknown stop chosen it is the full list |
| StopOptions.PickersAreDual | frontend/src/client/modules/transport/utils.ts:92-113 | one stop is offered as drop-off for another exactly when that other is offered as pick-up for it |

## Left out

- Each database transaction outside `LedgerInterleaving`, `BookingLocks` and the reads named above is one atomic step; `Serializability.InterleavingIsSerial` proves this harmless for the ledger, and for the other tables it is an assumption that rests on the row locks and guarded updates of the queries.
- Ledger rows are taken in the order of insertion; two rows of one wallet never have the same time stamp.
- Amounts, seats and counters are unbounded integers; overflow of 32-bit and 64-bit columns is not modelled.
- One transaction sees one time; the database clock and the process clock agree.
- Roles and bus types are enumerations; case folding and unknown roles are not modelled.
- A wallet is identified by its owner or system name; activation status and row hashes are not modelled.
- Passenger names, serial numbers, e-mails, route details, background jobs and audit logs are not modelled.
- The polling ticker is not modelled; any number of polls and timeouts may come at any time.
- Creating a payment is a step with a new reference; the idempotency key, limits and the rate limiter's channel are not modelled.
- DeleteTrip and batch status updates: the first only succeeds without bookings, the second is several single status steps.
- The role that books and the role that cancels come from the request and may differ; `LiveFares` makes that a condition.
- Several refunds in one trip cancellation are allowed to commit in `System`, although `LockLimits` shows that they block; runs with them are therefore covered as well.
- Waiting on foreign-key checks and on unique keys of uncommitted rows is not modelled in `BookingLocks`; ticket codes are only inserted under the trip lock and transaction headers only under the wallet locks.
- BookingLocks.NeverAllWaiting: releases and trip cancellations are outside, because they follow no lock order; `ReleaseCanDeadlock` and `TripCancelBlocksItselfIff` show what that means.  Requests that use the pool without a transaction are not counted.
- The digest is a function parameter; HMAC and hexadecimal text are not modelled, and the verification is called nowhere in the repository at present.
- Export lines are values; CSV and ZIP bytes and the upper-casing of stop names are not modelled.
- Other handlers, pages, password and token issuing, and float conversion of amounts are not part of this model.
