# EnvoyTrade: verified model of the copy-trade core

EnvoyTrade copies a master account's fills to follower accounts. This project models, in Dafny, the
parts of it that have to be right for money to be right, and proves what they promise:

* **Copying a fill** (`Sizing`, `FanOut`, `Engine`, `CopyTrade`, `StatusUpdates`, `Reconcile`): decimal
  sizing, the fan-out of one fill to all followers, the worker pool and its retries, the protocol as a
  step machine over every interleaving, the race between the worker's write and status updates, and
  the reconciler's pass over stuck orders.
* **The mock broker** (`OrderBook`, `OrderOverlap`, `Positions`, `Unbooked`): order transitions, history,
  per-user index, calls that overlap, positions and profit with prices as reals.
* **Square-off and rebalance on top of it** (`SquareOff`, `SquareOffFlat`, `Rebalance`,
  `RebalanceConverges`, `RebalanceCases`, `Trades`, `GroupRebalance`, `GroupRun`, `GroupService`, `GroupProgress`,
  `Text`): one account, and a group whose followers run concurrently on one shared book.
* **Archive and restore** (`Timestamps`, `ArchiveTable`, `ArchiveFiles`, `ArchiveRun`,
  `ArchiveRestore`, `ArchiveCases`, `EventWriters`): one logical table held in the database and in dated
  Parquet partitions.
* **The debounced portfolio syncer** (`Debouncer`) and **the instrument cache** (`InstrumentCache`,
  `CacheAgreement`).

`Collections` holds an `Option` and two facts about finite sets and maps.

Code that updates state in place is modelled by classes and loops; each such method is proved equal to
a function of the old state, and the lemmas are about those functions. Step machines (`CopyTrade`,
`StatusUpdates`, `OrderOverlap`, `GroupRun`, `EventWriters`, `Debouncer`) take one critical section, one store statement or one broker call per
step and allow every interleaving.

What the model takes from outside:

* Clocks, broker answers, store reads and store failures are parameters. Lot sizes, links and account
  rows arrive as read, or as a failed read.
* The database is modelled by what its statements do: a batch insert is atomic and reports only new
  tags; a purge is one transaction that foreign keys can refuse; (follower, broker order id) and the
  idempotency tag are unique.
* The idempotency tag is injective in fill and follower, and followers are distinct within one master's
  links.

Where a plausible promise does not hold, the code is kept as it is, the exact condition is proved, and an
input on the failing side is shown:

| claim | holds exactly when | condition | failing input |
|---|---|---|---|
| decimal sizing equals the exact floor | the quotient is not rounded over an integer | `ComputedFloorIffNotRoundedOver` | `ComputedLotsBoundTight` |
| ratio one sizes like any other ratio | the lot divides the smaller of fill and cap | `RatioOneAgreesIff` | any other fill |
| an order ends up in one row | no untagged direct insert runs before a row holds its broker id | `OneRowIff` | `OvertakingHappens` |
| a lost order is settled by the reconciler | it is settled already, or its quantity is positive | `LostOrderSettledIff` | any unmarked zero-quantity row |
| a restore of some dates succeeds | the database with those dates' rows added meets its own constraints | `RestoreIff` | `RedeliveryBlocksRestore` |
| every id handed out after a restore is new | each row left out has an id no greater than some id restored | `NextIdNewIff` | `PartialRestoreReusesId` |
| order-book facts hold under overlapping calls | every write so far found its order still open | `OverlapKeepsInvIff` | `FillRacesCancel` |
| profit is cash plus open value | nothing closed, or both averages positive, or equal | `ProfitIdentityIff` | `ZeroPriceUnbooked` |
| one rebalance pass converges | at every drifting listing one order is enough: it is flat, or the order trades the product read and no other is left to be read | `PassConverges` | `TwoProductsRemain` |
| the imbalance flag ends false | nothing active drifted, or all of it was targeted without error (both writes made) | `FlagEndsFalseIff` | `ForeignIdNeverClears` |
| an unserved sync request is owed | its runner is not unwinding, and no panic after it is the last that happened to the account | `RequestLostIff` | `PanicLosesPending` |
| the cache answers as the store does | all that a cache of its capacity can hold agrees with the store's lots | `TransparentIff` | `AliasDisagreementShows`, `NonPositiveLotFlips`, `SecurityLotShows`, `LoadedLotShows` |

Where code and documentation disagree, the model follows the code. The repository's `README.md:59` says
every order is floored to a lot multiple; the engine's ratio-one branch copies the fill as it is
(`internal/engine/engine.go:277-284`). The comment on `SizeOrder` says a result is never rounded up
(`internal/domain/sizing.go:56-59`); the division under the floor rounds, and above the bound of
`ComputedLotsExact` it can round up by a lot.

## Model

| member | source | states |
|---|---|---|
| `Sizing.ComputedFloorIffNotRoundedOver` | internal/domain/sizing.go:72-75 | Division rounded half away from zero at sixteen places and then floored is the true floor if and only if the quotient is not within half a unit below an integer; for every dividend and positive divisor. |
| `Sizing.ComputedLotsExact` | internal/domain/sizing.go:72-75 | The lot count is the exact floor for every quantity and ratio whenever 10^scale times the lot is below 2·10^16. |
| `Sizing.ComputedLotsBoundTight` | internal/domain/sizing.go:72-75 | At or above that bound some ratio of that scale sizes a unit fill one lot too high. |
| `Sizing.SizeOrderGreatest` | internal/domain/sizing.go:64-89 | The result is the greatest lot multiple within quantity times ratio and within a positive cap. |
| `Sizing.SizeOrderReasons` | internal/domain/sizing.go:64-89 | Each of the five reasons if and only if its condition on the inputs (lots as the rounded division counts them, lot, ratio, cap), on all inputs. |
| `Sizing.ExactReasons` | internal/domain/sizing.go:64-89 | Where the division is exact: below one lot iff the scaled quantity is under a lot or the cap is, capped iff one more lot than fits the cap is within the scaled quantity. |
| `Sizing.SizeOrderNonNegative` | internal/domain/sizing.go:64-89 | A non-negative fill never sizes to a negative order, rounding included. |
| `Sizing.SizedInLots` | internal/domain/sizing.go:74-81 | Every sized order is a whole number of lots, whatever the ratio's scale. |
| `Sizing.StoredInputsFit` | internal/domain/sizing.go:72-75 | For ratios as stored (six decimals) and 32-bit quantities and lots, sizing is exact and fits 64 bits. |
| `Sizing.PartialFillsBound` | internal/domain/sizing.go:64-89 | Copying k partial fills never trades more than copying the whole, and less by fewer than k lots. |
| `Sizing.RatioOneAgreesIff` | internal/engine/engine.go:277-287 | For positive fills the ratio-one path gives min(fill, cap), which `SizeOrder` gives too if and only if the lot divides it. |
| `Sizing.CopyDriftBound` | internal/rebalance/service.go:325-340 | After n copied buys and sells from flat, at any positive ratio and lot, the follower's net position is strictly within n+1 lots of the rebalance target for the master's net position. |
| `FanOut.FanOutPointwise` | internal/engine/engine.go:266-389 | After a fan-out each follower's row and queue are exactly what its own link, row and queue determine: duplicate, skipped (iff quantity zero), dead-lettered (iff no room), or enqueued at the end of its queue; a settling write that fails leaves only its own row unmarked. |
| `FanOut.LinkQuantity` | internal/engine/engine.go:266-311 | On the link's columns: nothing for a follower in error or pending, the fill capped at ratio one, and otherwise, where the division is exact, the greatest lot multiple within fill times ratio and a positive cap; with the reason for each. |
| `FanOut.CopiedOrder` | internal/engine/engine.go:313-389 | On the columns: a known order keeps row and queue; a new one has the next serial number, its fill, follower, lot, quantity and reason, SKIPPED at quantity zero, DEAD_LETTERED without a queue or room, and else one job at the end of its queue with the fill's exchange, symbol, side, product, order type and prices, and the row's id and quantity. |
| `FanOut.FanOutTouchesOnlyLinks` | internal/engine/engine.go:266-389 | No other row and no other queue changes. |
| `FanOut.FollowerIsolation` | internal/engine/engine.go:237-381 | Two fan-outs of one fill that agree on a follower's link, row, queue and store faults leave that follower the same quantity, reason, tag, verdict, row and queue (serial numbers aside), whatever the other links, their order and their queues. |
| `CopyTrade.RegisterSteps` | internal/worker/pool.go:91-114 | The machine's register and unregister steps, seen through the registrations in force, are the pool's operations: a fresh empty queue, or none, and every other follower's queue as it was. |
| `CopyTrade.RegisterDrops` | internal/worker/pool.go:95-99 | A job waiting in a follower's queue when it is registered anew is in no queue of the pool afterwards. |
| `CopyTrade.HandOffSteps` | internal/worker/pool.go:120-133 | Reading the queue and sending to it, when nothing comes between, is the pool's non-blocking hand-off. |
| `Engine.WorkerPool.Dispatch` | internal/worker/pool.go:120-133 | Never waits: sends if and only if a queue exists and has room, and appends to that queue only. |
| `Engine.FanOutEngine.AnyScaled` | internal/engine/engine.go:237-246 | True exactly when some link's ratio differs from one in value. |
| `Engine.FanOutEngine.SizeAll` | internal/engine/engine.go:266-311 | The sizing loop yields one candidate per link, in order, each as its own link sizes it. |
| `Engine.FanOutEngine.InsertFollowerOrdersBatch` | internal/engine/engine.go:313-333 | Inserts unknown tags only and reports exactly the rows that are new. |
| `Engine.FanOutEngine.DispatchLoop` | internal/engine/engine.go:335-389 | The dispatch loop over new rows, tied to the function the settlement and isolation results and `CopiedOrder` are about. |
| `Engine.FanOutEngine.HandleMasterFill` | internal/engine/engine.go:152-410 | All gates in order, sizing, execution prices, insert, dispatch with its settling writes, and the dispatch-state write: the new state and the error outcome, with every failed read and write, as the function of the old state that `FillOutcome` and `CopiedOrder` spell out. |
| `Engine.GatedFillsPlaceNothing` | internal/engine/engine.go:152-264 | A gated fill, any failed read or a failed insert leaves every order row and queue untouched; one scaled follower's failed lot lookup stops all. |
| `Engine.FillOutcome` | internal/engine/engine.go:152-410 | On the fill, switch, reads and writes: exactly which fills are let through, rows and queues being the fan-out's for those and untouched for all others, and when an error is returned. |
| `Engine.FillMarked` | internal/engine/engine.go:152-410 | The dispatch state a fill ends with: dispatched once let through or with nobody to copy to, dead or dispatched as it was stopped, and otherwise as before. |
| `Engine.Place` | internal/worker/pool.go:192-301 | The attempt loop: at most max(1, MaxRetries) calls, each with the job's tag and quantity, ending at the first reply that is not a retried timeout, with doubling pauses and the recorded end. |
| `Engine.FinalEndIff` | internal/worker/pool.go:218-301 | Placed iff accepted; dead-lettered iff refused as cancelled, or timed out at a deadline or interrupted before the last attempt; rejected iff a panic or any other refusal or timeout. |
| `Engine.CallsMade` | internal/worker/pool.go:203-300 | Every call but the last got a timeout whose pause was not interrupted, and the last is the last allowed or got something else. |
| `Engine.PausesDouble` | internal/worker/pool.go:203-300 | Each pause is twice the one before. |
| `CopyTrade.StepKeepsInv` | internal/engine/engine.go:152-410 | Every step (delivery, re-run, gate, insert, queue read, dispatch turn, register, unregister, stop, take, broker call, kill switch, restart, other writers) keeps the protocol invariant: one holder of the right to place each tag. |
| `CopyTrade.RunInv` | internal/worker/pool.go:149-300 | The invariant at every state of every run. |
| `CopyTrade.AtMostOnce` | internal/listener/listener.go:51-83 | At every state of every run each (fill, follower) pair has at most one handed-off job, at most max(1, MaxRetries) broker calls, all with that job's tag and quantity, and at most one accepted call. |
| `CopyTrade.DeliverIff` | internal/listener/listener.go:51-83 | A delivery is stored under the next serial number and processed iff no stored fill has its master, broker order id, filled quantity and status; otherwise nothing changes. |
| `CopyTrade.FillsDiffer` | internal/listener/listener.go:51-83 | At every state of every run no two stored fills agree in those four columns, however often a fill is delivered. |
| `CopyTrade.JobsCopyFills` | internal/engine/engine.go:353-366 | At every state of every run each handed-off job names a stored fill and has its exchange, symbol, side, product and order type; its prices are the fill's own, else the payload's, else for a limit order the average price. |
| `CopyTrade.JobsHaveRows` | internal/engine/engine.go:353-366 | While other writers leave ids and quantities alone, at every state of every run each handed-off job has its own row's id and quantity. |
| `CopyTrade.AttemptRecords` | internal/worker/pool.go:218-301 | What a broker call writes: the broker id if accepted, REJECTED or DEAD_LETTERED by its reply, nothing if it is retried, and no other row. |
| `CopyTrade.KillSwitchHolds` | internal/engine/engine.go:91-165 | In every run, from engaging the kill switch until it is released or the engine restarts, nobody gets past the gate, and every job handed off is of a fill whose processing was past it when the switch went on. |
| `CopyTrade.GateHolds` | internal/engine/engine.go:152-165 | A process at the gate gets past it exactly while the switch is off. |
| `CopyTrade.JobNamesRowsFill` | internal/engine/engine.go:353-366 | At every state of every run, a job handed to a worker names the fill and follower its order's row names, as long as no other writer changes those columns. |
| `StatusUpdates.FollowerStatusConsumer.Handle` | internal/listener/listener.go:131-173 | The fallback chain by broker id, by tag, by direct insert, a refused tag update falling through too, with empty text stored as the store does. |
| `StatusUpdates.HandleWrites` | internal/listener/listener.go:131-173 | All rows after an update, on the columns: rows of its broker id get status and filled quantity; if none, this follower's order of its tag gets broker id, status and filled quantity; if none, a new row holds the update, unless its tag is in use; nothing else changes. |
| `StatusUpdates.LateInsertWrites` | internal/listener/listener.go:153-160 | A direct insert that finds the follower's row of that broker id already there writes its status and filled quantity and adds no row. |
| `StatusUpdates.StepKeeps` | internal/listener/listener.go:131-173 | While nothing overtakes, each store statement of any handler keeps a single row for the order, and no completed write of its broker id fails to reach it or is lost. |
| `StatusUpdates.OneRowIff` | internal/listener/listener.go:131-173 | In every interleaving of the worker's write with any number of updates, tagged or not, and other orders' traffic: no other row holds the broker id if and only if no untagged direct insert ran before a row held it; otherwise a second row has it for good. |
| `StatusUpdates.ExactlyOneRow` | internal/worker/pool.go:227-254 | With the tag on each of the order's updates, at most one row holds the broker id, and from the first completed write on exactly the order's own row does. |
| `StatusUpdates.SettledForGood` | internal/listener/listener.go:146-170 | From the first completed update on the order is settled, if none of its updates is without a status. |
| `StatusUpdates.BlankErases` | internal/store/postgres/store.go:619-640 | A tag update without a status erases the one the row had. |
| `StatusUpdates.ForeignStatusHitsIff` | internal/store/postgres/queries/follower_orders.sql:43-47 | Going by broker id alone, another follower's update changes this row exactly when the ids are the same, this row holds it and a column differs; the update then stops there and its own follower gets no row. |
| `StatusUpdates.OvertakingHappens` | internal/listener/listener.go:146-160 | From any rows the worker has not written yet, an untagged update runs to its end and leaves the broker id in its own new row only. |
| `Reconcile.Poller.InspectPending` | internal/recon/reconciler.go:176-267 | The loop over stuck orders, branch by branch, as the function of the rows and the broker's answers that `PassOutcome` spells out. |
| `Reconcile.InspectAllSettles` | internal/recon/reconciler.go:176-267 | A pass only settles: rows, broker ids and settled statuses stay, and every inspected order that is resolved or over five minutes old is settled. |
| `Reconcile.PassOutcome` | internal/recon/reconciler.go:176-267 | Every row after a pass, on the columns, its broker id being held by no other: an unsettled positive order older than the threshold gets the broker's COMPLETE, REJECTED or CANCELLED with the filled quantity if it gave one, FAILED alone if over five minutes old, and else stays; every other row stays. |
| `Reconcile.PassSettlesOldOrders` | internal/recon/reconciler.go:176-267 | After one pass no positive-quantity order older than max(5 minutes, threshold) is without a terminal status, whatever the broker answered. |
| `Reconcile.LostOrderSettledIff` | internal/store/postgres/queries/follower_orders.sql:49-56 | An old order that never reached the broker is settled by a pass if and only if it was already or its quantity is positive. |
| `Reconcile.FanOutThenPass` | internal/recon/reconciler.go:176-267 | Every order a fan-out inserts ends with a status: skipped and dead-lettered rows at once, and each other by one pass once old enough, whether or not its job was ever taken from its queue. |
| `Timestamps.MicrosRoundTrip` | internal/archive/types.go:67-75 | Micros survive the trip through a time; a time survives the trip through micros if and only if it has microsecond precision, and otherwise moves toward the epoch by less than one. |
| `Timestamps.DaysByInstants` | internal/archive/archiver.go:371-379 | A trading day is the twenty-four hours from a midnight five and a half hours before UTC's: which instants are on it, before it and after it. |
| `ArchiveFiles.GroupRowsByDate` | internal/archive/archiver.go:371-379 | Groups are exactly each trading day's rows in order, none empty and none missing. |
| `ArchiveFiles.WriteParquetWithMerge` | internal/archive/archiver.go:405-448 | The merged file is sorted by id and holds the existing rows overridden by the new ones. |
| `ArchiveFiles.WriteTablePartitions` | internal/archive/archiver.go:381-403 | All partitions written, in whatever map order, as the order-free function. |
| `ArchiveTable.AfterWritesUnordered` | internal/archive/archiver.go:381-403 | Only which partitions were written matters, not order or repetition. |
| `ArchiveTable.WritesKeepLogical` | internal/archive/archiver.go:99-140 | Copying live rows into any set of partitions leaves the logical table unchanged. |
| `ArchiveTable.PurgeKeepsLogicalIff` | internal/archive/archiver.go:142-183 | A purge keeps the logical table if and only if each deleted row is archived with the content it had at deletion. |
| `ArchiveTable.RewriteAfterStop` | internal/archive/archiver.go:405-448 | Writing on top of an interrupted run gives the archive one run would. |
| `ArchiveTable.RestoreAllIsLogical` | internal/archive/restorer.go:72-94 | Loading every partition makes the table the logical table, and loading again changes nothing. |
| `ArchiveRun.PurgeCommitsIff` | internal/archive/archiver.go:142-179 | The purge transaction commits if and only if no kept event of a kept order names a purged fill. |
| `ArchiveRun.PurgeLeavesNoDangling` | internal/archive/archiver.go:200-332 | When events name their order's fill, the selected rows are closed under references: the purge commits and nothing dangles. |
| `EventWriters.StepFits` | internal/worker/pool.go:241-247 | The event writers (the worker names its job's order and fill, the listener and the reconciler the order alone), the other writers, archive runs and restores keep every copy of an event naming its order's own fill. |
| `EventWriters.EveryPurgeCommits` | internal/archive/archiver.go:142-179 | In every run of those writers, archive runs and restores from empty tables on, with order ids not reused, every purge commits and leaves no dangling reference. |
| `ArchiveRun.StopKeepsLogical` | internal/archive/archiver.go:99-140 | A stop after any partition writes of any table leaves all three logical tables unchanged. |
| `ArchiveRun.FullRunKeepsLogical` | internal/archive/archiver.go:54-198 | A completed run, committed or rolled back, leaves all three logical tables unchanged. |
| `ArchiveRun.RerunAfterStop` | internal/archive/archiver.go:54-198 | Running again after any such stop ends in the state of an uninterrupted run. |
| `ArchiveRun.ArchivedExactly` | internal/archive/archiver.go:200-332 | When a run commits, on the columns: an order is gone iff created by the cutoff and with a terminal status or intended quantity zero; a fill iff created by then, dispatched, dead, rejected or cancelled, and named by no order left; an event iff its order is gone, or having none, its fill. |
| `ArchiveRun.UnsettledStay` | internal/archive/archiver.go:200-332 | Committed or not, no unsettled order of non-zero quantity and no order or fill newer than the cutoff leaves its table. |
| `ArchiveRun.Archiver.WriteBatch` | internal/archive/archiver.go:99-140 | Orders, fills and events written to their partitions, database untouched. |
| `ArchiveRun.Archiver.PurgeBatch` | internal/archive/archiver.go:142-183 | Deletes all of the batch or fails with nothing deleted, and counts the rows that went. |
| `ArchiveRun.Archiver.Archive` | internal/archive/archiver.go:54-198 | The whole run as the function the logical-table results and `ArchivedExactly` are about, with exact counts, and an error exactly when the purge is refused. |
| `ArchiveRestore.RestoreIff` | internal/archive/restorer.go:72-94 | Restoring any dates, parents first, succeeds if and only if the database with those dates' rows added meets foreign keys, all unique constraints and account references, and then that is the database. |
| `ArchiveRestore.RestoreAdmittedIff` | internal/archive/restorer.go:152-376 | The same row by row: it succeeds iff afterwards orders would name stored fills, events stored orders and fills, no two rows of a table share a unique key and every account named is known. |
| `ArchiveRestore.RangeRestoresRows` | internal/archive/restorer.go:37-150 | After a restore of a range, with either bound, both or none, a row is in a table iff it was there or is archived with an instant on a day of the range, and rows there before win. |
| `ArchiveRestore.OpenRangeCovers` | internal/archive/restorer.go:111-150 | Without bounds every partition is restored. |
| `ArchiveRestore.FullRestoreIff` | internal/archive/restorer.go:72-94 | Restoring every partition, parents first, succeeds if and only if the logical tables meet foreign keys, all unique constraints and account references, and then the database equals them; no child is ever inserted before its parent. |
| `ArchiveRestore.ArchiveThenRestore` | internal/archive/restorer.go:72-94 | An archive run followed by a full restore gives back the logical tables of before. |
| `ArchiveRestore.RestoreIdempotent` | internal/archive/restorer.go:152-376 | A second full restore succeeds and changes nothing. |
| `ArchiveRestore.Restorer.DiscoverDatePartitions` | internal/archive/restorer.go:111-150 | Exactly the partition dates of any table in range, ascending. |
| `ArchiveRestore.Restorer.LoadTable` | internal/archive/restorer.go:152-376 | One table's insert-if-absent pass, stopping at the first refusal, with the count of rows added. |
| `ArchiveRestore.Restorer.Restore` | internal/archive/restorer.go:37-109 | Refuses an inverted range; otherwise fills, orders and events of the discovered dates, then the sequences; nothing in range is no error, and every failure with what it leaves behind. |
| `ArchiveRestore.Restorer.ResynchronizeSequences` | internal/archive/restorer.go:378-391 | Each sequence set to its table's greatest id, or one, up to the statement that fails. |
| `ArchiveRestore.NextIdNewIff` | internal/archive/restorer.go:378-391 | After a restore of any dates and a resync: the next id is new iff no partition left out holds it, and every id to come is new iff each row left out has an id no greater than some id in the database or a loaded partition, or one. |
| `ArchiveCases.PartialRestoreReusesId` | internal/archive/restorer.go:378-391 | Two fills with consecutive ids on two days, archived and purged, the first day restored: the next id is the second fill's. |
| `ArchiveCases.SharedKeyRefuses` | internal/archive/restorer.go:152-220 | A full restore is refused when an archived fill shares a unique key with a row inserted since. |
| `ArchiveCases.RedeliveryBlocksRestore` | internal/archive/restorer.go:152-220 | That is reached: a purged fill is delivered again under a new id, and the archived one can no longer be restored. |
| `OrderBook.OrderEngine.PlaceOrder` | testbroker/engine.go:140-222 | Run alone: the seven validations in order, then the new order open, or filled at the last price in instant mode. |
| `OrderBook.PlaceAcceptedIff` | testbroker/engine.go:140-180 | Accepted iff it passes all seven checks on parameters, configuration and instrument, and otherwise refused for the first it fails: names allowed, listing known, whole lots, freeze limit, and a limit price no further from the last price than the band. |
| `OrderBook.PlacedOrder` | testbroker/engine.go:182-222 | The whole book after an accepted placement: the next id, the order with its parameters, open or filled at the last price, its snapshots, the end of its user's list, and one notice if filled. |
| `OrderBook.OrderEngine.FillOrder` | testbroker/engine.go:225-259 | Run alone: fills an open order; missing or ended orders are refused with the book untouched. |
| `OrderBook.OrderEngine.RejectOrder` | testbroker/engine.go:262-287 | The same for rejection, the quantity staying pending. |
| `OrderBook.OrderEngine.CancelOrder` | testbroker/engine.go:290-315 | The same for cancellation, the whole quantity moving to cancelled. |
| `OrderBook.EndOutcome` | testbroker/engine.go:225-315 | A fill, rejection or cancel is refused iff the order is unknown or not open; else it writes exactly that order's status, price, message and quantities, one snapshot and one notice. |
| `OrderBook.RunKeepsInv` | testbroker/engine.go:140-315 | Over every serial run: filled + pending + cancelled = quantity, history starts open and ends with the current order, one notification per ended order and none before, and each user's index lists exactly that user's orders once. |
| `OrderBook.RunFromEmpty` | testbroker/engine.go:81-103 | So for every serial run of a new engine. |
| `OrderBook.ApplyOrder` | testbroker/engine.go:208-315 | One call leaves an order as it is or ends it if it was open; histories only grow, and not at all once ended. |
| `OrderBook.TerminalAbsorbing` | testbroker/engine.go:225-315 | An ended order, its history and its single notification never change again, in any serial run. |
| `OrderBook.FillRacesCancel` | testbroker/engine.go:225-259 | A cancel between a fill's test and its write breaks all of it: the quantity counts twice and two notifications go out. |
| `OrderOverlap.OverlapKeepsInvIff` | testbroker/engine.go:140-315 | With validation, insertion, price read, status test and write as separate steps, at every state of every interleaving the book's invariant holds if and only if every write so far, a fill's or an instant placement's, found its order open. |
| `OrderOverlap.ApartRunsKeepInv` | testbroker/engine.go:208-259 | Overlap on different orders is harmless: if nobody tests, rejects or cancels an order another call is about to write, the invariant holds throughout. |
| `OrderOverlap.LoneFill` | testbroker/engine.go:225-259 | A fill whose test and write nothing comes between is the one-step fill. |
| `OrderOverlap.LonePlacement` | testbroker/engine.go:140-222 | An instant placement whose steps nothing comes between is the one-step placement. |
| `Positions.Accumulate` | testbroker/engine.go:445-492 | One pass with an accumulator per key gives the keys as first seen and exactly each key's own totals. |
| `Positions.GetPositions` | testbroker/engine.go:445-571 | In first-seen order, each key's own position, as `ReportedPosition` spells it out. |
| `Positions.ReportedPosition` | testbroker/engine.go:445-571 | Every reported position: quantities and values bought and sold are the sums over the user's completed orders at its key, net is their difference, value is net times last price, prices and last price as defined; profit is realised plus unrealised, nothing unrealised when flat, nothing realised when nothing closed, and each part's amount otherwise. |
| `Positions.ReportedProfit` | testbroker/engine.go:496-571 | At positive fill prices the reported profit is the sum over the user's orders at the key of signed quantity times (reported last price − fill price). |
| `Positions.OrdersOfUser` | testbroker/engine.go:445-462 | The orders folded are exactly the user's orders in the book, once each. |
| `Positions.TotalsNet` | testbroker/engine.go:464-491 | A key's buys less sells are its signed order quantities summed. |
| `Positions.KeysAreSeen` | testbroker/engine.go:464-491 | A key is listed, once, if and only if a completed order with filled quantity touches it. |
| `Positions.CashIsMarkToMarket` | testbroker/engine.go:484-491 | Sell value less buy value plus net times last price is the sum over orders of signed quantity times the price move. |
| `Positions.ProfitIdentityIff` | testbroker/engine.go:496-539 | Realised plus unrealised equals cash plus open value if and only if nothing was closed, or both averages are positive, or they are equal. |
| `Positions.PositionProfit` | testbroker/engine.go:496-539 | At positive prices, realised plus unrealised is the sum over orders of signed quantity times (last price − fill price). |
| `Positions.FlatProfit` | testbroker/engine.go:521-536 | A flat position's profit does not depend on the last price. |
| `Positions.PossibleIsReached` | testbroker/engine.go:464-491 | All totals the profit identity speaks of come from some list of orders. |
| `Unbooked.ZeroPriceUnbooked` | testbroker/engine.go:527-529 | From an empty book, any quantity bought while the last price is zero and sold at a positive one is reported flat with no profit, though the sale brought in quantity times price. |
| `SquareOff.MatchSymbol` | internal/squareoff/service.go:69-79 | True iff the selection is empty or names the symbol, blanks trimmed and case ignored. |
| `Trades.SelectedIff` | internal/squareoff/service.go:69-79 | Selected iff nothing is asked for, or some name asked for equals the symbol once the blanks at both ends are off and letters differ in case at most. |
| `SquareOff.SquareOffAccount` | internal/squareoff/service.go:100-256 | Every refusal with what it leaves untouched; otherwise cancels and counter-orders as the function of the book that `SquareOffTrades` spells out, status "partial" iff an error was recorded. |
| `SquareOff.GateOpensIff` | internal/squareoff/service.go:103-124 | Goes ahead iff the role and broker are found and a follower's account is there and enabled; which refusal otherwise. |
| `Trades.SquareOffCancels` | internal/squareoff/service.go:137-160 | Exactly the user's open orders of a selected symbol whose cancel does not fail become cancelled, the count is their number, and no other order changes. |
| `Trades.SquareOffTrades` | internal/squareoff/service.go:137-240 | Then one market order for each open, selected position whose order goes through, at its own key, of its size, the other way, with the tag; the report lists exactly these under their ids, and no other order changes or appears. |
| `SquareOffFlat.SquareOffPointwise` | internal/squareoff/service.go:142-240 | On an instant-fill broker, whatever fails: a position is flat afterwards if selected and not named by an error, and keeps its quantity otherwise; unselected positions keep their totals and other users every order. |
| `SquareOffFlat.SquareOffErrors` | internal/squareoff/service.go:209-224 | A position is named by an error if and only if it is open, selected, and its counter-order fails. |
| `SquareOffFlat.SecondSquareOffIdle` | internal/squareoff/service.go:166-172 | After a square-off without errors an immediate second one places no order, whatever fails in it. |
| `SquareOffFlat.SecondSquareOffChangesNothing` | internal/squareoff/service.go:142-172 | When the cancels went through as well, the second one leaves the whole book as it is. |
| `Rebalance.IndexPositions` | internal/rebalance/service.go:282-295 | Each map holds, per (exchange, symbol), the last non-zero position whatever its product. |
| `Rebalance.LastHeldIs` | internal/rebalance/service.go:282-295 | What is read of a listing is its last position of non-zero quantity, with its product, or nothing if it has none. |
| `Rebalance.CalculateFollowerDrift` | internal/rebalance/service.go:262-368 | Exactly one drift for every (exchange, symbol) off its target, with product, lot, target and action as `DriftMeans` spells out; in any key order. |
| `Rebalance.TargetMeans` | internal/rebalance/service.go:262-341 | On the account's columns and the store's lots: the target has the sign of the master's quantity and, where the division is exact, its size is the greatest lot multiple within that quantity times the clone factor if present and positive, else one, and within the maximum if present and positive; the lot is the store's if positive, else one. |
| `Rebalance.DriftMeans` | internal/rebalance/service.go:303-358 | Every drift reported: the quantities read, the lot, that target, the difference, BUY when below target and SELL when above, and the master's product, else the follower's, else CNC. |
| `Rebalance.RebalanceAccount` | internal/rebalance/service.go:371-497 | Every refusal with the book untouched; otherwise the diff acted on, its cancels and its orders as the function of the book that `RebalanceTrades` spells out. |
| `Rebalance.DiffOpensIff` | internal/rebalance/service.go:129-162 | A diff is made iff the account is found, linked, both brokers resolve and both position lists are read; which refusal otherwise. |
| `Trades.RebalanceCancels` | internal/rebalance/service.go:400-440 | Exactly the user's open orders of a drifting symbol, case aside, whose cancel does not fail become cancelled, and the count is their number. |
| `Trades.RebalanceTrades` | internal/rebalance/service.go:400-490 | Then one market order for each drift whose order goes through, with its listing, product, side and size; the report lists exactly these under their ids, and no other order changes or appears. |
| `RebalanceConverges.PassConvergesIff` | internal/rebalance/service.go:422-490 | Without order errors, however many products are open, the recomputed diff is empty at a listing iff it was on target, or it was flat, or the order trades the product read and leaves no other to be read at zero; only that product moved, by the drift. |
| `RebalanceConverges.PassConverges` | internal/rebalance/service.go:262-497 | The whole next diff is empty if and only if one order was enough at every drifting listing. |
| `RebalanceConverges.MatchIsEnough` | internal/rebalance/service.go:277-310 | With at most one product open and matching products, one order is enough. |
| `RebalanceCases.TwoProductsRemain` | internal/rebalance/service.go:277-310 | From an empty book: bought under two products, with a flat master, the first pass closes one and the next diff still has the other. |
| `RebalanceConverges.TotalReachesTarget` | internal/rebalance/service.go:342-358 | Whatever the products, the listing's total over products ends at its target, off only by what the drift map did not see. |
| `RebalanceConverges.ExecutePointwise` | internal/rebalance/service.go:400-490 | Each key moves by exactly the drifts whose orders succeed, other users keep every order, and errors list exactly the failed ones. |
| `RebalanceConverges.DriftInLots` | internal/rebalance/service.go:325-342 | If the follower's holding is whole lots, so is the order, at any ratio and cap. |
| `GroupRun.StepOk` | internal/rebalance/service.go:371-497 | On one shared book, each step of any follower (diff, listing, one cancel, one placement, panic, merge) keeps every follower where its rebalance alone would be, and the master's orders untouched. |
| `GroupRun.GroupReport` | internal/rebalance/service.go:536-570 | After every interleaving the report is the sum over the targeted followers, "completed" iff no error, and each follower that did not panic has the cancelled count, orders (ids aside), errors and order list it gets alone on the starting book. |
| `GroupRun.SchedulesAgree` | internal/rebalance/service.go:536-570 | Any two interleavings in which the same followers panic, in whatever order each diff is listed, report the same counts, status and multisets of orders (ids aside) and errors. |
| `GroupRun.GroupPositions` | internal/rebalance/service.go:536-570 | Each follower that did not panic ends with the positions its rebalance alone leaves. |
| `GroupRun.AloneAnyOrder` | internal/rebalance/service.go:303-358 | What an account gets alone does not depend on the order its diff is listed in. |
| `GroupProgress.StepIsProgress` | internal/rebalance/service.go:536-570 | Every step brings its own follower closer to having merged, by stages and calls left, and moves no other. |
| `GroupProgress.NextStep` | internal/rebalance/service.go:536-570 | A follower that has not merged always has a next step. |
| `GroupProgress.ScheduleExists` | internal/rebalance/service.go:536-572 | Every group rebalance has a complete schedule. |
| `GroupRebalance.MergeAdds` | internal/rebalance/service.go:553-567 | A merge adds the outcome's share, and the status is "completed" if and only if there is no error. |
| `GroupRebalance.ShareOfReport` | internal/rebalance/service.go:553-567 | A follower's share is its own report's: the cancels, each order as a trade under its name, and one failure for each listing its report names. |
| `GroupRun.GoesAheadIff` | internal/rebalance/service.go:371-420 | A follower's rebalance places orders iff its diff can be made, its account is enabled and, with a diff, its broker is still there. |
| `GroupService.Perform` | internal/rebalance/service.go:536-570 | One step of one goroutine on the shared broker, as the machine's step. |
| `GroupService.Service.ComputeGroupDiff` | internal/rebalance/service.go:165-259 | Computes every follower's diff on the book; fails at the first unreadable one with the flag untouched; otherwise reports the drifting followers and, if the write succeeds, sets the flag iff an enabled one drifts. |
| `GroupService.Service.RebalanceGroup` | internal/rebalance/service.go:500-596 | For every schedule of the followers' steps on the shared broker: the report is the sum of what each targeted follower gets alone, panics aside, and the flags are a function of the old ones, the diff, the report's errors and which flag writes succeed. |
| `GroupRebalance.AllTargetedIff` | internal/rebalance/service.go:513-523 | As many targets as active drifts if and only if the filter passes every active one. |
| `GroupRebalance.TargetsAre` | internal/rebalance/service.go:513-523 | A follower is targeted iff it drifts, is enabled and is named by the filter if there is one. |
| `GroupRebalance.FlagEndsFalseIff` | internal/rebalance/service.go:574-596 | Called with the group's own id, exactly when the flag ends false, whichever of its two writes fail; with both made, iff no enabled follower drifted, or all that did were targeted and nothing failed. |
| `GroupRebalance.ForeignIdNeverClears` | internal/rebalance/service.go:251-257 | Called with another id, the group's own flag stays set while an enabled follower drifted. |
| `Debouncer.DebouncedSyncer.SyncAccountPortfolio` | internal/kite/sync_debouncer.go:42-54 | The caller's critical section: pending if active, else active and a new runner. |
| `Debouncer.DebouncedSyncer.CheckPending` | internal/kite/sync_debouncer.go:72-79 | The runner's critical section: take the mark and go on, or stop being active. |
| `Debouncer.RunInv` | internal/kite/sync_debouncer.go:42-81 | At every reachable state: at most one runner per account, pending only while active, active only with a runner, and every request served, owed or under a panicking runner. |
| `Debouncer.RequestLostIff` | internal/kite/sync_debouncer.go:42-81 | At every state of every run, a request no inner sync has started after is not owed one if and only if its runner is unwinding, or a panic after the request is the last that happened to the account. |
| `Debouncer.NoRequestLost` | internal/kite/sync_debouncer.go:42-81 | Unless its runner panics after it, a request is followed by an inner sync that starts after it, or one is owed by the active runner. |
| `Debouncer.OwedDelivers` | internal/kite/sync_debouncer.go:64-80 | An owed sync is never blocked: the runner's own next steps, at most three, start it. |
| `Debouncer.PanicLosesPending` | internal/kite/sync_debouncer.go:57-64 | From any reachable state with a sync under way, a request that arrives before that sync panics is dropped by the cleanup and no runner is left. |
| `InstrumentCache.InstrumentCache.AutoLoadActiveFO` | internal/instrument/cache.go:63-112 | Clears and reloads up to capacity, the first row of a name keeping it; a failed read changes nothing. |
| `InstrumentCache.InstrumentCache.ResolveLotSize` | internal/instrument/cache.go:116-171 | Own name, alias, then store, caching hits and misses below capacity and never a fault. |
| `InstrumentCache.InstrumentCache.ResolveToSecurityID` | internal/instrument/cache.go:174-239 | The same for security ids, with the reverse index. |
| `InstrumentCache.InstrumentCache.ResolveToSymbol` | internal/instrument/cache.go:242-264 | The reverse lookup, with the symbol as written when the entry has it. |
| `CacheAgreement.RunSound` | internal/instrument/cache.go:63-239 | After any calls at any capacity, entries fit the capacity and every reverse target is an entry. |
| `CacheAgreement.TransparentIff` | internal/instrument/cache.go:63-239 | Over every call sequence and for every name a lot size resolves to what the store would say (a failed store access of that very call aside), if and only if lots are positive, alias pairs agree, cacheable security rows agree and active rows loaded within capacity agree. |
| `CacheAgreement.ResolveLotTransparent` | internal/instrument/cache.go:116-171 | The same for one call after any calls, from that consistency. |
| `CacheAgreement.SecurityRoundTrip` | internal/instrument/cache.go:174-264 | Below capacity, with ids unique among active rows, a resolved security id maps back to a name that resolves to the same security. |
| `CacheAgreement.RunFromStore` | internal/instrument/cache.go:63-239 | After any calls every entry is something the store said of that very name: its lot, that it has none, a security listed under some spelling of it, or an active row. |
| `CacheAgreement.SecurityAnswers` | internal/instrument/cache.go:174-239 | After any calls a security id answered is one the store lists for the name or its alias, with that listing's lot, and none listed under the name as written is missed. |
| `CacheAgreement.SymbolAnswers` | internal/instrument/cache.go:242-264 | After any calls a symbol is answered iff the id is indexed, spelled as the store spelled it where that was kept. |
| `CacheAgreement.AliasIff` | internal/instrument/cache.go:127-143 | NFO and NSE, BFO and BSE stand for each other for one symbol, and no other exchanges do. |
| `CacheAgreement.AliasDisagreementShows` | internal/instrument/cache.go:127-143 | Asking for one name of an alias pair makes the cache answer the other with the store's reply for it. |
| `CacheAgreement.NonPositiveLotFlips` | internal/instrument/cache.go:136-168 | A stored lot of zero or less is returned once and then reported missing. |
| `CacheAgreement.SecurityLotShows` | internal/instrument/cache.go:217-236 | A cached security lookup answers for the lot as well, whatever the store's lot is. |
| `CacheAgreement.LoadedLotShows` | internal/instrument/cache.go:80-108 | A row loaded within capacity answers for the lot, whatever the store's lot is. |

## Left out

- HTTP handlers, router, middleware, admin pages and frontend: request plumbing and display.
- Kite and Dhan adapters, logins, proxies, token renewal and the refresh-and-retry after an expired token: foreign calls; a read either succeeds or fails.
- Encryption, session tokens and one-time passwords: they rest on library primitives.
- Logging, telemetry, execution feed, order events written by the engine, and the alerting of the reconciler: easy members only.
- CopyTrade.AtMostOnce: runs without an archive purge, because deleting rows frees their tags.
- Engine.FanOutEngine.HandleMasterFill: the engine's own lot cache is a pass-through here, and prices are reals; a payload is the two prices it names, or nothing.
- Engine.Place: the rate limiter before the first attempt and the meaning of time are not modelled; retries are not rate limited in the code either.
- FanOut.FollowerIsolation: the row's lot column is left out, because it records the fan-out's own lookup and so does depend on the other links.
- StatusUpdates.OneRowIff: assumes no store faults, and that no other order has this order's broker id or tags; ids are unique per follower in the store only, and `ForeignStatusHitsIff` says what a shared one does.
- Sizing.StoredInputsFit: 64-bit wrap-around is ruled out for stored inputs only; elsewhere integers are unbounded.
- ArchiveRun.FullRunKeepsLogical: no other writer changes a selected row between fetch and purge; `PurgeKeepsLogicalIff` says exactly what such a writer must not do.
- ArchiveRestore.FullRestoreIff: file names, atomic renames and Parquet encoding are not modelled.
- EventWriters.EveryPurgeCommits: a reused order id, which `PartialRestoreReusesId` shows can come up, is outside it.
- Timestamps: the trading time zone is fixed at five and a half hours ahead of UTC.
- OrderOverlap.OverlapKeepsInvIff: a terminal hook is taken to fire with the write it follows, though the code calls it after releasing the lock.
- OrderBook.RunKeepsInv: order ids are the engine's counter; the wrap at a million within one second and orders preloaded from configuration are not modelled.
- SquareOff.SquareOffAccount and Rebalance.RebalanceAccount: the follower-order rows they write are not modelled, because their tags can collide within a second; open orders are visited in index order rather than latest first; a call that fails is taken not to have reached the book.
- SquareOffGroup: the group rebalance's shape over `SquareOffAccount`, so it would only add easier members.
- GroupService.Service.RebalanceGroup: nobody outside the group trades on its accounts or moves prices meanwhile.
- Text: ASCII letters and blanks only; full Unicode folding is not modelled.
- InstrumentCache: keys are pairs, so names containing a colon cannot collide as joined strings could; concurrent misses for one name and a cache without a store are not modelled.
- Prices are reals: floating-point rounding is not modelled.
