# Verification model of the inventory and order hub

A Dafny model of the hub's four connected state machines, with the properties they exist for proved for every input,
every run and every reachable state. `dafny verify dfyconfig.toml` checks all of it.

## What is modelled

**The stock ledger and order ingest.** `Inventory` holds the rows (quantity, reserved, version), the guard that forbids
an oversell, the journal and the outbox, as one open transaction sees them. `OrderIngest` is the greedy multi-warehouse
allocator with its unlocked plan and locked takes, and the order ingest around it: unique insert, savepoint, settled
status. `Interleaving` runs any number of such transactions against each other, with row locks, savepoints, rollback,
aborts, entities loaded before the lock and one outbox relay; `OrderWorkers` adds order ingests whose plans are stale by
the time they take a lock, `OrderAlone` compares a worker's steps with the ingest done in one go, and `Savepoints` says
what a rollback restores. `PosIngest` is the inbound catalog pull, on the same movements; `PosWorkers` puts its stock
corrections among other transactions.

**The event bus.** `EventBus` holds the tables, the transactions and the worker classes; `BusProtocol` lets any number
of writers, relays and consumers take these steps in any order, with a crash possible at every step; `BusDelivery` and
`BusBackoff` sharpen this for the one consumer and one relay the application runs; `BusTiming` says from when a message
can be read; `BusWorkers` shows that a call of a worker class is a run of the protocol; `BusOrder` says when events are
handled in the order of their publication.

**Rate limit, circuit breaker, guard.** `RateLimit`, `CircuitBreaker` and `Guard` are classes over a clock in real
numbers, each proved against a function of its state; the bounds are proved about those functions, over arbitrary
windows, histories and interleavings of channels.

**Projection to the channels.** `Canonical` and `Pricing` compute what the hub says of a variant; `Dispatcher` pushes it
event by event; `Reconcile` reads back, compares and repairs. `HubBus` shows that the outbox of the interleaved
transactions is the outbox of the bus, step by step, and `Pipeline` joins the two with the dispatcher into one system:
the handler looks at the tables, other transactions commit, and then it pushes. `PipelineFaults` says what every run of
it keeps, with pushes that are skipped or raise, failing handlers, retries and crashes, `PipelineTables` what it leaves
in the listing table and looks up; `PipelineCrash` is one such run.

Conventions. Identifiers are natural numbers, money and times integers, the clock of the adapters a real number. One
tenant is modelled. Postgres is assumed to keep a row lock until commit or until rollback to a savepoint older than
the lock, to let a unique key block on an in-flight insert, and to abort the open transaction on an exception or a
crash; the queue to hand out the visible message of lowest id with its read counter raised, to archive by removing,
and to delay by setting the visibility time. The session is assumed to hand back an entity it holds as it was loaded,
also to a locked read, to write at a flush the columns that were changed and read the others back, and to let the
entities changed since a savepoint expire when it is rolled back to. What an adapter answers, how long a sleep
overruns and which clock readings are taken are parameters; no order among them is assumed beyond a clock that does
not run backwards. A push to a channel is an external effect that no rollback undoes. Every movement but an adjustment
has a positive quantity (services/core/app/api/v1/inventory.py:70-78); its reference may be any text, an order's
included. One relay and one consumer handle events in order only while no consumer crashes and no handler fails;
results that need this say so.

Where code and documentation differ the code is followed:

* libs/adapter/circuit_breaker.py:18-19 promises exactly one half-open trial. With overlapping calls, or after an
  excluded error, the code lets further calls through; `TwoTrials` shows it and `HalfOpenLetsEveryCallThrough` says
  exactly when the promise holds.
* services/core/app/sync/reconcile.py:193-196 says a repair push that fails is counted as not repaired. A listing one of
  whose two pushes landed is counted as repaired; `RepairedCanStillDiffer` shows it, and
  `RepairedMeansInSyncExactlyWhen` says for which listings the report can be trusted: those whose stock and price had not
  both drifted.
* services/core/app/sync/order_ingest.py:104-109 explains why a row must not be loaded before it is locked. The catalog
  pull loads it (services/core/app/sync/pos_ingest.py:133), so a quantity others committed before its lock is lost, and
  version and journal fall behind; `LatePullMiscounts` shows it, and `VersionsCountExactlyWhen`,
  `CommittedJournalReplays` and `PullKeepsCountExactlyWhen` say exactly when it happens.

## Model

| member | source | states |
|---|---|---|
| `Inventory.Apply` | services/core/app/domain/inventory.py:32-53 | an accepted movement leaves 0 <= reserved <= qty and raises the version by one |
| `Inventory.GuardSubsumesCheck` | services/core/app/domain/inventory.py:32-53 | on a sound row a movement is refused exactly when it would take an unavailable or unreserved unit, and the database CHECK is never what refuses it |
| `Inventory.Session.ApplyMovement` | services/core/app/domain/inventory.py:129-213 | lookups, first-create rule, optimistic version check, effect, version bump, journal row and outbox event, in one transaction; when it is accepted and what it leaves is `MoveSucceedsExactlyWhen` and `MoveLeaves` |
| `Inventory.MoveSucceedsExactlyWhen` | services/core/app/domain/inventory.py:129-184 | a movement is accepted exactly when variant and warehouse are known, the row exists or may be made, the expected version is absent or the row's (0 for a new row), and the level can take it, kind by kind; an unknown name, a stale version, an oversell and a bad operation each raise their own error |
| `Inventory.MoveLeaves` | services/core/app/domain/inventory.py:183-213 | an accepted movement changes its row's two quantities as its kind says, raises the version by one, appends one journal row and one event carrying row, kind, quantity and the new level, and changes no other row |
| `Inventory.OptimisticLock` | services/core/app/domain/inventory.py:180-184 | of two movements of a row that name the same expected version at most one is accepted: after it the other is refused as stale in every later state, whatever wrote the journal in between |
| `Inventory.SecondWriterIsRefused` | services/core/app/domain/inventory.py:180-184 | the same for any two movements of any run of movements and transfers |
| `Inventory.Session.TransferStock` | services/core/app/domain/inventory.py:79-126 | both movements in one transaction, the destination looked up before the source is debited; a refusal before the debit leaves the tables alone, a later one leaves the debit and at most an empty destination row |
| `Inventory.Session.RollbackTo` | services/core/app/sync/order_ingest.py:175-187 | a savepoint rollback restores levels, journal and outbox |
| `Inventory.ReplayClosedForm` | services/core/app/domain/inventory.py:183-212 | a replayed journal gives the closed-form sums per kind; the version is the number of journal rows |
| `Inventory.MoveKeepsExplained` | services/core/app/domain/inventory.py:183-212 | a movement keeps every level equal to the replay of its journal and to the payload of its newest event |
| `Inventory.EveryRunIsExplained` | services/core/app/domain/inventory.py:79-213 | the same after any run of movements and transfers from the empty tables, refused ones included |
| `Inventory.TransferSucceedsExactlyWhen` | services/core/app/domain/inventory.py:79-126 | a transfer goes through exactly when quantity, warehouses, variant and source availability allow it; else which error is raised |
| `Inventory.TransferConserves` | services/core/app/domain/inventory.py:79-126 | a transfer conserves the variant's total quantity and total reserved over any set of distinct warehouses |
| `OrderIngest.OnlineWarehouses` | services/core/app/sync/order_ingest.py:80-91 | the online-sellable warehouse ids, in id order |
| `OrderIngest.OnlineExactly` | services/core/app/sync/order_ingest.py:80-91 | the online-sellable warehouses are all listed, no other is, and their ids ascend |
| `OrderIngest.PlanLine` | services/core/app/sync/order_ingest.py:104-120 | the plan lists the variant's existing rows in the online warehouses with what is available there |
| `OrderIngest.ReserveLine` | services/core/app/sync/order_ingest.py:104-136 | the allocator's loop takes from the plan in order, each take judged on the current row |
| `OrderIngest.ReserveOrder` | services/core/app/sync/order_ingest.py:71-141 | the order's lines in turn; the first unknown SKU, lost race or uncovered line fails the order |
| `OrderIngest.PourTwice` | services/core/app/sync/order_ingest.py:120-136 | allocating q1 and then q2 gives every warehouse what allocating q1 + q2 gives it |
| `OrderIngest.PourTotal` | services/core/app/sync/order_ingest.py:120-136 | what remains available in all is what was there less what could be allocated |
| `OrderIngest.GreedyFillsAPrefix` | services/core/app/sync/order_ingest.py:120-136 | a warehouse gives something only when every earlier one gave all it had, so at most one take is partial |
| `OrderIngest.TakeAlone` | services/core/app/sync/order_ingest.py:120-141 | run alone a line never fails under its lock and leaves exactly the greedy allocation |
| `OrderIngest.TakeBooks` | services/core/app/sync/order_ingest.py:127-136 | whatever the plan, the journal grows by reservations of exactly the units taken |
| `OrderIngest.ReserveSucceedsExactlyWhen` | services/core/app/sync/order_ingest.py:71-141 | run alone an order is reserved exactly when every SKU is known and each variant's positive quantities are covered by the online total; the stock left is the greedy allocation |
| `OrderIngest.UnknownSkuIsReported` | services/core/app/sync/order_ingest.py:93-102 | a refused order is refused for an unknown SKU exactly when one comes up before the stock runs short |
| `OrderIngest.ReserveLowersTheTotal` | services/core/app/sync/order_ingest.py:71-141 | on success each variant's online total falls by exactly what was ordered and offline rows are untouched |
| `OrderIngest.LineOrderIsIrrelevant` | services/core/app/sync/order_ingest.py:93-136 | any permutation of the lines meets the same fate and leaves the same (qty, reserved) in every row |
| `OrderIngest.MergingLinesIsIrrelevant` | services/core/app/sync/order_ingest.py:93-136 | two positive lines of one SKU, wherever they stand, leave the stock that one line of their sum leaves |
| `OrderIngest.OrderTable.Insert` | services/core/app/sync/order_ingest.py:158-173 | the unique (channel, order id) key: the row is added exactly when the pair is new |
| `OrderIngest.IngestChannelOrder` | services/core/app/sync/order_ingest.py:144-192 | insert first, reserve inside a savepoint, settle the status, answer; what is answered is `AnsweredExactlyAs` |
| `OrderIngest.AnsweredExactlyAs` | services/core/app/sync/order_ingest.py:52-192 | a redelivery is answered as a duplicate and changes nothing; a new order adds one row, answered "confirmed" exactly when it is reserved, every SKU known and covered, and "cancelled" exactly when it is rejected |
| `OrderIngest.EveryAnswerAgrees` | services/core/app/api/v1/webhooks.py:141-161 | in every run the acknowledgements sent are, one by one and in order, those of the rows on record at the end: "confirmed" for the reserved, "cancelled" for the rejected |
| `OrderIngest.AnsweredExactlyOnce` | services/core/app/api/v1/webhooks.py:154-161 | in every run an order is acknowledged exactly once if it was delivered, however often, and never otherwise |
| `OrderIngest.DeliveryIsSettled` | services/core/app/sync/order_ingest.py:144-192 | on a sound store a delivery always settles, and a rejection leaves stock, journal and outbox as they were |
| `OrderIngest.DeliveredAreOnRecord` | services/core/app/sync/order_ingest.py:144-192 | after any run exactly the delivered (channel, order id) pairs are on record |
| `OrderIngest.RedeliveriesAreInvisible` | services/core/app/sync/order_ingest.py:144-192 | for any delivery sequence with duplicates the final inventory, journal, outbox and order table are those of the first deliveries alone |
| `OrderIngest.SettledStatusIsFinal` | services/core/app/sync/order_ingest.py:144-192 | an order on record keeps its row, status included, whatever happens later |
| `OrderIngest.JournalBooksTheReservedOrders` | services/core/app/sync/order_ingest.py:127-141 | in every run the units booked under an order's reference are the positive quantities of the reserved orders with that id, plus what movements of other origin book under the same reference |
| `OrderIngest.OneChannelKeepsIdsApart` | services/core/app/sync/order_ingest.py:144-173 | deliveries of one channel leave at most one row per order id |
| `OrderIngest.OneChannelBooksEachOrder` | services/core/app/sync/order_ingest.py:127-187 | in every run whose deliveries come from one channel a reserved order is booked in full and a rejected one not at all, beside what other movements book under the same reference |
| `Interleaving.NextKeepsInv` | services/core/app/domain/inventory.py:150-212 | every step of interleaved transactions with row locks, savepoints, aborts and entities loaded before the lock, and of the relay, keeps the invariant |
| `Interleaving.RunKeepsInv` | services/core/app/domain/inventory.py:150-212 | the invariant holds in every reachable state |
| `Interleaving.QueueFollowsCommits` | libs/eventbus/relay.py:36-45 | in every run the queue holds, row by row, an initial part of the committed events in commit order, whatever the movements were judged on |
| `Interleaving.VersionsCountExactlyWhen` | services/core/app/domain/inventory.py:150-184 | in every run a row's committed events carry the versions 1, 2, 3, ..., and its version is the number of its journal rows, exactly when no commit wrote the row from an entity of another version than the committed row's |
| `Interleaving.QueueVersionsInOrder` | libs/eventbus/relay.py:36-45 | with one relay and any interleaving, commit order, rollback and batch size, the queue carries a row's events with versions 1, 2, 3, ... in order as long as no commit wrote the row from an entity of another version than the committed row's |
| `Interleaving.DrainedQueueIsComplete` | libs/eventbus/relay.py:71-81 | once everything is published the queue holds all of a row's events and the last one is the committed level; they are as many as the level's version exactly under that condition |
| `Interleaving.NoInterleavingOversells` | services/core/app/domain/inventory.py:150-183 | in every reachable state every row, committed or in an open transaction, has 0 <= reserved <= qty, and so do the totals over any warehouses, also where movements were judged on old entities |
| `Interleaving.GuardAloneSuffices` | services/core/app/domain/inventory.py:32-53 | in every run of signed movements judged on the rows as they are, the guard under the lock alone keeps every reachable row sound: the run is the same without the CHECK constraints |
| `Interleaving.CommittedJournalReplays` | services/core/app/domain/inventory.py:183-212 | in every run the stored row is the replay of its committed journal exactly under that condition |
| `Interleaving.PrefixThenBatch` | libs/eventbus/relay.py:36-45 | a batch selected in sequence order leaves no gap in a row's events although sequence numbers are not commit order |
| `Interleaving.EmptyLogWritesNothing` | services/core/app/domain/inventory.py:150-194 | a transaction that appended no journal row has written no level |
| `Savepoints.SavepointRestores` | services/core/app/sync/order_ingest.py:166-187 | whatever is nested inside a savepoint and whatever others do meanwhile, rolling back to it restores the transaction's locks, rows and log to what they were, and releasing it keeps them |
| `Savepoints.RolledBackRowsAreReread` | services/core/app/sync/order_ingest.py:176-187 | after a rollback a locked read of a row changed since the savepoint sees the row as the tables have it |
| `OrderWorkers.RunKeepsInv` | services/core/app/sync/order_ingest.py:104-141 | any number of order ingests and other transactions, catalog pulls with entities loaded before the lock included, with plans read before the locks, keep the invariant |
| `OrderWorkers.StalePlansNeverOversell` | services/core/app/sync/order_ingest.py:104-141 | whatever the plans' age and whatever references other transactions write, no row is oversold, no order is ingested twice, deliveries book exactly the reserved orders, and only in online warehouses |
| `OrderWorkers.OneChannelBooksEachOrder` | services/core/app/sync/order_ingest.py:127-187 | the same booking result for any interleaving of one channel's ingests with other transactions |
| `OrderWorkers.RejectedOrderLeavesNoTrace` | services/core/app/sync/order_ingest.py:175-187 | the commit of a rejected order changes no committed level and appends nothing to journal or outbox, even when it failed on its last line |
| `OrderAlone.PostIsTheMove` | services/core/app/domain/inventory.py:150-212 | under the row's lock, with no entity loaded, an interleaved transaction's movement is let through exactly when the movement in one go is accepted on the tables it sees, and leaves the same tables, journal and events |
| `OrderAlone.LeftAloneIsTheIngest` | services/core/app/sync/order_ingest.py:71-192 | from any reachable state of any number of workers, a delivery whose worker alone steps between its receipt and its commit leaves what the ingest in one go leaves: rows, journal, events and order table |
| `OrderAlone.CanGoOn` | services/core/app/sync/order_ingest.py:93-141 | a worker has an enabled step at any time, unless another transaction has the row it wants to take from |
| `OrderAlone.OrdersAreTheCommitted` | services/core/app/sync/order_ingest.py:158-187 | in every interleaving the order table holds exactly the deliveries that committed, in order and with their verdict; one that crashed leaves no row |
| `EventBus.GeometricClosedForm` | libs/eventbus/config.py:34-36 | the sum of the powers of the base in closed form |
| `EventBus.BackoffTotalBound` | libs/eventbus/config.py:34-36 | the delays after n reads sum to at most the geometric sum and at most n times the cap |
| `EventBus.BackoffTotalClosedForm` | libs/eventbus/config.py:34-36 | the sum exactly: the powers while they stay under the cap, then the cap each time |
| `EventBus.Database.Send` | libs/eventbus/pgmq.py:50-55 | a sent message gets a fresh id and is visible at once |
| `EventBus.Database.Archive` | libs/eventbus/pgmq.py:78-83 | archiving moves a message out of the queue, and does nothing when it is gone |
| `EventBus.OutboxRelay.SelectBatch` | libs/eventbus/relay.py:36-45 | the unpublished rows of lowest sequence number, at most a batch of them |
| `EventBus.OutboxRelay.RunOnce` | libs/eventbus/relay.py:71-81 | every selected row is sent and marked published in one transaction |
| `EventBus.Consumer.FindNext` | libs/eventbus/pgmq.py:58-75 | the visible message of lowest id, or none |
| `EventBus.Consumer.RunOnce` | libs/eventbus/consumer.py:50-102 | read, then key, effect and archive together, or retry with backoff, or dead letter and archive; from when the message can be read again is `RetryHidesExactlyUntil` |
| `BusProtocol.UnpublishedFacts` | libs/eventbus/relay.py:36-45 | the batch ascends, holds only unlocked unpublished rows, and leaves out a row only when it is full of lower ones |
| `BusProtocol.WriterStepKeepsInv` | libs/eventbus/outbox.py:28-43 | event rows written inside business transactions, undone to a savepoint, committed or aborted, keep the invariant |
| `BusProtocol.CommitHandleKeepsInv` | services/core/app/idempotency.py:39-61 | key, handler effect and archive committing together, or only the archive for a duplicate, keep the invariant |
| `BusProtocol.SettleKeepsInv` | libs/eventbus/consumer.py:79-102 | a retry or a dead letter keeps the invariant, whatever other consumers did to the message meanwhile |
| `BusProtocol.NextKeepsInv` | libs/eventbus/consumer.py:50-102 | every step of any number of writers, relays and consumers, crashes included, keeps the invariant |
| `BusProtocol.AtMostOnce` | services/core/app/idempotency.py:39-61 | with any number of consumers, expired visibility and crashes, the handler's effect commits at most once per event and its key is present exactly when it did |
| `BusProtocol.OneMessagePerPublishedRow` | libs/eventbus/relay.py:71-81 | with any number of relays a row is published exactly when it has a message, and it never has two |
| `BusProtocol.NothingIsLost` | libs/eventbus/consumer.py:56-102 | a message leaves the queue only if its event's key is present or it has a dead letter |
| `BusDelivery.RunKeepsOne` | libs/eventbus/consumer.py:50-102 | the sharper invariant of one consumer holds in every run |
| `BusDelivery.ExactlyOnePlace` | libs/eventbus/consumer.py:56-102 | with one consumer, any number of relays and crashes anywhere, each committed event is in exactly one of: unpublished, queued, archived with its key, archived with a dead letter |
| `BusDelivery.RunsBoundReads` | libs/eventbus/consumer.py:79-102 | with c crashes a message is read at most max(max_retries, 1) + c times |
| `BusDelivery.RunsBoundBackoff` | libs/eventbus/consumer.py:79-102 | a message waits at most the geometric sum, and at most the cap times the retries |
| `BusDelivery.StepMeasure` | libs/eventbus/relay.py:71-81 | every step of work lowers the measure, a fault raises it by a fixed amount, nothing else moves it |
| `BusDelivery.WorkIsFinite` | libs/eventbus/consumer.py:50-102 | once the writers are done a run with k faults takes at most the measure plus k times the cost of a fault steps of work |
| `BusDelivery.WorkIsEnabled` | libs/eventbus/consumer.py:50-69 | with anything unpublished or queued, some step of work is enabled, perhaps after a wait |
| `BusBackoff.DeadLetteredAfterExactlyTheRetries` | libs/eventbus/consumer.py:79-102 | a message no crash touched is dead-lettered after exactly max(max_retries, 1) reads, and the delays computed for it are exactly those after all but the last |
| `BusTiming.VisibleExactlyFrom` | libs/eventbus/consumer.py:71-102 | with any number of workers and crashes a queued message counts its reads and is visible exactly from the time its history gives: its publication, the visibility timeout after its last read, or the backoff after its last failed read |
| `BusTiming.RetryHidesExactlyUntil` | libs/eventbus/consumer.py:79-102 | with one consumer, when the n-th read of a message settles as a retry at time t, then until its next read it stays queued, no read of it is possible before t + min(base^max(n, 1), cap), and from then on it is visible |
| `BusTiming.LaterReadsWait` | libs/eventbus/consumer.py:91-102 | so every later read of it comes at least that delay after the failure settled |
| `BusTiming.DeadLetterTakesItsTime` | libs/eventbus/consumer.py:79-102 | from the first read of a message no crash touched to its dead letter at least the sum of all delays but the last passes on the clock |
| `BusWorkers.ConsumerCallIsARun` | libs/eventbus/consumer.py:50-102 | the whole state after one consumer call is the one after its steps of the protocol |
| `BusWorkers.RelayCallIsARun` | libs/eventbus/relay.py:71-81 | the whole state after one relay call is the one after its steps of the protocol |
| `BusWorkers.RunsAreDeployed` | services/core/app/eventbus_workers.py:52-53 | every run with the one deployed relay and consumer meets what the drain bound asks for |
| `BusOrder.FirstInFirstOut` | libs/eventbus/consumer.py:50-69 | with one relay and one consumer, no consumer crash and no failing handler, the handled events are an initial part of the published ones in their order, and all of them once the queue is empty |
| `BusOrder.PublishingAppends` | libs/eventbus/relay.py:71-81 | with one relay a relay commit appends exactly its batch to the published events, in order; no other step changes them, whatever crashes or fails |
| `BusOrder.OneCrashReorders` | libs/eventbus/consumer.py:50-69 | one consumer crash is enough to handle two events in the opposite order of their publication |
| `HubBus.HubStepMirrored` | libs/eventbus/outbox.py:28-43 | whatever crashed or failed, every step of the interleaved transactions and their relay is an enabled step of the bus on the same rows, or none, and the two stay one system |
| `HubBus.SelectMirrored` | libs/eventbus/relay.py:36-45 | the rows the relay selects from the transactions' outbox are those the bus selects: the lowest unpublished ones, in order |
| `HubBus.BusStepMirrored` | libs/eventbus/consumer.py:50-102 | a step of the consumer, its crash and its failure included, keeps the two sides one system |
| `HubBus.HandledIsAPrefix` | libs/eventbus/consumer.py:50-69 | in a run without consumer crash and failing handler what was handled is an initial part of the queue the transactions filled, and all of it once no message is left |
| `HubBus.AllPublishedIsHandled` | libs/eventbus/consumer.py:50-102 | whatever crashed or failed, once no message is left and none was dead-lettered every published event of the transactions was handled |
| `Canonical.AggregateOnlineStock` | services/core/app/sync/canonical.py:44-61 | the loop sums quantity and reserved over the rows in online warehouses |
| `Canonical.OfferedIsReservable` | services/core/app/sync/canonical.py:79-107 | the stock offered online is exactly what an order can still reserve |
| `Dispatcher.SyncDispatcher.OnVariantAdded` | services/core/app/sync/dispatcher.py:135-163 | the listing fan-out over the channels, in order, up to the first push that raises |
| `Dispatcher.SyncDispatcher.OnMovementApplied` | services/core/app/sync/dispatcher.py:165-186 | the stock fan-out over the channels with an active listing, up to the first push that raises |
| `Dispatcher.StampedExactlyWhereLanded` | services/core/app/sync/dispatcher.py:165-186 | a listing is stamped and shows the buffered figure exactly where a push landed on an active listing; everything else is as it was |
| `Dispatcher.ListedWhereLanded` | services/core/app/sync/dispatcher.py:135-163 | after the fan-out each channel's listing is what its own push made of it |
| `Dispatcher.StockShownWhereLanded` | services/core/app/sync/dispatcher.py:165-186 | whatever its pushes do, a movement's fan-out shows its figure exactly at the active listings whose push landed before one raised |
| `Dispatcher.ListShownWhereLanded` | services/core/app/sync/dispatcher.py:135-163 | whatever its pushes do, a listing's fan-out shows its figure exactly at the channels whose push was answered before one raised |
| `Dispatcher.RowsAfterListing` | services/core/app/sync/dispatcher.py:135-163 | whatever its pushes do, a listing's fan-out leaves the answered rows stamped, the others it reached and the one whose push raised ensured, and no channel after that touched |
| `Dispatcher.MovementFigureAgreesExactlyWhen` | services/core/app/sync/dispatcher.py:165-181 | over the tables: a movement push's figure equals the aggregated one exactly when, in an online warehouse, the other online ones offer nothing or the whole offer stays within the safety stock, and in an offline one, when the online ones offer the same or both stay within it |
| `Dispatcher.MovementPushShowsTheOfferExactlyWhen` | services/core/app/sync/dispatcher.py:165-186 | so a landed movement push leaves an active listing at the aggregated figure exactly under that condition |
| `Dispatcher.OfflineMovementOverstates` | services/core/app/sync/dispatcher.py:165-181 | a failing input: a movement in an offline warehouse shows five units where the hub offers none |
| `Dispatcher.SecondWarehouseIsForgotten` | services/core/app/sync/dispatcher.py:165-181 | a failing input: a movement in one of two online warehouses shows five units where the hub offers eight |
| `Pipeline.RunKeepsInv` | services/core/app/sync/dispatcher.py:119-186 | transactions, relay, bus consumer and dispatcher together, with movements committing between the handler's look at the tables and its push, keep every followed listing explained, in runs in which every push lands, no handler fails and no consumer crashes |
| `Pipeline.DrainedChannelsAgree` | services/core/app/sync/dispatcher.py:135-186 | for a variant kept in one online warehouse and a run in which every push lands, no handler fails and no consumer crashes, once outbox and queue are drained every active listing shows max(qty - reserved - safety stock, 0) |
| `Pipeline.HubStepsAreNotHeldBack` | libs/eventbus/relay.py:71-81 | joining the two machines holds no step of a transaction or the relay back |
| `PipelineFaults.ChannelsShowTheLastLanding` | services/core/app/sync/dispatcher.py:135-186 | in every run, with skipped and raising pushes, failing handlers whose listing rows roll back, retries and crashes, a channel shows the figure of the last push that landed there |
| `PipelineFaults.ListingAgreesExactlyWhen` | services/core/app/sync/dispatcher.py:165-186 | in every run an active listing agrees with the committed row exactly when the last push that landed there carried the same figure; it does when that push was the row's newest movement's |
| `PipelineFaults.DrainedWasFannedOut` | libs/eventbus/consumer.py:50-102 | in every run, once outbox and queue are drained and nothing was dead-lettered, every committed event's fan-out went through all channels |
| `PipelineTables.UnfinishedLeavesTheListings` | libs/eventbus/consumer.py:56-69 | until a handler finishes, its pushes change no committed listing row; when a push raised, the handler failed or the consumer crashed, the table is what it was before |
| `PipelineTables.LookedUpThen` | services/core/app/sync/dispatcher.py:135-163 | in every run what a handler is about to push for a re-published variant is what the hub offered of it when it looked, for the event in hand; nothing if the product was not published then |
| `PipelineFaults.RunIsJoined` | libs/eventbus/consumer.py:50-102 | in every run of the whole system, whatever crashes or fails, transactions and bus stay one system with both their invariants |
| `PipelineCrash.OneCrashLeavesTheOlderFigure` | libs/eventbus/consumer.py:50-69 | a failing run of the whole system: nothing but one consumer crash goes wrong, everything is drained and nothing dead-lettered, the row holds eight units and the channel's active listing shows five |
| `RateLimit.TokenBucket.Refill` | libs/adapter/rate_limit.py:82-88 | the refill runs with elapsed time up to the capacity, and not at all when the clock stands still |
| `RateLimit.TokenBucket.Acquire` | libs/adapter/rate_limit.py:54-80 | when an acquire is granted or times out, at which time, with which bucket left; it sleeps at most once |
| `RateLimit.NewBucket` | libs/adapter/rate_limit.py:38-47 | a rate or capacity that is not positive is refused; otherwise the bucket starts full |
| `RateLimit.WaitSuffices` | libs/adapter/rate_limit.py:71-80 | after sleeping the computed wait, or longer, a refill reaches a whole token |
| `RateLimit.AcquireStaysInBudget` | libs/adapter/rate_limit.py:71-88 | an acquire keeps what was granted within what a full bucket and the elapsed time pay for |
| `RateLimit.GrantedExactlyWhen` | libs/adapter/rate_limit.py:54-88 | an acquire is granted exactly when its caller gets the lock in time and a whole token is there, or flows in before the caller's time is up; the grant is dated by the first time a whole token is there, or by the late end of the sleep |
| `RateLimit.GrantTakesOne` | libs/adapter/rate_limit.py:71-88 | a grant takes one token out of what has flowed in by its date; a timeout takes none |
| `RateLimit.WindowBound` | libs/adapter/rate_limit.py:71-88 | for any mix of acquires, waits and timeouts every window of length T holds at most capacity + rps * T grants, and the bucket stays between empty and full |
| `CircuitBreaker.CircuitBreaker.Begin` | libs/adapter/circuit_breaker.py:93-95 | a call is refused exactly while the breaker is open and its cooldown is running |
| `CircuitBreaker.CircuitBreaker.Finish` | libs/adapter/circuit_breaker.py:96-99 | success closes, a counted failure counts or opens, an excluded error changes nothing |
| `CircuitBreaker.CircuitBreaker.RecordFailure` | libs/adapter/circuit_breaker.py:105-112 | a half-open failure re-opens; any other counts and opens at the limit |
| `CircuitBreaker.NewBreaker` | libs/adapter/circuit_breaker.py:53-69 | a limit or cooldown that is not positive is refused; otherwise the breaker starts closed |
| `CircuitBreaker.StateFromHistory` | libs/adapter/circuit_breaker.py:79-123 | for overlapping calls in any interleaving: closed exactly when fail_count < fail_max, exactly when fewer than fail_max counted failures follow the last success; otherwise half-open exactly when a call came after the cooldown of the last counted failure |
| `CircuitBreaker.AdmittedExactlyWhen` | libs/adapter/circuit_breaker.py:93-103 | the histories after which a call is let through |
| `CircuitBreaker.HalfOpenLetsEveryCallThrough` | libs/adapter/circuit_breaker.py:18-19 | until a counted ending a half-open breaker lets every call through, so no second trial gets in exactly when no call begins before that ending |
| `CircuitBreaker.TwoTrials` | libs/adapter/circuit_breaker.py:18-19 | in every configuration overlapping calls, or one after an excluded error, give two half-open trials |
| `CircuitBreaker.FailingRunsAreBounded` | libs/adapter/circuit_breaker.py:79-123 | calls one after another that all fail run at most fail_max + floor(T / reset_timeout) times in time T |
| `CircuitBreaker.BoundIsReached` | libs/adapter/circuit_breaker.py:79-123 | some calls run exactly that often, for every T |
| `Guard.ChannelGuard.LimiterFor` | services/core/app/sync/guard.py:58-66 | the channel's own bucket, made on first use |
| `Guard.ChannelGuard.BreakerFor` | services/core/app/sync/guard.py:68-79 | the channel's own breaker, made on first use |
| `Guard.ChannelGuard.Begin` | services/core/app/sync/guard.py:81-93 | a token first, then the breaker's word: whatever history of calls and endings on all channels led here, the answer is the one this channel's own history calls for (`Verdict`); only this channel's bucket and breaker change |
| `Guard.AnswerFromHistory` | services/core/app/sync/guard.py:81-93 | over every sequence of calls and endings: a call is answered by a limiter timeout exactly when its channel's own bucket times it out, as misconfigured exactly when no limiter, or after the token no breaker, can be made, and started otherwise exactly when its channel's failures since the last success are below the limit, a call was tried after the cooldown, or the cooldown is over; else the breaker is open |
| `Guard.StartsExactlyWhen` | services/core/app/sync/guard.py:81-93 | so a channel's adapter starts are, call by call, exactly those, each dated by its grant |
| `Guard.ChannelGuard.Finish` | services/core/app/sync/guard.py:81-93 | the ending of an adapter call reaches the channel's breaker and no other |
| `Guard.StartsAreRateLimited` | services/core/app/sync/guard.py:81-93 | however channels interleave, a channel's adapter calls start at most burst + rps * T times in any window of length T |
| `Guard.ChannelsAreIndependent` | services/core/app/sync/guard.py:58-93 | a channel's bucket, breaker and starts are those of its own calls alone |
| `Reconcile.RepairListing` | services/core/app/sync/reconcile.py:186-236 | stock first, then price, a caught failure of one not stopping the other |
| `Reconcile.BuildsExactly` | services/core/app/sync/canonical.py:115-182 | there is a snapshot exactly for a known, published and priced variant; it carries what an order can reserve online, the catalog's currency, and the topmost tenant-wide override's price or, when none applies, the catalog's |
| `Reconcile.ReconcileOne` | services/core/app/sync/reconcile.py:131-183 | one listing: the three skips, the drift comparison, the repair, and the escaping timeout |
| `Reconcile.ReportsExactly` | services/core/app/sync/reconcile.py:131-184 | the report of a listing: which note, which stock of hub and channel, which drift, and how many calls were made |
| `Reconcile.PushesExactly` | services/core/app/sync/reconcile.py:167-236 | what a comparison leaves on the channel: stock pushed before price, each when it drifted and with its own call's effect |
| `Reconcile.ReconcileChannel` | services/core/app/sync/reconcile.py:100-128 | every listing due in turn; never more repaired than drifted, nor more drifted than checked |
| `Reconcile.ReconcileTenant` | services/core/app/sync/reconcile.py:239-269 | every channel with an adapter in turn, the counts of the report, and what a run that ends early leaves |
| `Reconcile.InSyncExactlyWhen` | services/core/app/sync/reconcile.py:167-236 | after a comparison the listing equals the hub exactly when every push its drift called for took effect; when it is reported repaired; and when it is reported drifted |
| `Reconcile.RepairedMeansInSyncExactlyWhen` | services/core/app/sync/reconcile.py:186-236 | whatever the calls' fates a listing reported as repaired equals the hub, exactly when not both its stock and its price had drifted |
| `Reconcile.RepairedCanStillDiffer` | services/core/app/sync/reconcile.py:186-236 | the failing input: both drifted, the second push fails, the listing is reported as repaired and differs |
| `Reconcile.BufferIsGivenAway` | services/core/app/sync/reconcile.py:167-170 | a listing kept at the dispatcher's buffered figure drifts exactly when the buffer holds something back, and the repair shows the whole stock |
| `Reconcile.RunConverges` | services/core/app/sync/reconcile.py:131-236 | when every call lands one run brings every listing the channel knows to the hub's stock, price and currency |
| `Reconcile.EveryListingConverges` | services/core/app/sync/reconcile.py:100-128 | with the listings due selected as the code does, one run in which every call lands brings every active, already pushed listing the channel knows to the hub, and touches no other SKU |
| `Reconcile.RunIsQuiet` | services/core/app/sync/reconcile.py:131-183 | with everything in sync and no call starved at the rate limiter a run finds no drift and changes nothing, whatever fetches fail |
| `Reconcile.StillInSync` | services/core/app/sync/reconcile.py:144-170 | with neither stock nor prices changing, what was in sync stays in sync at later times |
| `Reconcile.SecondRunFindsNothing` | services/core/app/sync/reconcile.py:131-269 | when every call lands and neither stock nor prices change in between, a second run reports zero drifted and zero repaired |
| `Reconcile.ReconcileTwice` | services/core/app/sync/reconcile.py:239-269 | tenant-wide: when every call lands and neither stock nor prices change in between, the second report says zero drifted and zero repaired |
| `Reconcile.RunAbortsExactlyWhen` | services/core/app/sync/reconcile.py:149-153 | a run ends early exactly when a call it made timed out at the rate limiter |
| `Reconcile.CountsAreOrdered` | services/core/app/sync/reconcile.py:265-269 | in all runs repaired <= drifted <= checked |
| `Reconcile.ResultsFollowTheListings` | services/core/app/sync/reconcile.py:100-128 | the results follow the listings due one by one, each with its SKU and the hub's stock |
| `Reconcile.CountsAreSizes` | services/core/app/sync/reconcile.py:265-269 | the report's counts are the numbers of results with a drift and of results marked repaired |
| `Pricing.BestTops` | services/core/app/domain/pricing.py:106-128 | the selected override applies and everything else that applies ranks below it; there is one exactly when some override applies |
| `Pricing.BestIsTheTop` | services/core/app/domain/pricing.py:117-128 | an override is selected exactly when it is the maximum by (store-specific, created_at, id) |
| `Pricing.ResolvesExactly` | services/core/app/domain/pricing.py:89-137 | not found exactly for an unknown variant; with no row that applies the catalog's price and no override; otherwise price and id of the row that tops all that apply; currency and base always the catalog's |
| `Pricing.RowOrderIsIrrelevant` | services/core/app/domain/pricing.py:116-129 | the price does not depend on the order of the rows |
| `Pricing.PriceChangesOnlyAtABoundary` | services/core/app/domain/pricing.py:104-110 | as time passes the price changes only when a window of one of the variant's overrides opens or closes |
| `Pricing.StoreFallsBackToTenant` | services/core/app/domain/pricing.py:111-128 | a store gets its own best override when one applies, and otherwise the tenant-wide price |
| `Pricing.PriceBook.SetOverride` | services/core/app/domain/pricing.py:39-86 | the two lookups, the refusal of exactly the windows that hold no time, the new row and its event |
| `Pricing.WindowHoldsATime` | services/core/app/domain/pricing.py:57-58 | the write-time check refuses exactly the empty windows |
| `Pricing.NewRowRepricesExactly` | services/core/app/domain/pricing.py:104-128 | a write reprices exactly the queries its row applies to, a tenant-wide row not those a store's own row answers, and leaves every other query alone |
| `PosIngest.Import.Create` | services/core/app/domain/catalog.py:35-235 | a new product with one variant and their two events; a taken barcode is a conflict |
| `PosIngest.Import.SetStock` | services/core/app/sync/pos_ingest.py:123-160 | in a session nobody else writes beside: the movement that drives a stock figure to its target, if one is needed |
| `PosIngest.Import.SyncCatalog` | services/core/app/sync/pos_ingest.py:42-88 | the whole pull with its counters; the first error ends it |
| `PosIngest.Import.SyncTenant` | services/core/app/sync/pos_ingest.py:91-120 | the online warehouse of lowest id is the target; without one nothing happens |
| `PosIngest.StockedSucceedsExactlyWhen` | services/core/app/sync/pos_ingest.py:123-160 | a figure is reached exactly when nothing is to do, or the warehouse exists and no reserved unit is taken away |
| `PosIngest.PulledOneSucceedsExactlyWhen` | services/core/app/sync/pos_ingest.py:50-88 | one product comes through exactly when it is known or its barcode is free, and its figure can be set; else which error ends the pull |
| `PosIngest.PullMirrorsTheSource` | services/core/app/sync/pos_ingest.py:42-88 | a completed pull leaves every SKU at the quantity and price of its last occurrence, reserved units and other warehouses untouched, and pulled = created + updated |
| `PosIngest.PullAnnouncesWhatItMade` | services/core/app/sync/pos_ingest.py:50-75 | a pull announces exactly the SKUs it made, a product and a variant each, once and in the order they first occur; it counts them as created, the other occurrences as updated, and claims their barcodes |
| `PosIngest.PulledOneJournals` | services/core/app/sync/pos_ingest.py:118-160 | a restocked product is one movement of its row: an entry when the row is new, an adjustment otherwise, by exactly the difference, tagged as the import's |
| `PosIngest.RestockedAreTheMovements` | services/core/app/sync/pos_ingest.py:77-88 | `restocked` is the number of movements a pull applied, all tagged as the import's and in its warehouse, and it applied no others |
| `PosIngest.PullKeepsExplained` | services/core/app/sync/pos_ingest.py:123-160 | a pull nobody else writes beside keeps every level equal to the replay of its journal and to its newest event |
| `PosIngest.PullIsSilentExactlyWhenSettled` | services/core/app/sync/pos_ingest.py:123-160 | a pull applies no movement and emits no event exactly when every product is there at its figure |
| `PosIngest.SecondPullIsSilentExactlyWhen` | services/core/app/sync/pos_ingest.py:42-88 | pulling the same catalog again applies and emits nothing exactly when no SKU occurs with two different figures |
| `PosWorkers.EntityIsCurrentExactlyWhen` | services/core/app/sync/pos_ingest.py:133-134 | among other transactions: the row the pull loaded has the version of the committed row at the lock exactly when nobody committed a movement of it in between |
| `PosWorkers.PullReachesItsTarget` | services/core/app/sync/pos_ingest.py:133-160 | whatever others committed between load and lock, the correction leaves the quantity at its target and the units reserved meanwhile in place; the guard refuses it exactly when the target is below the units reserved at the load, the CHECK exactly when it is below those at the lock |
| `PosWorkers.FirstPullAddsItsTarget` | services/core/app/sync/pos_ingest.py:135-147 | a row that did not exist at the load gets the target on top of what others stocked meanwhile, and the correction is never refused |
| `PosWorkers.PullKeepsCountExactlyWhen` | services/core/app/sync/pos_ingest.py:133-160 | the pull's commit keeps versions counting and the journal replaying to the row exactly when it found no row, or nobody committed a movement of it between load and lock |
| `PosWorkers.LatePullMiscounts` | services/core/app/sync/pos_ingest.py:133-160 | the failing run: ten units, a pull to twelve loads the row, four units go out, the pull corrects; version two is queued twice, the row holds twelve and its journal replays to eight |

## Left out

- Adapters over HTTP, API routers, middleware, telemetry, translations, secrets, tokens, signatures, the admin interface and the scripts: input, output or thin wrappers.
- Row-level security and tenants: one tenant; the tenant filters would add only easy members.
- Postgres and the queue extension: assumed as said above, not modelled; a failure between a commit and its acknowledgement is not distinguished from the two outcomes it can have.
- Deadlocks: a step that waits for a lock is simply not enabled; that multi-line orders and transfers cannot wait for each other in a circle is not claimed.
- Integer widths: quantities, prices and counters are unbounded.
- Floating-point rounding in the token bucket: arithmetic is exact.
- Fairness of the limiter's lock: the order in which waiting callers get it is not modelled.
- Events that cannot be parsed: every queued message is a well-formed event.
- Exactly-once pushes to a channel, and queue order with several relays: not promised by the code.
- Aggregated stock on a movement push: the payload is one warehouse's level; `Dispatcher.MovementFigureAgreesExactlyWhen` says for which rows that makes no difference.
- A price push on `pricing.override.set` and the discovery of a variant's SKU: the fan-out is the one of the stock push.
- Shifts, cash, feature flags, roles, money and the adapter registry: small, single-branch claims.
- Images, attributes, barcode, category and status of the canonical product: copied unchanged.
- Guard.ChannelGuard.Begin: the call is split where the adapter's own running time passes; a start is dated by its grant, since nothing is awaited in between.
- Pipeline.DrainedChannelsAgree: the variant's stock lies in one online warehouse, every push lands, no handler fails and no consumer crashes, because the code does not keep this otherwise: `Dispatcher.SecondWarehouseIsForgotten` and `PipelineCrash.OneCrashLeavesTheOlderFigure` show how it fails, `PipelineFaults.ListingAgreesExactlyWhen` says exactly when it holds in all runs.
- PosIngest.Import.SetStock: one step on tables nobody else writes; a commit between its read and its lock is the subject of `PosWorkers`.
- PosIngest.PullKeepsExplained: for a pull alone; beside other transactions `PosWorkers.PullKeepsCountExactlyWhen` says exactly when it holds.
- PosIngest.PullMirrorsTheSource: for figures that are not negative; a negative one aborts the pull when the row exists and is ignored when it does not.
