# A verified model of the banking back end

The repository is a set of NestJS services that move money through Kafka events and PostgreSQL
tables. This project models its stateful core in Dafny and proves what the design promises, over every
run: with calls that fail (before or after their effect), handlers that crash, events that are
redelivered, and writers that hold stale copies.

Money is a whole number of cents. Every database call is a step of its own, except that what one
`BEGIN`..`COMMIT` covers is one step; `TransactionRepository.create` and `updateStatus` commit on their
own wherever they stand, and are modelled so. A class keeps those fields of the source's that hold its
tables and its state, not its clients and timers; each of its methods that changes state is proved equal
to a function on values. The machines are built from those same functions, and `...IsARun` lemmas show
that one uninterrupted call is a run of the machine.

| file | what it models |
|---|---|
| `Options.dfy` | options, and how a call can end: done, failed, or failed after its effect |
| `AccountEvents.dfy` | the account aggregate's events, commands, replay, and both balance computations |
| `EventStore.dfy` | the event and snapshot tables with their unique keys, and the repository |
| `Aggregates.dfy` | the aggregate object and the repository that loads and saves it; point-in-time balance |
| `ConcurrentWriters.dfy`, `WriterTheorems.dfy` | any number of stale writers, call by call, and what every run keeps |
| `SaveProgress.dfy` | load, commands, save without other writers; exactly when the save succeeds |
| `SaveOutcomes.dfy` | what one save comes to for every object a run can leave, whatever fails |
| `StrandedAccounts.dfy` | the accounts that can never be saved again, over every later run |
| `AppendRaces.dfy` | `append` and `appendBatch` racing inside transactions |
| `Banking.dfy` | the vocabulary of the two services |
| `Ledger.dfy` | customer service: guarded balance update, and the atomic application of a completed transaction |
| `Transactions.dfy`, `Saga.dfy`, `Projections.dfy` | transaction service: tables and requests, the saga, the projection subscribers |
| `Protocol.dfy`, `ProtocolKeeps.dfy` | both services and the log as one machine, and its invariant |
| `ProtocolTheorems.dfy`, `MoneySafety.dfy` | outcome uniqueness, and what every run guarantees about balances |
| `Deliveries.dfy` | which accounts completed transactions name, when they are applied, and which never are |
| `ProjectionSafety.dfy` | what the projection shows of the ledger |
| `Judgements.dfy` | what the saga behind a completed transaction had read |
| `ProtocolRuns.dfy` | the handlers and services, one call at a time, as runs of the machine |
| `WholeTransactions.dfy` | one whole transaction without faults, from any reachable world |
| `Republished.dfy` | what publishing a row again does |
| `Overdrafts.dfy` | completed withdrawals that are never applied |
| `ProtocolWitnesses.dfy` | three runs from the start that show these things happen |
| `Publishing.dfy` | the poller and the services together |
| `Outbox.dfy`, `OutboxRuns.dfy` | the outbox table and poller, one cycle and every interleaving |
| `OutboxRetention.dfy` | how long a published row stays |
| `FailingRows.dfy` | what rows that cannot be published cost the others |
| `DeadLetters.dfy`, `DeadLetterHandler.dfy` | the retry wrapper and the dead letter table, every interleaving and one call at a time |
| `SlidingWindow.dfy`, `LlmLimiter.dfy` | the two limiters |

Where the code and what is said about it differ, the model follows the code:

- `README.md:197` of the repository says the poller retries five times and then moves a message to the
  dead letter queue. The poller only logs (`packages/shared/src/outbox/outbox.poller.ts:112-116`); a
  message stays pending until it is published, and keeps its place in the batch. `FiftyStopTheOutbox`
  proves that while 50 pending rows keep failing no later row is ever sent, and `FewerOnlySlowItDown`
  that with f < 50 of them n other rows are out within ceil(n / (50 - f)) cycles.
- Loading an account whose newest snapshot is at the head leaves the object's version at 0
  (`packages/shared/src/event-sourcing/aggregate.ts:15`, `:43-48`, `:103-106`), so no later save of it
  can succeed. `LoadCommandSave` proves that this is exactly when a lone save fails, `TenEventsStrand`
  that an account saved at a version divisible by ten gets there (nine deposits do, `DepositsStrand`), and
  `SavedAtTenIsTheEnd` that no object loaded or opened afterwards ever adds to it.
- Deduplication is per published event, not per outbox row: publishing mints a new event id
  (`packages/shared/src/adapters/kafka-event-bus.ts:80`). What is said about one transaction's status and
  effect therefore assumes that its own request row, or its own two rows, were not published twice
  (`Once`, `OnceFor`); all other rows may be, any number of times. Each half is needed:
  `PublishedAgainAppliedAgain`, `RequestedAgainAppliedAgain` and `RejectedAfterAll` say for every
  reachable world what publishing the one or the other again leads to, and `AppliedTwiceInARun` and
  `RejectedYetAppliedInARun` are such runs from the start. `PublishedOnce` proves the assumption of every
  run whose transaction rows come from a poller in which no call fails and nothing crashes.
- A completed transaction need not be applied (`packages/customer-service/src/subscribers/index.ts:95-96`).
  `AppliedWhen` says exactly when a delivery applies it, when it is marked without effect, and when it
  throws; `MarkedMeansApplied` that, as long as no account is deactivated by hand, only a withdrawal is
  ever marked without effect. The saga judges by the projection and the ledger by the balance:
  `SecondWithdrawalUnapplied` proves that two withdrawals are completed, and only one is applied, whenever
  the projection shows an amount the balance holds once, and `CompletedNeverAppliedInARun` is such a run
  from the start, without faults or deactivations and with no row published twice.
- A fault between the mark and the insert loses an account's initial deposit for good
  (`packages/transaction-service/src/subscribers/index.ts:33-76`): `InitialDepositSettled`.
- `checkRateLimit` counts members of a sorted set, and a member is a millisecond
  (`packages/shared/src/cache/cache-service.ts:138`): any number of requests in one millisecond is allowed
  where two are (`OneMillisecondIsUnlimited`). With no two in one millisecond the limit on requests holds
  (`AtMostMaxRequests`).
- An event that fails for good again after its dead letter row was resolved is only counted up there
  (`packages/shared/src/dlq/dlq.handler.ts:68-72`): `WrittenIsRetryable` says that only the first failure of
  an event opens a failed row, `SettledIsNotRetried` that no retry ever takes up a settled one.
- Published rows are cleaned up by a cycle only after it found something to publish
  (`packages/shared/src/outbox/outbox.poller.ts:80-82`, `:120`): `CycleCalls` and `PollCleans` say exactly
  when, `KeptForADay` that no row goes within 24 hours of its publication.
- A save whose snapshot cannot be written throws although every event is stored
  (`packages/shared/src/event-sourcing/aggregate.ts:148-156`): `SaveMeans` says for every object exactly when
  a save throws and what it has stored by then.

## Model

| member | source | states |
|---|---|---|
| AccountEvents.CommandsAreLegal | packages/shared/src/event-sourcing/account.aggregate.ts:44-120 | a command raises only an event that the independent rules for a legal event allow on its state, and is refused exactly when they allow none of its kind |
| AccountEvents.RefusedBecause | packages/shared/src/event-sourcing/account.aggregate.ts:44-120 | which refusal is given: exactly when each of the six is, a bad amount before a wrong status before missing funds |
| AccountEvents.TotalsAgree | packages/shared/src/event-sourcing/account.repository.ts:60-84 | on a legal stream the delta total equals the absolute balance after every event, previousBalance is what came before, no balance is negative |
| AccountEvents.FreezesBracket | packages/shared/src/event-sourcing/account.aggregate.ts:92-120 | on a legal stream creation is first and only, freezes and unfreezes alternate, nothing lies between a freeze and its unfreeze |
| EventStore.MaxIsLengthOf | packages/shared/src/event-sourcing/event-store.repository.ts:43-51 | where versions are 1..n, `COALESCE(MAX(version), 0)` is the number of events and exactly 1..n are taken |
| EventStore.EventsAfterIsTheQuery | packages/shared/src/event-sourcing/event-store.repository.ts:114-126 | the suffix that is read is exactly the aggregate's rows above the version asked for, ascending |
| EventStore.LatestIsNewest | packages/shared/src/event-sourcing/event-store.repository.ts:194-204 | the snapshot read is one of the aggregate's and none of them is newer; none only if there is none |
| EventStore.AppendOneExtends | packages/shared/src/event-sourcing/event-store.repository.ts:40-89 | exactly when an append throws and when its row is there: refused for another expected version or a stored event id, else the next version of its stream, with its payload and the database's time |
| EventStore.StampsAfterAreTheirs | packages/shared/src/event-sourcing/event-store.repository.ts:114-126 | each event that is read comes with the stamp of its own row |
| EventStore.BatchStamps | packages/shared/src/event-sourcing/event-store.repository.ts:91-112 | one batch call only adds rows, all with the one stamp |
| EventStore.EventStoreRepository.Append | packages/shared/src/event-sourcing/event-store.repository.ts:40-89 | the whole new table and whether it threw; contiguity kept |
| EventStore.EventStoreRepository.AppendBatch | packages/shared/src/event-sourcing/event-store.repository.ts:91-112 | the loop with ROLLBACK leaves the table and the error that `Batch` says, under any faults |
| EventStore.BatchMeans | packages/shared/src/event-sourcing/event-store.repository.ts:91-112 | with no fault a batch goes through iff every input expects the version its aggregate has by then and brings a new event id; then each aggregate has gained its events at consecutive versions in order, else nothing has changed |
| EventStore.EventStoreRepository.GetEvents | packages/shared/src/event-sourcing/event-store.repository.ts:114-126 | the loop over the table returns the stream's suffix and the suffix of its stamps, from any version |
| EventStore.EventStoreRepository.GetLatestSnapshot | packages/shared/src/event-sourcing/event-store.repository.ts:194-204 | the scan returns the newest snapshot |
| EventStore.EventStoreRepository.CurrentVersion | packages/shared/src/event-sourcing/event-store.repository.ts:206-216 | the scan returns the maximum stored version |
| EventStore.EventStoreRepository.SaveSnapshot | packages/shared/src/event-sourcing/event-store.repository.ts:167-192 | one more snapshot, or the old table and an error when its version is taken |
| Aggregates.LoadFromHistoryReplays | packages/shared/src/event-sourcing/aggregate.ts:43-58 | loading history is replay of the state and takes over the last event's version, or none |
| Aggregates.AccountAggregate.Deposit | packages/shared/src/event-sourcing/account.aggregate.ts:44-64 | the object changes as the command function says; which refusal is given when; otherwise the balance grows by the amount |
| Aggregates.AccountAggregate.Withdraw | packages/shared/src/event-sourcing/account.aggregate.ts:66-90 | the same for withdrawals, with missing funds as the last refusal; never below zero |
| Aggregates.AccountAggregate.Freeze | packages/shared/src/event-sourcing/account.aggregate.ts:92-108 | accepted iff active, and which refusal otherwise; then frozen, the balance untouched |
| Aggregates.AccountAggregate.Unfreeze | packages/shared/src/event-sourcing/account.aggregate.ts:110-120 | accepted iff frozen, refused as not frozen otherwise; then active, the balance untouched |
| Aggregates.AccountAggregate.Raise | packages/shared/src/event-sourcing/aggregate.ts:50-84 | the event is applied, counted and kept as uncommitted with the next version |
| Aggregates.AccountAggregate.MarkEventsAsCommitted | packages/shared/src/event-sourcing/aggregate.ts:39-41 | nothing but the uncommitted events changes |
| Aggregates.AccountAggregate.ReplayEvents | packages/shared/src/event-sourcing/aggregate.ts:43-48 | the in-place loop is the replay function |
| Aggregates.AccountAggregateRepository.LoadAggregate | packages/shared/src/event-sourcing/aggregate.ts:96-121 | a fresh object holding what `Load` computes from the tables, or null |
| Aggregates.AccountAggregateRepository.SaveAggregate | packages/shared/src/event-sourcing/aggregate.ts:123-157 | tables, object and error of the save loop under any faults are those of `Save` |
| Aggregates.AccountAggregateRepository.GetBalanceAt | packages/shared/src/event-sourcing/account.repository.ts:28-41 | filter and replay give the balance at a time |
| Aggregates.AccountAggregateRepository.GetHistory | packages/shared/src/event-sourcing/account.repository.ts:43-87 | the running total in the loop is the history function |
| Aggregates.HistoryShowsBalances | packages/shared/src/event-sourcing/account.repository.ts:60-84 | one entry per money event, showing the balance and the change that the event itself recorded |
| Aggregates.UntilIsPrefix | packages/shared/src/event-sourcing/account.repository.ts:30-31 | with non-decreasing stamps the filter keeps a prefix |
| Aggregates.BalanceAtMatchesHistory | packages/shared/src/event-sourcing/account.repository.ts:28-87 | whatever the stamps, balance at t is the last history entry at or before t, or 0 when there is none but some event exists, or null |
| ConcurrentWriters.RunKeeps | packages/shared/src/event-sourcing/aggregate.ts:96-157 | in every run rows are legal and numbered, snapshots are replays, and each writer's stored events are the first of its uncommitted ones, in place |
| ConcurrentWriters.InsertLandsNext | packages/shared/src/event-sourcing/event-store.repository.ts:59-87 | an insert the unique key lets in is the next event of the writer's own view of the stream |
| WriterTheorems.StreamsAreContiguous | packages/shared/src/event-sourcing/event-store.sql:29 | in every reachable store each aggregate's versions are exactly 1..n |
| WriterTheorems.BalancesAgree | packages/shared/src/event-sourcing/account.repository.ts:60-84 | in every reachable stream both balance computations agree after every event, previousBalance is right, nothing is negative |
| WriterTheorems.HistoryIsRight | packages/shared/src/event-sourcing/account.repository.ts:43-87 | on every reachable store the history shows the recorded balances |
| WriterTheorems.FreezesAreBracketed | packages/shared/src/event-sourcing/account.aggregate.ts:92-120 | freeze bracketing in every reachable stream, stale writers included |
| WriterTheorems.SnapshotsAreReplays | packages/shared/src/event-sourcing/aggregate.ts:146-156 | every stored snapshot is the replay of exactly the events it counts |
| WriterTheorems.LoadIsFullReplay | packages/shared/src/event-sourcing/aggregate.ts:96-121 | snapshot plus tail equals full replay; the version is the head unless the snapshot is at it, and then 0 |
| WriterTheorems.ReachableLoad | packages/shared/src/event-sourcing/aggregate.ts:96-121 | in every reachable store loading equals replaying the whole stream, and finds nothing iff there is no event |
| WriterTheorems.InterleavedLoad | packages/shared/src/event-sourcing/aggregate.ts:98-119 | the same when others write between the two reads of a load |
| WriterTheorems.PointInTime | packages/shared/src/event-sourcing/account.repository.ts:28-87 | in every reachable store what is replayed for a time is the stream as it stood then, and the balance is the last history entry up to it |
| WriterTheorems.NoEventTwice | packages/shared/src/event-sourcing/event-store.sql:7 | no event id is ever stored twice |
| WriterTheorems.InterruptedSave | packages/shared/src/event-sourcing/aggregate.ts:132-146 | wherever a save stopped and however often retried: a prefix of the uncommitted events is stored, each at its own version, no event twice |
| WriterTheorems.ReadConflictLeavesBehind | packages/shared/src/event-sourcing/event-store.repository.ts:53-57 | a version conflict at the read leaves the object behind its stream |
| WriterTheorems.InsertConflictLeavesBehind | packages/shared/src/event-sourcing/event-store.sql:29 | so does one at the unique key |
| WriterTheorems.ConflictIsFinal | packages/shared/src/event-sourcing/aggregate.ts:132-146 | an object left behind never stores another event in any later run |
| SaveProgress.LoadCommandSave | packages/shared/src/event-sourcing/aggregate.ts:96-157 | alone and without faults, load, commands, save succeeds iff the newest snapshot is not at the head; what is stored, what reloads, and that the next save can succeed iff the version is not divisible by 10 |
| SaveProgress.ReachableLoadCommandSave | packages/shared/src/event-sourcing/aggregate.ts:96-157 | the same in every store that any run of concurrent writers can leave |
| SaveProgress.TenEventsStrand | packages/shared/src/event-sourcing/aggregate.ts:148-156 | a new account brought by any commands to a version divisible by 10 and saved is in the failing case |
| SaveProgress.DepositsStrand | packages/shared/src/event-sourcing/aggregate.ts:148-156 | so is an account that was opened and given nine deposits, or nineteen |
| SaveProgress.SaveIsARun | packages/shared/src/event-sourcing/aggregate.ts:123-157 | `save` as one call is an uninterrupted run of the machine |
| SaveProgress.LoadIsARun | packages/shared/src/event-sourcing/aggregate.ts:96-121 | so is `load` |
| SaveProgress.SaveConflicts | packages/shared/src/event-sourcing/aggregate.ts:132-146 | an object that is not at the head of its stream: its save throws and leaves store and object as they were, whatever the database does |
| SaveOutcomes.SaveMeans | packages/shared/src/event-sourcing/aggregate.ts:123-157 | for every object in every reachable world and any way its calls end: exactly when a save throws (behind the head, at the first append that fails, or at its snapshot), which events and which snapshot it has stored by then, and what the object still holds |
| SaveOutcomes.AppendAllMeans | packages/shared/src/event-sourcing/aggregate.ts:132-143 | the append loop from any event on stores what lands before the first fault, in order, and throws exactly at a fault |
| StrandedAccounts.StuckForGood | packages/shared/src/event-sourcing/aggregate.ts:96-157 | with the newest snapshot at the head and everybody at work on the account behind it, the account's stream never grows in any later run |
| StrandedAccounts.NobodySavesAgain | packages/shared/src/event-sourcing/aggregate.ts:96-121 | wherever the newest snapshot is at the head, no object loaded or opened from then on ever stores an event of the account |
| StrandedAccounts.SavedAtTenIsTheEnd | packages/shared/src/event-sourcing/aggregate.ts:123-157 | so the events saved at a version divisible by 10 are the account's last, whatever is loaded and saved afterwards |
| AppendRaces.VersionsAreContiguous | packages/shared/src/event-sourcing/event-store.repository.ts:40-112 | with appends and batches racing inside transactions, versions are exactly 1..n |
| AppendRaces.BatchIsAllOrNothing | packages/shared/src/event-sourcing/event-store.repository.ts:91-112 | a batch appears at its commit or not at all, its events for an aggregate at consecutive next versions in order |
| AppendRaces.BatchIsARun | packages/shared/src/event-sourcing/event-store.repository.ts:91-112 | `appendBatch` as one call is an uninterrupted run when no other transaction is open |
| Ledger.ApplyMeans | packages/customer-service/src/subscribers/index.ts:11-104 | a delivery does nothing, only marks, or changes exactly its order's two balances; a failed one throws and changes nothing |
| Ledger.ApplyKeeps | packages/customer-service/src/subscribers/index.ts:19-103 | any delivery keeps conservation, non-negativity, the chain of balance rows, one effect per event |
| Ledger.EntryKeeps | packages/customer-service/src/subscribers/index.ts:24-36 | one balance change with its row keeps the chain and moves the total by the signed amount |
| Ledger.LedgerService.Update | packages/customer-service/src/repositories/index.ts:96-116 | the guarded UPDATE: the row changed and returned, or the table as it was |
| Ledger.LedgerService.HandleCompleted | packages/customer-service/src/subscribers/index.ts:11-104 | the handler working in place with ROLLBACK leaves the tables and the error that `Apply` says |
| Ledger.CreateAccountMeans | packages/customer-service/src/services/customer.service.ts:76-114 | exactly when an account is opened, when the client is missing, and when an error leaves the account unannounced; a new account is empty and active, announced exactly if the caller is told its id |
| Ledger.LedgerService.OpenAccount | packages/customer-service/src/services/customer.service.ts:76-114 | tables and result under any faults; the account row stays when its announcement fails |
| Transactions.RequestMeans | packages/transaction-service/src/services/transaction.service.ts:29-78 | which of the five answers a request gets, exactly when; the whole tables it leaves: accepted, one pending row under its key and one announcement of it; failing after the insert, the bare row; else nothing |
| Transactions.TransactionTables.UpdateStatus | packages/transaction-service/src/repositories/index.ts:71-82 | commits on its own; the updated row or none |
| Transactions.TransactionTables.CreateTransaction | packages/transaction-service/src/repositories/index.ts:26-43 | commits on its own; refused when the key is taken or the amount is not positive |
| Transactions.TransactionTables.FindByIdempotencyKey | packages/transaction-service/src/repositories/index.ts:53-59 | found exactly if some row has the key |
| Transactions.TransactionTables.UpsertProjection | packages/transaction-service/src/repositories/index.ts:118-125 | the account's projected balance is the value, all others stay |
| Transactions.TransactionTables.MarkProcessed | packages/transaction-service/src/repositories/index.ts:101-107 | the event is marked, nothing else changes |
| Transactions.TransactionService.RequestTransaction | packages/transaction-service/src/services/transaction.service.ts:29-78 | the method's tables and result under any faults are those of `Request` |
| Saga.FinishMeans | packages/transaction-service/src/saga/transaction.saga.ts:42-134 | from any stage under any faults: returned means exactly one outcome row, the mark, and the status it says; thrown means none of them (which outcome: `Saga.HandleMeans`) |
| Saga.StepMeans | packages/transaction-service/src/saga/transaction.saga.ts:42-134 | one call changes its own transaction's status, or commits one outcome row with the mark, which ends the handler, or nothing; an outcome is only committed right after its status was set; a failed read leads to the catch block |
| Saga.HandleDecides | packages/transaction-service/src/saga/transaction.saga.ts:42-97 | without faults: completed iff the accounts are projected and the source shows enough, else rejected |
| Saga.HandleMeans | packages/transaction-service/src/saga/transaction.saga.ts:33-134 | whichever calls fail: completed iff every read the order needs came back and shows it good and both calls after that go through; rejected at once iff a read shows it bad, from the catch block on any failure, if those calls go through; else it throws; the whole tables in each case, the status left behind included |
| Saga.FinishReads | packages/transaction-service/src/saga/transaction.saga.ts:43-66 | what the reads lead to: completing if they show the order good, a rejection in the try block if they show it bad, the catch block if one of them fails first |
| Saga.SagaService.HandleRequested | packages/transaction-service/src/saga/transaction.saga.ts:33-102 | the try and catch blocks over the tables in place do what the stages do |
| Saga.SagaService.TryProcess | packages/transaction-service/src/saga/transaction.saga.ts:42-97 | the try block either finishes or leaves exactly the catch block to do |
| Saga.SagaService.RejectTransaction | packages/transaction-service/src/saga/transaction.saga.ts:106-134 | the rejection and, in the try block, its second attempt |
| Projections.CreatedMeans | packages/transaction-service/src/subscribers/index.ts:29-78 | whichever calls fail, the whole tables and error of a delivery: the account shown with 0, and one pending deposit of exactly the initial balance to it under its own key, announced with the same terms |
| Projections.UpdatedMeans | packages/transaction-service/src/subscribers/index.ts:84-90 | whichever calls fail, the whole tables and error of a delivery of a new balance |
| Projections.InitialDepositSettled | packages/transaction-service/src/subscribers/index.ts:29-78 | the delivery that marks the event settles whether the initial deposit exists, and exactly when it does |
| Projections.UpdateIsIdempotent | packages/transaction-service/src/subscribers/index.ts:84-90 | redelivered balance updates write one value, and nothing once marked |
| Projections.ProjectionService.HandleCreated | packages/transaction-service/src/subscribers/index.ts:29-78 | the handler over the tables in place equals its function |
| Projections.ProjectionService.HandleUpdated | packages/transaction-service/src/subscribers/index.ts:84-90 | the handler over the tables in place equals its function |
| ProtocolKeeps.RunKeeps | packages/transaction-service/src/saga/transaction.saga.ts:33-134 | in every run each outbox row, event, handler, call, effect and projection write has its one counterpart, and the ledger is conserved and chained |
| ProtocolTheorems.ConcludedExactlyOnce | packages/transaction-service/src/saga/transaction.saga.ts:68-101 | a request event is marked exactly when one outcome row is committed for it, never two, with its own transaction and terms |
| ProtocolTheorems.OneRequestRow | packages/transaction-service/src/services/transaction.service.ts:43-70 | at most one request row per transaction, with the row's terms |
| ProtocolTheorems.OneTransactionPerKey | packages/transaction-service/src/models/database.ts:23 | at most one transaction per idempotency key, so at most one initial deposit per account |
| ProtocolTheorems.RunHolds | packages/transaction-service/src/saga/transaction.saga.ts:72-90 | in every run in which a transaction's own request row is published at most once, its status agrees with its outcome row, whatever happens to all other rows |
| MoneySafety.OutcomesAreFinal | packages/transaction-service/src/saga/transaction.saga.ts:68-134 | under the same condition a committed outcome is its transaction's only one and its status in every later world |
| MoneySafety.BalanceIsItsEffects | packages/customer-service/src/subscribers/index.ts:19-93 | a balance is exactly the sum of the recorded effects on the account |
| MoneySafety.MoneyIsConserved | packages/customer-service/src/subscribers/index.ts:19-103 | all balances together are applied deposits less withdrawals, none negative, each event applied once |
| MoneySafety.OnlyCompletedOnce | packages/customer-service/src/subscribers/index.ts:11-104 | what changed balances is a transaction with the same terms; completed, if its request row was published at most once; and only this once, if its completion row was too |
| MoneySafety.OthersMoveNothing | packages/customer-service/src/subscribers/index.ts:11-104 | a rejected or pending transaction whose request row was published at most once has moved no money |
| Deliveries.CompletedAccountsExist | packages/transaction-service/src/saga/transaction.saga.ts:42-70 | in every run a completed order has valid terms and names accounts that are in the ledger |
| Deliveries.AppliedRows | packages/customer-service/src/subscribers/index.ts:23-96 | exactly the balance rows a delivery adds: none without an effect, else one per account of the order, the source first, from the old balance to the new |
| Deliveries.AppliedWhen | packages/customer-service/src/subscribers/index.ts:23-96 | exactly when a delivery is applied, marked without effect, or throws |
| Deliveries.DeliveredWhen | packages/customer-service/src/subscribers/index.ts:23-96 | in every run without a deactivation: applied iff the source holds the amount; short, a withdrawal is marked without effect and a transfer throws |
| Deliveries.MarkedMeansApplied | packages/customer-service/src/subscribers/index.ts:23-103 | so every marked deposit or transfer has its effect; only withdrawals are marked without one |
| Deliveries.NeverApplied | packages/customer-service/src/subscribers/index.ts:11-17 | a transaction marked without effect has none in any later run in which its own rows are not published again |
| ProjectionSafety.AnnouncedOnce | packages/customer-service/src/services/customer.service.ts:93-104 | at most one `AccountCreated` row per account, and the account exists |
| ProjectionSafety.BalanceRowsChain | packages/customer-service/src/subscribers/index.ts:26-87 | balance rows chain per account and end at the balance |
| ProjectionSafety.RowWasBalance | packages/customer-service/src/subscribers/index.ts:26-87 | at some moment of the run the account of a balance row was there with the balance the row says |
| ProjectionSafety.ProjectionIsAPastBalance | packages/transaction-service/src/subscribers/index.ts:29-90 | at some moment of the run the projected account was there with exactly the balance the projection shows |
| ProjectionSafety.ProjectionInSync | packages/transaction-service/src/subscribers/index.ts:29-90 | delivered in order after creation and completely, the projection is the ledger's balance |
| Judgements.CompletedWasSeenGood | packages/transaction-service/src/saga/transaction.saga.ts:42-90 | in every run, behind each completed row: in the one delivery that committed it, with no crash between, the saga had read the source's projected balance and found the amount, and had found the target, as far as the order has them |
| Judgements.CompletedWasOnceCovered | packages/transaction-service/src/saga/transaction.saga.ts:50-58 | so the source of a completed withdrawal or transfer had the amount in the ledger at some moment of the run |
| Judgements.SagaIsInformed | packages/transaction-service/src/saga/transaction.saga.ts:42-72 | whatever happened before, a saga that has come to a stage has made the reads before it and found the order good |
| Republished.PublishedAgainAppliedAgain | packages/shared/src/adapters/kafka-event-bus.ts:72-101 | any completed row, published once more and still covered, is applied once more |
| Republished.AppliedTwiceMore | packages/shared/src/adapters/kafka-event-bus.ts:72-101 | in any reachable world, covered twice, twice more without any fault, the request row published no more often |
| Republished.RequestedAgainAppliedAgain | packages/shared/src/adapters/kafka-event-bus.ts:72-101 | in any reachable world a transaction with an outcome, good by the projection and covered, is applied once more without any fault when its request row is published again, no completion row published twice |
| Republished.RejectedAfterAll | packages/transaction-service/src/saga/transaction.saga.ts:99-134 | in any reachable world a transaction with any outcome gets a rejection as well, and that status, when its request row is published again and one call of its saga fails |
| WholeTransactions.Completes | packages/transaction-service/src/saga/transaction.saga.ts:33-97 | from any reachable world a valid request good by the projection goes through with no fault and no row published twice: exactly the rows, status and events it leaves |
| Overdrafts.SecondWithdrawalUnapplied | packages/transaction-service/src/saga/transaction.saga.ts:45-58 | whenever the projection shows an amount the balance does not hold twice, two withdrawals of it are completed with no fault and no row published twice; the first is applied iff the balance held it, the second is not |
| Overdrafts.UnappliedForGood | packages/customer-service/src/subscribers/index.ts:11-17 | and it has no effect in any later run either |
| ProtocolWitnesses.AppliedTwiceInARun | packages/shared/src/adapters/kafka-event-bus.ts:72-101 | a run from the start, without faults, in which one deposit is applied twice |
| ProtocolWitnesses.RejectedYetAppliedInARun | packages/transaction-service/src/saga/transaction.saga.ts:99-134 | a run from the start that ends with a rejected transaction whose money has moved |
| ProtocolWitnesses.CompletedNeverAppliedInARun | packages/customer-service/src/subscribers/index.ts:95-96 | a run from the start, no fault, no deactivation and no row published twice, with two completed withdrawals from an active account of which the first is applied and the second never, in it or later |
| Publishing.PublishedOnce | packages/shared/src/outbox/outbox.poller.ts:75-99 | where the transaction rows were published by a poller without faults, no row of any transaction was published twice |
| Publishing.AppliedOnceWithoutFaults | packages/shared/src/outbox/outbox.poller.ts:75-99 | so there, whatever else fails, only completed transactions change balances, each once |
| ProtocolRuns.HandleIsARun | packages/transaction-service/src/saga/transaction.saga.ts:33-102 | the saga's handler in one call is an uninterrupted run |
| ProtocolRuns.CreatedIsARun | packages/transaction-service/src/subscribers/index.ts:29-78 | so is the handler of a new account with its initial deposit |
| ProtocolRuns.UpdateIsARun | packages/transaction-service/src/subscribers/index.ts:84-90 | so is the handler of a balance update |
| ProtocolRuns.OpeningIsARun | packages/customer-service/src/services/customer.service.ts:76-114 | so is opening an account |
| ProtocolRuns.RequestIsARun | packages/transaction-service/src/services/transaction.service.ts:29-78 | so is a client's request |
| Outbox.FirstPendingIsTheQuery | packages/shared/src/outbox/outbox.repository.ts:47-59 | the batch is the oldest pending rows in order, as many as allowed |
| Outbox.UpdatesOneRow | packages/shared/src/outbox/outbox.repository.ts:61-75 | marking and recording a failure change exactly the row with the id |
| Outbox.DeleteMeans | packages/shared/src/outbox/outbox.repository.ts:77-85 | the clean-up deletes exactly the rows published more than 24 hours ago |
| Outbox.MessageCalls | packages/shared/src/outbox/outbox.poller.ts:86-118 | what the calls for one message come to, however they end: sent, marked, or recorded as failed, and whether the cycle goes on |
| Outbox.CycleCalls | packages/shared/src/outbox/outbox.poller.ts:73-129 | how a cycle begins and ends: nothing at all if nothing is pending or the read fails; the clean-up after the last message |
| Outbox.PollCleans | packages/shared/src/outbox/outbox.poller.ts:86-123 | a cycle that finds something leaves no row published more than 24 hours ago, whatever became of its messages, if failures could be recorded and the clean-up went through |
| Outbox.PollTakesTheOldest | packages/shared/src/outbox/outbox.poller.ts:73-129 | a fault-free cycle publishes the oldest 50 in order and exactly those stop being pending |
| Outbox.OutboxDrains | packages/shared/src/outbox/outbox.poller.ts:73-129 | without faults n pending rows are published once each, in order, in ceil(n/50) cycles |
| Outbox.OutboxPoller.Cycle | packages/shared/src/outbox/outbox.poller.ts:78-123 | the loop over the batch, under any faults, does what the single calls do |
| Outbox.OutboxPoller.PollOnce | packages/shared/src/outbox/outbox.poller.ts:73-129 | the guard: nothing while a cycle runs, else one cycle, and it is released |
| Outbox.OutboxPoller.Start | packages/shared/src/outbox/outbox.poller.ts:19-36 | one first cycle, unless the poller was running |
| OutboxRuns.NothingIsLost | packages/shared/src/outbox/outbox.poller.ts:73-129 | in every run a row is pending or was published; only published rows are marked or deleted; cycles never overlap |
| OutboxRuns.SentOnceWithoutFaults | packages/shared/src/outbox/outbox.poller.ts:75-99 | without faults no row is published twice under any interleaving |
| OutboxRuns.TableStaysInOrder | packages/shared/src/outbox/outbox.repository.ts:23-85 | the table stays in created_at order with distinct ids in every run |
| OutboxRuns.DrainsFromAnywhere | packages/shared/src/outbox/outbox.poller.ts:73-129 | draining from any table a faulty run can leave |
| OutboxRetention.KeptForADay | packages/shared/src/outbox/outbox.repository.ts:77-85 | in every run a published row is still there, marked no earlier than it was, as long as no more than 24 hours have passed |
| FailingRows.FiftyStopTheOutbox | packages/shared/src/outbox/outbox.poller.ts:105-116 | from any reachable table: while 50 pending rows keep failing, a row behind them or arriving after them is not sent in any later run, and stays pending |
| FailingRows.FewerOnlySlowItDown | packages/shared/src/outbox/outbox.poller.ts:73-129 | from any reachable table: with f < 50 rows failing for good, the n others are out within ceil(n / (50 - f)) cycles |
| OutboxRuns.PollIsARun | packages/shared/src/outbox/outbox.poller.ts:73-129 | one call of `poll` is an uninterrupted run |
| DeadLetters.RetriesAreExhaustedOnTime | packages/shared/src/dlq/dlq.handler.ts:23-60 | of an event's failures in a row the first maxRetries - 1 are rethrown and the next absorbed, round and round, also with failing statements and restarts; counters stay in 1..maxRetries - 1 |
| DeadLetters.OneRowPerEvent | packages/shared/src/dlq/dlq.handler.ts:62-90 | at most one row per event, there iff a failure was written, under the service's own name; its count is maxRetries (1 where that is 0), later failures written and failed retries added up |
| DeadLetters.AbsorbedAreWritten | packages/shared/src/dlq/dlq.handler.ts:62-90 | absorbed failures are written at most once each, and all of them unless a statement of `moveToDLQ` failed |
| DeadLetters.WrittenIsRetryable | packages/shared/src/dlq/dlq.handler.ts:68-86 | a failure just written opens a failed row if its event had none, else the row keeps its status |
| DeadLetters.SettledIsNotRetried | packages/shared/src/dlq/dlq.handler.ts:92-107 | in any later run, unless it is reopened by hand, a row that is not failed any more stays so and a retry of it changes nothing |
| DeadLetters.Find | packages/shared/src/dlq/dlq.repository.ts:148-154 | a row of the event, or none exactly if there is none |
| DeadLetters.Increment | packages/shared/src/dlq/dlq.repository.ts:114-126 | exactly the event's rows count one failure more |
| DeadLetterHandler.RetriedAllMeans | packages/shared/src/dlq/dlq.handler.ts:147-154 | retrying different failed events gives each row its own outcome once |
| DeadLetterHandler.WrapIsARun | packages/shared/src/dlq/dlq.handler.ts:26-59 | a delivery in one call is an uninterrupted run |
| DeadLetterHandler.RetryIsARun | packages/shared/src/dlq/dlq.handler.ts:92-136 | so is one retry |
| DeadLetterHandler.RetryTells | packages/shared/src/dlq/dlq.handler.ts:92-136 | however its calls end: a retry succeeds iff the event has a failed row, the handler returns and the row is set to resolved; what else goes wrong is counted on the row; it throws iff that fails |
| DeadLetterHandler.BatchStops | packages/shared/src/dlq/dlq.handler.ts:138-161 | however retries end, a batch is one retry after another up to the first that throws, and counts the successes |
| DeadLetterHandler.BatchMeans | packages/shared/src/dlq/dlq.handler.ts:138-161 | without a failing statement a batch retries each of its rows once, with its own outcome, and counts the successes |
| DeadLetterHandler.NewestMeans | packages/shared/src/dlq/dlq.repository.ts:179-189 | a batch is the service's failed rows, newest first, at most the limit; none is left out but, when it is full, older ones |
| DeadLetterHandler.DLQHandler.Deliver | packages/shared/src/dlq/dlq.handler.ts:23-60 | counters, table and error of one delivery, under any faults |
| DeadLetterHandler.DLQHandler.MoveToDLQ | packages/shared/src/dlq/dlq.handler.ts:62-90 | the event's row counts one more, or is added as failed with maxRetries failures (1 where that is 0) for this service; if a statement fails, nothing |
| DeadLetterHandler.DLQHandler.RetryFromDLQ | packages/shared/src/dlq/dlq.handler.ts:92-136 | table and result of one retry; a failing lookup or update is counted as a failed retry, an error in the catch block is thrown |
| DeadLetterHandler.DLQHandler.RetryBatch | packages/shared/src/dlq/dlq.handler.ts:138-161 | the loop's table, its two counters, which add up to the batch, and that a retry that throws ends it |
| SlidingWindow.LiveIsRecent | packages/shared/src/cache/cache-service.ts:129-139 | the pruned, expiring set is exactly the distinct milliseconds of the full history in the window |
| SlidingWindow.CountIsHistory | packages/shared/src/cache/cache-service.ts:141-152 | so every verdict is the one the full history gives |
| SlidingWindow.AtMostMaxPerWindow | packages/shared/src/cache/cache-service.ts:122-152 | no window holds more than maxRequests distinct milliseconds with an allowed request |
| SlidingWindow.AtMostMaxRequests | packages/shared/src/cache/cache-service.ts:122-152 | with no two requests in one millisecond no window holds more than maxRequests allowed requests |
| SlidingWindow.OneMillisecondIsUnlimited | packages/shared/src/cache/cache-service.ts:138 | but any number of requests in one millisecond is allowed if two are |
| SlidingWindow.BucketIsOwn | packages/shared/src/cache/cache-service.ts:129-142 | after any calls over any keys, each key's stored set is what its own calls have made of it |
| SlidingWindow.AnswerIsHistory | packages/shared/src/cache/cache-service.ts:122-157 | in any sequence of calls over any keys: a call that goes through is allowed iff fewer than its limit of distinct milliseconds of its own key's earlier calls lie in its window, and told how many are left; one that fails is let through; other keys are untouched |
| SlidingWindow.CacheService.CheckRateLimit | packages/shared/src/cache/cache-service.ts:122-157 | the stored map and the answer are those of `Serve`, the function `AnswerIsHistory` is about; the key holds this call and expires with the window |
| LlmLimiter.GrantedWhen | packages/ai-service/src/providers/llm.provider.ts:37-59 | in every run a look is granted iff fewer than maxConcurrent grants are outstanding and the last one is at least minIntervalMs ago; a release gives one back |
| LlmLimiter.LimitsHold | packages/ai-service/src/providers/llm.provider.ts:37-59 | outstanding grants never exceed the limit, successive grants are far enough apart |
| LlmLimiter.GrantsPerWindow | packages/ai-service/src/providers/llm.provider.ts:37-53 | at most floor(L / minInterval) + 1 grants in any window of length L |
| LlmLimiter.LLMRateLimiter.Acquire | packages/ai-service/src/providers/llm.provider.ts:39-50 | one look at the clock: granted iff a call is free and the interval is over; then counted and timed, else nothing changes |
| LlmLimiter.LLMRateLimiter.ReleaseOne | packages/ai-service/src/providers/llm.provider.ts:55-59 | one call less, never below none; the interval is untouched |
| LlmLimiter.CountSpans | packages/ai-service/src/providers/llm.provider.ts:40-45 | c grants in a window span c - 1 gaps |

## Left out

- Replay covers balance and status only; dates, client id, currency and the like are not restored by `when` in the source either.
- Event, transaction and account ids are opaque unique tokens, named by position where that is enough; the aggregate's own event ids are not of the UUID form its table declares, which the model does not look at.
- `save` with an external client: its snapshot goes through the pool and can outlive a rollback.
- One object is saved by one call at a time; commands may be issued while a save waits.
- The commit result of a database transaction is known to its caller; a commit whose acknowledgement is lost is not modelled.
- A delivery to the ledger is one step: its processed check reads only its own event, which is handled serially, and everything after it is one transaction.
- Kafka is a log that redelivers at will; partitions, keys and consumer groups beyond one handler per event are left out, and so is deserialisation.
- `validateAccounts` over HTTP is a free choice of its caller.
- Several pollers or service instances on one database; LISTEN/NOTIFY and timers, which are a trigger at any time.
- `cleanup` of the dead letter table, a failing read of a batch of retries, and `KafkaDLQHandler`.
- Outbox.OutboxPoller.Start: does not model the interval, the listener and their release; in `OutboxRuns` they are a trigger at any time.
- Rows of `appendBatch` are stamped at their insert in `AppendRaces`, where `NOW()` is the time of `BEGIN`; no theorem there speaks of stamps.
- A window that changes between calls for one key, and a clock that goes back; the history in these theorems is that of the calls that reach Redis.
- The limiter's `queue`, which nothing ever fills, and a `release` that was never granted, other than that the counter stays at zero.
- Floating-point money, JSON, string formats of keys, currencies, descriptions and reasons.
- HTTP controllers, gateways, GraphQL, JWT and roles, health checks, metrics, the Prisma repositories, prompts and mock texts: they keep no state that these properties depend on.
