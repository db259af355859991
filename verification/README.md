# OpenSleigh, modelled and proved in Dafny

OpenSleigh runs sagas: a message is delivered, the saga instance it is for is found or created,
checked, locked, checked again, its handler runs, the message is recorded as processed, the
outgoing messages go to an outbox, and the lock is released. Any number of workers interleave
these steps. This project models that protocol, its SQL variant with expiring locks, the message
pipeline around it, the RabbitMQ topology and retry routing, the paged query and two sample
workloads, and proves what they guarantee.

`dafny verify dfyconfig.toml` checks everything.

## What is modelled

**In-memory saga protocol.** `SagaProtocol` is a transition system: one action is one thing the
runtime does atomically (a dictionary access, a field write, one critical section of the
repository). Instances are shared, as `FindAsync` returns a reference. `ProtocolInvariant` holds
the inductive invariant, `ProtocolTheorems` what holds in every reachable state,
`ProtocolRuns` what compares different moments of a run, `ProtocolCompletion` what the checks and the lock of an instance
decide and that a completed instance takes no further message, `ProtocolKeys` exactly when a saga key
repeats a message or changes its instance, `ProtocolOutput` the fate of outgoing
messages with fresh ids, `ProtocolLosses` the exact conditions under which a run loses an outgoing
message or a lock whatever ids are reused, `ProtocolExamples` concrete runs in which the guarantees
end. `SagaRuntime` and
`InMemoryOutbox` have the classes of the program, with contracts; the critical sections of the
repository (`LockTables`) are shared by both.

**SQL saga repository.** `SqlProtocol` is a transition system of sessions with private copies, a
table whose `LockId` is a concurrency token, unique indexes, fresh lock ids and a clock that never
goes back. `SqlInvariant`, `SqlTheorems` (isolation, fencing, expiry) and `SqlHistory` (serial
histories) prove its properties, `SqlSessions` which saga a session works for, `SqlForeignLocks` what becomes of a session that locked another
instance's row, `SqlExamples` has a lost update and such a foreign lock, and `SqlRuntime` the
repository class over tracked entities, tied to the protocol's reads and writes.

**Pipeline and RabbitMQ.** `Pipeline` has the relay, the batch reader and the subscriber as
classes; `PipelineProtocol` is their concurrent system, `PipelineLosses` exactly which steps of it lose
a message. `TopologyProtocol` is the double-checked
topology creation with its deletion, `TopologyTheorems` when it excludes. `QueueNames` has the names
and topic matching (section 3.1.3.3 of AMQP 0-9-1), `RabbitTopology` the declarations and which
topologies can be declared on one broker, `RabbitRouting` where messages go; `RabbitSubscriber` is
the consumer. A broker refuses to declare a queue that exists with other arguments (RabbitMQ's queue
argument equivalence).

**Keys, paging, samples.** `SagaKeys`, `Paging`, `StepsWorkload`, `OrderWorkload`; `WorkloadRuns` ties the
two workloads to the runs of the saga protocol.

Instance ids, message ids and lock ids are naturals: the runtime compares them for equality only.
Where they must be fresh, a guard says so. Whatever a class does not decide (GUIDs, the clock, what
a handler does, failures of other components, what other workers do in between) is a parameter.

## Where the code differs from what one would expect

- `ReleaseAsync` of the in-memory repository reads the instance's `LockId` twice
  (src/OpenSleigh.InMemory/InMemorySagaStateRepository.cs:52-56) without any protection against
  `LockId = string.Empty` of the previous holder (src/OpenSleigh/SagaInstance.cs:103). The protocol
  models both reads. A holder's own release can throw, and a holder whose id was erased never
  releases after a failure: `ProtocolExamples.LeakedLock`. `ProtocolLosses.LeaksIff` says exactly which
  runs leak; those in which no such late write hits a holder do not: `ProtocolRuns.NoLeaks`.
- Two workers that both found nothing can register two instances for one key one after the other:
  `ProtocolExamples.TwoCreators`. At-most-once is per instance. For a key, a message is committed twice
  exactly where a worker goes on after its re-check although another instance of the key had committed the
  message by then: `ProtocolKeys.RepeatsIff` and `ProtocolKeys.RepeatedIff`. A key changes its instance
  exactly in a grant that finds the key's entry unlocked and naming another instance
  (src/OpenSleigh.InMemory/InMemorySagaStateRepository.cs:36-40): `ProtocolKeys.KeyStableIff`.
- `_processedMessages` is a plain `Dictionary` (src/OpenSleigh/SagaInstance.cs:9) that `CanProcess` reads while a
  holder may be adding to it. The model takes each read and each addition for one atomic step; what the
  dictionary does under such a race is not defined and not modelled.
- `CommitAsync` ignores a `Duplicate` append (src/OpenSleigh/SagaExecutionService.cs:95) and clears
  the instance outbox all the same: `ProtocolExamples.DuplicateLosesOutput`, with the exact condition in
  `ProtocolLosses.CommitAppendsAllIff`.
- `DeleteAsync` of the in-memory outbox removes by id
  (src/OpenSleigh.InMemory/Outbox/InMemoryOutboxRepository.cs:25-32). With a reused id a relay can delete
  a message it never sent: `ProtocolExamples.StaleDeleteLosesOutput`, with the exact condition in
  `ProtocolLosses.DeleteRemovesSentIff`.
- `IOutboxRepository.AppendAsync` promises that a duplicate appends nothing
  (src/OpenSleigh/Outbox/IOutboxRepository.cs:12-16); the in-memory outbox appends what precedes the
  duplicate: `InMemoryOutbox.DuplicateAppendsNothingIff`.
- `ISagaExecutionService.ReleaseAsync` says it does not persist state
  (src/OpenSleigh/ISagaExecutionService.cs:30-32); both repositories store the instance on release.
  A failed handler does not clear the instance outbox.
- The SQL re-check after the lock reads the copy loaded before it
  (src/OpenSleigh/SagaExecutionService.cs:57-67), so a release that commits between `FindAsync` and
  `LockAsync` is overwritten: `SqlExamples.LostUpdate`, with the exact condition in
  `SqlHistory.KeepsMessagesIff`. And two deliveries of one message that both find the row before either locks it
  both commit it: `SqlExamples.CommitsTwice`, with the exact condition in `SqlHistory.RepeatsIff`. The lock query may match another instance's row by correlation id
  (src/OpenSleigh.Persistence.SQL/SqlSagaStateRepository.cs:91); a release writes its own row only, so such
  a session never commits and blocks the row until its lock expires: `SqlExamples.ForeignLock`.
- `DeleteAsync` of a topology removes the semaphore whoever uses it
  (src/OpenSleigh.Transport.RabbitMQ/IChannelExtensions.cs:114-128): `TopologyTheorems.DiscardSafeIff`.
- The dead-letter queue of a client group is the main queue of the group named `dead.` and it
  (src/OpenSleigh.Transport.RabbitMQ/QueueReferenceFactory.cs:38-42), so the two cannot be declared on one
  broker: `RabbitTopology.GroupsCollide`, exactly which can in `RabbitTopology.DeclarableIff`.
- `MessageEnvelope.Create` for an instance computes a correlation id from the message and then uses
  the instance's (src/OpenSleigh/Outbox/MessageEnvelope.cs:113-127); the model uses the instance's.
- The query's offset is unchecked 32-bit arithmetic: `Paging.OverflowRepeats`.

## Model

| member | source | states |
|---|---|---|
| ProtocolInvariant.RunsKeep | src/OpenSleigh/SagaExecutionService.cs:22-102 | in every state of every run of any number of workers and relays: the lock tables agree, every lock belongs to the worker it was granted to, every worker's view of its instance is right for where it is, and no message is committed twice |
| ProtocolInvariant.MutualExclusion | src/OpenSleigh.InMemory/InMemorySagaStateRepository.cs:26-44 | no two workers are between grant and release on one instance |
| ProtocolInvariant.StepEvolves | src/OpenSleigh/SagaInstance.cs:53-62 | no step of anyone takes a recorded message or a completion back, or changes an instance's identity |
| ProtocolTheorems.AtMostOnce | src/OpenSleigh/SagaInstance.cs:33-59 | in every run each (instance, message) pair is committed at most once, and a committed message stays recorded |
| ProtocolTheorems.SetAsProcessedNeverThrows | src/OpenSleigh/SagaInstance.cs:53-59 | whenever a handler has returned, its message is not recorded yet, so recording it succeeds and adds exactly it |
| ProtocolTheorems.OneHolderPerKey | src/OpenSleigh.InMemory/InMemorySagaStateRepository.cs:33-40 | at most one worker holds a lock for one saga key, even when several instances exist for it |
| ProtocolTheorems.TablesAgree | src/OpenSleigh.InMemory/InMemorySagaStateRepository.cs:26-63 | a key's entry carries a lock if and only if one instance of that key carries it in the id table, and the entry names that instance |
| ProtocolTheorems.LockAccounting | src/OpenSleigh/SagaExecutionService.cs:22-75 | a worker that is not between grant and release owns no entry of either table, whichever way it got there |
| ProtocolTheorems.ReleaseFreesIff | src/OpenSleigh.InMemory/InMemorySagaStateRepository.cs:52-59 | a holder's release frees exactly its two entries, if and only if LockId was not erased between its two reads of it; otherwise it throws and changes nothing |
| ProtocolTheorems.CatchLeaksIff | src/OpenSleigh/SagaInstance.cs:105-119 | after a failure a holder never releases if and only if its LockId was erased before the catch block looked |
| ProtocolTheorems.BeginReturnsLocked | src/OpenSleigh/SagaExecutionService.cs:62-74 | in any run the re-check hands out the instance exactly when it is not completed and has not recorded the message, and it is then locked by this worker |
| ProtocolCompletion.CheckDecides | src/OpenSleigh/SagaExecutionService.cs:57-58 | in any run, the check before the lock takes a worker on to the lock if its instance is not completed and has not recorded the message, and otherwise ends its work with a no-op |
| ProtocolCompletion.RecheckDecides | src/OpenSleigh/SagaExecutionService.cs:62-74 | in any run, the check under the lock takes a worker to its handler under the same conditions, and otherwise has it back off |
| ProtocolCompletion.GrantDecides | src/OpenSleigh.InMemory/InMemorySagaStateRepository.cs:26-44 | in any run, a lock is granted, with both entries, if and only if neither the instance nor its key is locked; a locked instance ends the work with LockException, and a key that alone is locked gives one second attempt and no third |
| ProtocolCompletion.CompletesForGood | src/OpenSleigh/SagaInstance.cs:48-51 | MarkAsCompleted completes the instance of the calling handler at every later moment of the run |
| ProtocolCompletion.CompletedTakesNothing | src/OpenSleigh/SagaExecutionService.cs:62-74 | a worker that re-checks an instance at any time after its completion backs off, and never gets to its handler or to a commit |
| ProtocolCompletion.LateCommits | src/OpenSleigh/SagaInstance.cs:33-36 | a commit on a completed instance is by a worker that re-checked before the completion |
| ProtocolCompletion.ThrowsForGood | src/OpenSleigh/SagaInstance.cs:82-122 | in any run, a worker whose handler threw never records or commits its message: it is in the catch block from then on, and ends with that error whatever becomes of the release |
| ProtocolCompletion.OnlyInitiatorsCreate | src/OpenSleigh/SagaExecutionService.cs:104-119 | in any run an instance is created only by a worker that found none and whose message type starts the saga, and for its key |
| ProtocolCompletion.OthersAreRefused | src/OpenSleigh/SagaExecutionService.cs:104-119 | a worker that found nothing is refused with ApplicationException if and only if its message type does not start the saga |
| ProtocolTheorems.RetryNeverCreates | src/OpenSleigh/SagaExecutionService.cs:104-119 | the attempt after an optimistic conflict always finds an instance, for any interleaving |
| ProtocolTheorems.Rejections | src/OpenSleigh/SagaExecutionService.cs:34-49 | what BeginProcessingAsync throws: a missing saga or a lock on the first attempt, and on the second, and only then, an aggregate of the conflict and the second attempt's own lock exception |
| ProtocolTheorems.DeliveryConverges | src/OpenSleigh/Transport/MessageDispatcher.cs:16-35 | when the work for a descriptor has returned normally, its saga has recorded the message or is completed, or the handler failed in that delivery |
| ProtocolRuns.SettledStays | src/OpenSleigh/SagaInstance.cs:33-59 | recorded or completed at one moment of a run means so at its end |
| ProtocolRuns.RedeliveryConverges | src/OpenSleigh/Transport/MessageDispatcher.cs:16-35 | for a delivery to any list of descriptors among any number of concurrent deliveries: from its normal return on, every descriptor's saga is settled, unless its handler raised SagaException in that delivery |
| ProtocolRuns.KeyStability | src/OpenSleigh.InMemory/InMemorySagaStateRepository.cs:13-44 | a key names one and the same instance throughout a run if and only if at most one instance of it was ever granted its lock |
| ProtocolRuns.AtMostOncePerKey | src/OpenSleigh.InMemory/InMemorySagaStateRepository.cs:13-44 | with a single creator, a message is committed at most once per correlation id and saga; exactly when it is committed twice is RepeatedIff |
| ProtocolKeys.RepeatsIff | src/OpenSleigh/SagaExecutionService.cs:62-74 | in any run, a worker about to commit repeats its message for its key if and only if another instance of the key had committed that message when this worker made its re-check; nothing commits for the key in between |
| ProtocolKeys.RepeatedIff | src/OpenSleigh.InMemory/InMemorySagaStateRepository.cs:13-44 | a run commits some message twice for a key if and only if it has a commit whose worker re-checked after another instance of the key had committed the message |
| ProtocolKeys.KeyStableIff | src/OpenSleigh.InMemory/InMemorySagaStateRepository.cs:36-40 | a key names one and the same instance throughout a run if and only if no grant goes to another instance than the one its unlocked entry names |
| ProtocolRuns.NoLeaks | src/OpenSleigh/SagaInstance.cs:99-120 | no worker ever leaks its lock in a run where no late LockId = string.Empty hits a holder |
| ProtocolRuns.NothingLeftLocked | src/OpenSleigh/SagaInstance.cs:82-122 | in such a run nothing is locked in either table once every worker is done, whatever handlers, appends and re-checks did |
| ProtocolOutput.NoOutputLost | src/OpenSleigh/SagaExecutionService.cs:85-102 | with fresh envelope ids, what a committed handler published is pending or relayed at every later moment, for every interleaving with the relays and whichever appends throw |
| ProtocolOutput.CommitDelivers | src/OpenSleigh.InMemory/Outbox/InMemoryOutboxRepository.cs:11-32 | at the release of its commit everything a handler published is pending or relayed, and the instance outbox is empty |
| ProtocolExamples.TwoCreators | src/OpenSleigh.InMemory/InMemorySagaStateRepository.cs:36-40 | a run that commits one message twice for one key, on two instances |
| ProtocolExamples.LeakedLock | src/OpenSleigh/SagaInstance.cs:99-118 | a run in which a late clear makes the next holder leak its lock |
| ProtocolExamples.DuplicateLosesOutput | src/OpenSleigh/SagaExecutionService.cs:93-98 | a run in which a reused id loses the envelope behind it although the commit succeeds |
| ProtocolExamples.StaleDeleteLosesOutput | src/OpenSleigh.InMemory/Outbox/InMemoryOutboxRepository.cs:25-32 | a run in which a relay deletes, unsent, a message that reused the id of the one it sent |
| ProtocolLosses.CommitAppendsAllIff | src/OpenSleigh/SagaExecutionService.cs:93-98 | in any run, whatever ids are reused: a commit that comes to empty the instance outbox has appended all of it if and only if none of its appends met a pending id |
| ProtocolLosses.DeleteRemovesSentIff | src/OpenSleigh/Outbox/OutboxProcessor.cs:44-48 | in any run: a relay's deletion removes only what that relay published if and only if nothing else is pending under that id, and loses nothing if and only if what is pending there has been relayed |
| ProtocolLosses.StaysAccountedIff | src/OpenSleigh.InMemory/Outbox/InMemoryOutboxRepository.cs:11-32 | in any run an envelope stays pending or relayed from one moment to another if and only if no relay deletes it unsent in between |
| ProtocolLosses.StepLosesIff | src/OpenSleigh.InMemory/Outbox/InMemoryOutboxRepository.cs:25-32 | no step of anyone loses a pending or relayed envelope, except a deletion of another one with the same id |
| ProtocolLosses.LeaksIff | src/OpenSleigh/SagaInstance.cs:99-120 | some lock is leaked after a run if and only if in one of its steps a holder's catch block found LockId erased, or it was erased between the two reads of a release outside CommitAsync |
| ProtocolLosses.StepLeaksIff | src/OpenSleigh.InMemory/InMemorySagaStateRepository.cs:52-59 | step by step and worker by worker: a lock is leaked exactly by such a step of its own holder |
| ProtocolExamples.BeginsAlone | src/OpenSleigh/SagaExecutionService.cs:54-75 | an undisturbed worker on a free instance that can process the message gets to its handler, with both entries and LockId set |
| ProtocolExamples.CommitsAlone | src/OpenSleigh/SagaInstance.cs:92-103 | an undisturbed holder whose envelopes have new ids records the message, appends every envelope, empties the instance outbox, frees both entries and commits |
| SagaRuntime.SagaInstance.SetAsProcessed | src/OpenSleigh/SagaInstance.cs:53-59 | throws exactly for a message already recorded, and leaves it recorded either way |
| SagaRuntime.SagaInstance.LockAsync | src/OpenSleigh/SagaInstance.cs:64-70 | LockId becomes the granted id, and stays as it was when the repository throws |
| SagaRuntime.SagaInstance.ProcessAsync | src/OpenSleigh/SagaInstance.cs:82-122 | the exit contract: the error is that of the first failing step whatever the release in the catch block does; a held lock is free and LockId empty on every exit; success and append failure record the message, handler failure does not; the outbox is emptied only by a successful append; on success with new ids every envelope that the handler published is pending |
| SagaRuntime.MessageHandlerManager.ProcessAsync | src/OpenSleigh/MessageHandlerManager.cs:17-47 | a handler failure becomes a SagaException around it, unless the rollback throws, which replaces it; an envelope is added to the instance outbox if and only if the handler published it, and a completion stays |
| SagaRuntime.PublishedIff | src/OpenSleigh/SagaInstance.cs:72-77 | what a handler adds to the instance outbox is exactly what it published |
| SagaRuntime.PublishedOfBoth | src/OpenSleigh/SagaInstance.cs:72-77 | and in that order, with PublishedOfOne: what two stretches of a handler publish is added one after the other |
| SagaRuntime.InMemorySagaStateRepository.FindAsync | src/OpenSleigh.InMemory/InMemorySagaStateRepository.cs:13-24 | the very instance that the key's entry refers to, or null |
| SagaRuntime.InMemorySagaStateRepository.LockAsync | src/OpenSleigh.InMemory/InMemorySagaStateRepository.cs:26-44 | both dictionaries together take the protocol's lock step: both entries or an exception and neither |
| SagaRuntime.InMemorySagaStateRepository.ReleaseAsync | src/OpenSleigh.InMemory/InMemorySagaStateRepository.cs:46-63 | both dictionaries take the protocol's release step; another's lock is never released |
| SagaRuntime.SagaExecutionService.ResolveInstanceAsync | src/OpenSleigh/SagaExecutionService.cs:104-119 | the stored instance, a new one for an initiator, or ApplicationException |
| SagaRuntime.SagaExecutionService.BeginProcessingCore | src/OpenSleigh/SagaExecutionService.cs:54-75 | one attempt, case by case, with other workers acting between check and lock |
| SagaRuntime.SagaExecutionService.BeginProcessingAsync | src/OpenSleigh/SagaExecutionService.cs:22-52 | across both attempts: an instance locked by this call that can still process the message, or no lock of this call in the tables; a no-op only if the message's instance is completed or has recorded it; a retry happens exactly on a conflict, never creates an instance, and fails with exactly both exceptions |
| SagaRuntime.SagaExecutionService.CommitAsync | src/OpenSleigh/SagaExecutionService.cs:85-102 | the outbox grows by the longest new prefix, the instance outbox is emptied and the lock released; a failing append changes nothing; everything the instance outbox held is pending afterwards if and only if each envelope behind that prefix already was, or repeats one of the prefix |
| SagaRuntime.AttemptAccounts | src/OpenSleigh/SagaExecutionService.cs:54-75 | from the lock on, only an attempt that hands out the instance leaves its lock in the tables, and an optimistic conflict arises exactly when the key but not the instance is locked |
| SagaRuntime.SagaRunner.ProcessAsync | src/OpenSleigh/SagaRunner.cs:22-45 | however a run ends, neither of its lock ids is left in the tables; a run that got its lock fails only by its handler or the outbox; a normal end means that the message's instance is completed or has it recorded |
| SagaRuntime.MessageDispatcher.DispatchAsync | src/OpenSleigh/Transport/MessageDispatcher.cs:16-35 | one run per descriptor in order; the delivery ends normally only if no run raised anything but SagaException, and else with the first other exception, at once; at the end the saga of every run that raised nothing is completed or has the message recorded |
| InMemoryOutbox.NewPrefix | src/OpenSleigh.InMemory/Outbox/InMemoryOutboxRepository.cs:15-17 | the longest prefix of a batch whose ids are new and do not repeat |
| InMemoryOutbox.InMemoryOutboxRepository.AppendAsync | src/OpenSleigh.InMemory/Outbox/InMemoryOutboxRepository.cs:11-20 | for any batch, the outbox grows by exactly that prefix, and the result is Success if and only if it is the whole batch |
| InMemoryOutbox.InMemoryOutboxRepository.ReadPendingAsync | src/OpenSleigh.InMemory/Outbox/InMemoryOutboxRepository.cs:22-23 | exactly the pending messages, and as many as are pending |
| InMemoryOutbox.AddedIs | src/OpenSleigh.InMemory/Outbox/InMemoryOutboxRepository.cs:11-20 | appending new ids keeps everything pending and adds exactly the new messages |
| InMemoryOutbox.AppendKeepsAllIff | src/OpenSleigh.InMemory/Outbox/InMemoryOutboxRepository.cs:11-20 | for any batch, all of it is pending after the append if and only if each message behind the new prefix was pending itself or is also in the prefix |
| InMemoryOutbox.DuplicateAppendsNothingIff | src/OpenSleigh/Outbox/IOutboxRepository.cs:12-20 | a duplicate batch appends nothing if and only if its first message is already pending |
| InMemoryOutbox.DuplicateAppendsPrefix | src/OpenSleigh/Outbox/IOutboxRepository.cs:12-20 | a batch for which the interface's promise fails |
| SqlInvariant.RunsKeep | src/OpenSleigh.Persistence.SQL/SqlSagaStateRepository.cs:86-204 | the invariant of rows, locks, sessions, indexes and history holds in every state of every run |
| SqlTheorems.Isolation | src/OpenSleigh.Persistence.SQL/SqlSagaStateRepository.cs:119-132 | while a row carries a lock at two moments it carries it in between, and its completion flag, messages and state bytes do not change |
| SqlTheorems.Fencing | src/OpenSleigh.Persistence.SQL/SqlSagaStateRepository.cs:165-204 | once a written lock is released or stolen, no release carrying it changes any row, ever |
| SqlTheorems.RunPast | src/OpenSleigh.Persistence.SQL/Entities/SagaState.cs:28-32 | between any two moments of a run a released or stolen lock never comes back, the record of locks is kept, rows keep their keys and the history only grows |
| SqlTheorems.ReleasesOwnRow | src/OpenSleigh.Persistence.SQL/SqlSagaStateRepository.cs:165-204 | a release that commits holds a lock granted to its session on its own instance's row, over what the row held then; it writes the session's messages, its completion flag and, if the saga has a state type, its state bytes, frees the row, and changes no other row |
| SqlTheorems.NullTogether | src/OpenSleigh.Persistence.SQL/SqlSagaStateRepository.cs:119-124 | LockId and LockTime are null together in every reachable row |
| SqlTheorems.ExpiryBound | src/OpenSleigh.Persistence.SQL/SqlSagaStateRepository.cs:113-133 | two grants on one row with no release between them are at least LockMaxDuration apart, so at most one is unexpired |
| SqlHistory.SerialHistory | src/OpenSleigh.Persistence.SQL/SqlSagaStateRepository.cs:32-77 | when no release commits on a row between a session's Find and Lock, every committed release starts from its predecessor and adds at most its own message |
| SqlHistory.NoCommittedMessageLost | src/OpenSleigh.Persistence.SQL/SqlSagaStateRepository.cs:181-192 | in such a run whatever any release persisted is still in its row at the end |
| SqlHistory.ProcessedOnlyGrows | src/OpenSleigh.Persistence.SQL/SqlSagaStateRepository.cs:181-192 | in such a run a row's set of processed messages only grows |
| SqlHistory.SerialAtMostOnce | src/OpenSleigh/SagaExecutionService.cs:57-67 | in such a run no session commits a message that an earlier commit on the row recorded |
| SqlHistory.KeepsMessagesIff | src/OpenSleigh.Persistence.SQL/SqlSagaStateRepository.cs:165-204 | in any run, a release keeps every persisted message if and only if the session's set covers what the row held when it was locked |
| SqlHistory.RepeatsIff | src/OpenSleigh/SagaExecutionService.cs:57-67 | in any run, a release that commits finds its message recorded by an earlier release of the row if and only if the row held it when the session locked it, so that a re-check of the locked row would have refused it, or an earlier release had dropped it |
| SqlHistory.SkipsIff | src/OpenSleigh/SagaExecutionService.cs:57-58 | in any run a delivery is skipped if and only if what it found was completed or had recorded the message |
| SqlSessions.LocksOwnSaga | src/OpenSleigh.Persistence.SQL/SqlSagaStateRepository.cs:86-97 | in any run every lock is on a row of the saga, by correlation id and types, that its session is for |
| SqlSessions.OpensAsFound | src/OpenSleigh/SagaExecutionService.cs:104-119 | a delivery opens the row stored for its saga; where there is none it goes on with a new instance for an initiator, and is refused otherwise |
| SqlSessions.PersistsWork | src/OpenSleigh.Persistence.SQL/SqlSagaStateRepository.cs:165-204 | in any run a release that commits persists what the session's handler left, however long before: its completion flag, the messages that were found and its own if it was recorded, and, for a saga with a state type, its state bytes |
| SqlExamples.CommitsTwice | src/OpenSleigh/SagaExecutionService.cs:57-67 | a run in which two deliveries of one message both find the row, lock it one after the other, and both commit the message |
| SqlForeignLocks.ForeignNeverCommits | src/OpenSleigh.Persistence.SQL/SqlSagaStateRepository.cs:86-204 | in any run, a session that locked a row of another instance never commits a release |
| SqlForeignLocks.ForeignBlocks | src/OpenSleigh.Persistence.SQL/SqlSagaStateRepository.cs:86-133 | and the row stays locked with that lock until a session takes it over at least LockMaxDuration later |
| SqlExamples.ForeignLock | src/OpenSleigh.Persistence.SQL/SqlSagaStateRepository.cs:86-97 | a run in which a session locks its rival's row by correlation id, cannot release it, and the row refuses the next session |
| SqlExamples.LostUpdate | src/OpenSleigh/SagaExecutionService.cs:57-67 | a run in which a stale copy erases a committed message, and its redelivery is processed again |
| SqlRuntime.WriteLockIs | src/OpenSleigh.Persistence.SQL/SqlSagaStateRepository.cs:126-155 | the protocol's lock write is the write that LockAsyncCore is proved against, with its exceptions |
| SqlRuntime.WriteReleaseIs | src/OpenSleigh.Persistence.SQL/SqlSagaStateRepository.cs:178-203 | the protocol's release write is the write that ReleaseAsyncCore is proved against, of what it saves of the session's instance |
| SqlRuntime.PersistedIsSaved | src/OpenSleigh.Persistence.SQL/SqlSagaStateRepository.cs:194-200 | what the protocol's release persists is what ReleaseAsyncCore saves: messages, completion flag, and state bytes for a saga with a state type |
| SqlRuntime.ReadForLockIs | src/OpenSleigh.Persistence.SQL/SqlSagaStateRepository.cs:113-117 | the protocol's read before a lock refuses a row if and only if LockAsyncCore refuses it, for an unexpired lock |
| SqlRuntime.ReadForReleaseIs | src/OpenSleigh.Persistence.SQL/SqlSagaStateRepository.cs:165-180 | the protocol's read before a release matches a row if and only if ReleaseAsyncCore goes on |
| SqlRuntime.SqlSagaStateRepository.LockAsyncCore | src/OpenSleigh.Persistence.SQL/SqlSagaStateRepository.cs:86-156 | for any tables at the read, at the save and at the read after a failed insert: a lock younger than LockMaxDuration refuses and stays, one that is older never does, and one that is taken over is at least LockMaxDuration older than the new one; else the lock write on a row of the saga, found by its id or its correlation id, or its exception and no change; OptimisticLockException exactly when the last read finds another instance of the saga |
| SqlRuntime.SqlSagaStateRepository.ReleaseAsyncCore | src/OpenSleigh.Persistence.SQL/SqlSagaStateRepository.cs:165-204 | a missing row and a foreign lock throw, a lost lock fails the save; a locked row is released only with its own GUID, and then the row alone changes, is free, and holds the instance's content in every column that differs from what was read; that is the protocol's release write when the row is as it was read |
| SqlRuntime.SqlSagaStateRepository.CopyMessages | src/OpenSleigh.Persistence.SQL/SqlSagaStateRepository.cs:183-192 | clearing and refilling leaves exactly the instance's processed messages |
| SqlRuntime.SagaDbContext.Update | src/OpenSleigh.Persistence.SQL/Entities/SagaState.cs:32 | a save goes through exactly when the concurrency token is as it was read, and writes each column that was changed and keeps each that was not |
| SqlRuntime.SagaDbContext.Insert | src/OpenSleigh.Persistence.SQL/Entities/SagaState.cs:28-30 | an insert goes through exactly when neither the primary key nor the unique index is taken |
| Pipeline.ReadMultipleAsync | src/OpenSleigh.InMemory/Messaging/ChannelReaderExtensions.cs:7-20 | a batch is the longest prefix of the channel without null within the limit; a null within the limit is consumed, a negative limit throws |
| Pipeline.OutboxProcessor.ProcessPendingMessagesAsync | src/OpenSleigh/Outbox/OutboxProcessor.cs:26-72 | whichever publications and deletions fail, exactly the others happen, in order; what leaves the outbox is in the channel |
| Pipeline.InMemorySubscriber.ConsumeBatch | src/OpenSleigh.InMemory/Messaging/InMemorySubscriber.cs:46-67 | whatever processing raises, the messages of a turn are finished, back in the channel, or were cancelled, each exactly once: finished are those whose processing returned, written back those that raised anything but a cancellation; the unread part of the channel stays in front |
| Pipeline.InMemorySubscriber.ConsumeMessagesAsync | src/OpenSleigh.InMemory/Messaging/InMemorySubscriber.cs:42-69 | the same count over any number of turns; only what was processed in some turn without an exception is finished; OperationCanceledException is the result exactly when a message was cancelled |
| Pipeline.SentIs | src/OpenSleigh/Outbox/OutboxProcessor.cs:35-45 | a message is written to the channel if and only if it was pending and its publication did not fail |
| PipelineProtocol.KeptIff | src/OpenSleigh/Outbox/OutboxProcessor.cs:35-48 | in any run of relays, a bounded channel and subscribers, and whatever ids are reused: a message stays pending, in the channel, in flight, finished or cancelled if and only if no relay deletes it unsent |
| PipelineProtocol.EndedIff | src/OpenSleigh.InMemory/Messaging/InMemorySubscriber.cs:46-67 | in any run a message is finished if and only if its processing returned at some step, and cancelled if and only if it raised an OperationCanceledException |
| PipelineProtocol.CancellationStops | src/OpenSleigh.InMemory/Messaging/InMemorySubscriber.cs:42-69 | in any run a subscriber reads no batch after processing raised an OperationCanceledException in it |
| PipelineProtocol.BatchesWithin | src/OpenSleigh.InMemory/Messaging/ChannelReaderExtensions.cs:7-20 | in any run a subscriber works on at most as many messages at a time as its batch may have |
| PipelineProtocol.RelaysAll | src/OpenSleigh/Outbox/OutboxProcessor.cs:35-72 | in any run, whatever failed before, a relay publishes or fails to publish every message that was pending when it read, before it reads again |
| PipelineProtocol.Conservation | src/OpenSleigh.InMemory/Messaging/InMemorySubscriber.cs:42-69 | in every run in which relays delete only what they sent, each single message ever appended is pending, in the channel, in flight or finished, unless its processing raised an OperationCanceledException |
| PipelineProtocol.FreshIdsConserve | src/OpenSleigh/Outbox/OutboxProcessor.cs:35-48 | with fresh ids relays delete only what they sent, whatever publications and deletions fail |
| PipelineLosses.StepDropsIff | src/OpenSleigh.InMemory/Messaging/InMemorySubscriber.cs:46-67 | a step leaves a message neither pending, nor in the channel, in flight or finished if and only if it is a relay's deletion of it unsent, or an OperationCanceledException of the last task that has it, with the message nowhere else |
| PipelineLosses.HeldIff | src/OpenSleigh.InMemory/Messaging/InMemorySubscriber.cs:42-69 | in any run, a message stays in one of these places from one moment to another if and only if there is no such step in between |
| PipelineProtocol.Fifo | src/OpenSleigh.InMemory/Messaging/ChannelReaderExtensions.cs:12-19 | what the batches took followed by the channel is everything written, in order, and the channel stays within its bound |
| PipelineProtocol.CancelledIsLost | src/OpenSleigh.InMemory/Messaging/InMemorySubscriber.cs:55 | a run in which cancellation leaves a message nowhere |
| TopologyProtocol.RunsKeep | src/OpenSleigh.Transport.RabbitMQ/IChannelExtensions.cs:11-42 | in every run with any creations and deletions: a caller holds its semaphore exactly while it is inside, and unless the key's semaphore was discarded in use, whoever may still declare uses the key's one semaphore |
| TopologyTheorems.DeclaredOnce | src/OpenSleigh.Transport.RabbitMQ/IChannelExtensions.cs:21-41 | in every run, unless a semaphore of the key was discarded while a caller was using it: at most one caller declares at any time, and at most one declaration completed since the topology was last forgotten, whatever declarations fail |
| TopologyTheorems.ReturnsDeclared | src/OpenSleigh.Transport.RabbitMQ/IChannelExtensions.cs:21-36 | in every run, with any deletions, a caller returns normally only after a completed declaration |
| TopologyTheorems.MissedBefore | src/OpenSleigh.Transport.RabbitMQ/IChannelExtensions.cs:21-27 | in any run, a caller that comes to a semaphore had found the topology not initialized at its first check |
| TopologyTheorems.DiscardSafeIff | src/OpenSleigh.Transport.RabbitMQ/IChannelExtensions.cs:114-128 | DeleteAsync may discard a semaphore, where exclusion still holds, if and only if no caller of that key is waiting, re-checking, declaring or marking; only then do no two callers declare at the same time in any continuation that discards none in use |
| TopologyTheorems.ActiveBreaks | src/OpenSleigh.Transport.RabbitMQ/IChannelExtensions.cs:126-127 | from any run that discards a semaphore in use there is a continuation, without another deletion's discard, in which two callers declare at the same time |
| TopologyTheorems.DeleteBreaks | src/OpenSleigh.Transport.RabbitMQ/IChannelExtensions.cs:114-128 | a run in which DeleteAsync lets two callers declare one topology at the same time |
| QueueNames.DistinctNames | src/OpenSleigh.Transport.RabbitMQ/QueueReferenceFactory.cs:34-44 | the default main, retry and dead-letter names of a dot-free type are pairwise distinct, and none is a name of another type |
| QueueNames.QueueReferenceFactory.Create | src/OpenSleigh.Transport.RabbitMQ/QueueReferenceFactory.cs:24-32 | cached or not, the references of a type are those of the default creator, and they are cached |
| QueueNames.LowerCase | src/OpenSleigh.Transport.RabbitMQ/QueueReferenceFactory.cs:34-44 | names are in lower case, and nothing else of a type's name changes |
| QueueNames.ExactTopic | src/OpenSleigh.Transport.RabbitMQ/IChannelExtensions.cs:107-111 | a binding key without wildcard words takes exactly the routing key that equals it |
| QueueNames.JoinWords | src/OpenSleigh.Transport.RabbitMQ/IChannelExtensions.cs:107-111 | splitting a routing key at its dots loses nothing |
| RabbitTopology.Channel.EnsureTopologyAsync | src/OpenSleigh.Transport.RabbitMQ/IChannelExtensions.cs:11-42 | all nine declarations or an exception: exactly when one of them fails, or a queue exists with other arguments; the key counts as initialized only after all nine |
| RabbitTopology.Channel.EnsureQueuesAsync | src/OpenSleigh.Transport.RabbitMQ/IChannelExtensions.cs:66-112 | the three queues with their dead-letter and time-to-live arguments and their bindings, or an exception |
| RabbitTopology.NothingDangles | src/OpenSleigh.Transport.RabbitMQ/IChannelExtensions.cs:44-112 | on a broker with any topologies, every binding and every dead-letter argument names what is declared, and every exchange is bound |
| RabbitTopology.QueuesApartIff | src/OpenSleigh.Transport.RabbitMQ/QueueReferenceFactory.cs:34-44 | for any type, the queues of two client groups are disjoint if and only if the groups differ and neither is the other with dead. before it |
| RabbitTopology.AgreeIff | src/OpenSleigh.Transport.RabbitMQ/IChannelExtensions.cs:66-112 | two topologies give the queues they share the same arguments if and only if their types differ, their groups are apart, or group and retry delay are the same |
| RabbitTopology.DeclarableIff | src/OpenSleigh.Transport.RabbitMQ/IChannelExtensions.cs:66-112 | on a broker with any topologies, one more can be declared if and only if it is compatible in that sense with each of them |
| RabbitTopology.DeclaresOneMore | src/OpenSleigh.Transport.RabbitMQ/IChannelExtensions.cs:44-112 | declaring a topology compatible with those of any client groups keeps exactly the topologies declared before, arguments included, and adds its own |
| RabbitTopology.DeclaredCompatible | src/OpenSleigh.Transport.RabbitMQ/QueueReferenceFactory.cs:34-44 | topologies declared on one broker are pairwise compatible |
| RabbitTopology.GroupsCollide | src/OpenSleigh.Transport.RabbitMQ/QueueReferenceFactory.cs:38-42 | the dead-letter queue of a group is the main queue of the group named dead. and it, so the two are never compatible |
| RabbitRouting.HeldAfter | src/OpenSleigh.Transport.RabbitMQ/RabbitMessageSubscriber.cs:72-153 | after any lock conflicts, each met by any of the copies in any order, in the subscriber of its queue and under the routing key it carries, the copies are in the main queues of the type in every client group, under its own key, and nowhere else |
| RabbitRouting.ConflictReturns | src/OpenSleigh.Transport.RabbitMQ/RabbitMessageSubscriber.cs:139-152 | one lock conflict takes any copies in main queues of a type to all its main queues, and nowhere else |
| RabbitRouting.RetriesComeBack | src/OpenSleigh.Transport.RabbitMQ/IChannelExtensions.cs:66-112 | after any lock conflicts of any copies, in any order, a message is in its own main queue and no other, under its own key, if and only if no other client group declared its type |
| RabbitRouting.OneCopyComesBack | src/OpenSleigh.Transport.RabbitMQ/IChannelExtensions.cs:80-94 | in one client group a lock conflict puts one copy into the type's retry queue, and its expiry one copy into the main queue |
| RabbitRouting.RejectedOnce | src/OpenSleigh.Transport.RabbitMQ/IChannelExtensions.cs:96-105 | a rejected message reaches its own dead-letter queue and nothing else, whatever topologies are declared beside it; which ones can be is DeclarableIff |
| RabbitRouting.OnlyRetriesExpire | src/OpenSleigh.Transport.RabbitMQ/IChannelExtensions.cs:66-112 | a message never leaves a main or a dead-letter queue by waiting there |
| RabbitSubscriber.RabbitMessageSubscriber.StartAsync | src/OpenSleigh.Transport.RabbitMQ/RabbitMessageSubscriber.cs:155-167 | from a broker with any topologies, some of them initialized in this process: the broker ends up with exactly those and the ones of the registered types, arguments included, and their main queues are consumed; unless a declaration fails otherwise, exactly when each type is compatible with what was there |
| RabbitSubscriber.RabbitMessageSubscriber.OnMessageReceivedAsync | src/OpenSleigh.Transport.RabbitMQ/RabbitMessageSubscriber.cs:72-153 | a message that cannot be parsed is rejected, one that is processed acknowledged; LockException, OptimisticLockException and an aggregate with one of them have it acknowledged and published once to its type's retry exchange under the key it came with; any other exception rejects it |
| RabbitSubscriber.LockFailuresAreRetried | src/OpenSleigh.Transport.RabbitMQ/RabbitMessageSubscriber.cs:112-127 | in every run of the saga protocol, what BeginProcessingAsync throws is retried, except a missing saga, which is rejected |
| SagaKeys.BuildKeyInjective | src/OpenSleigh.InMemory/InMemorySagaStateRepository.cs:131-132 | two sagas share a key only if they are the same, for all correlation ids; type names contain no bar |
| Paging.PagesPartition | src/OpenSleigh.InMemory/InMemorySagaStateRepository.cs:90-98 | the pages up to the last, one after the other, are the sequence itself |
| Paging.QueryPartitions | src/OpenSleigh.Persistence.SQL/SqlSagaStateQuery.cs:45-75 | the pages of a query together hold every saga of the filter's type and completion exactly as often as it is stored, and no other, in the order of instance ids, and as many as the total says |
| Paging.EndpointAnswersIff | src/OpenSleigh.Reporting/Endpoints/SagaEndpoints.cs:16 | the endpoint answers exactly for a page from 1 on and a page size from 1 to 100, and with no more items than that |
| Paging.LaterPageEmptyIff | src/OpenSleigh.Persistence.SQL/SqlSagaStateQuery.cs:63-66 | a page past the last is empty if and only if the wrapped offset is past the end, as it is whenever the offset fits 32 bits |
| Paging.OverflowRepeats | src/OpenSleigh.Persistence.SQL/SqlSagaStateQuery.cs:65 | a page whose offset wraps around repeats items |
| StepsWorkload.StepsSaga.HandleNext | samples/OpenSleigh.Samples.Blazor/OpenSleigh.Samples.Blazor/Sagas/StepsSaga.cs:56-72 | the counter is incremented with wrap-around, and one message is published, depending on whether it has passed the total |
| StepsWorkload.HandlesExactly | samples/OpenSleigh.Samples.Blazor/OpenSleigh.Samples.Blazor/Sagas/StepsSaga.cs:45-78 | for a count below Int32.MaxValue and any deliveries and redeliveries: the saga handles its start, max(N, 0) + 1 ProcessNextStep, one SagaCompleted and nothing else, and exactly one message takes it further until then |
| StepsWorkload.CompletesIff | samples/OpenSleigh.Samples.Blazor/OpenSleigh.Samples.Blazor/Sagas/StepsSaga.cs:59-65 | a saga can complete if and only if its count is below Int32.MaxValue |
| StepsWorkload.NeverCompletes | samples/OpenSleigh.Samples.Blazor/OpenSleigh.Samples.Blazor/Sagas/StepsSaga.cs:59-65 | with Int32.MaxValue steps SagaCompleted is never handled, in any run |
| OrderWorkload.OrderSaga.HandleCreditCheck | samples/OpenSleigh.Samples.ECommerce/OpenSleigh.Samples.ECommerce.Orchestrator/Sagas/OrderSaga.cs:46-57 | sets its flag and asks for shipping exactly when the other check is done |
| OrderWorkload.ShipsOnce | samples/OpenSleigh.Samples.ECommerce/OpenSleigh.Samples.ECommerce.Orchestrator/Sagas/OrderSaga.cs:46-87 | with one credit and one inventory completion, in any order and with any redelivery: shipping is asked for at most once, and exactly once when both are handled |
| OrderWorkload.ShipsForLateChecks | samples/OpenSleigh.Samples.ECommerce/OpenSleigh.Samples.ECommerce.Orchestrator/Sagas/OrderSaga.cs:46-70 | for any messages: shipping is asked for once per check handled when the other kind already was |
| OrderWorkload.ShipsTwice | samples/OpenSleigh.Samples.ECommerce/OpenSleigh.Samples.ECommerce.Orchestrator/Sagas/OrderSaga.cs:46-70 | for any messages, two different completions of one check have an order shipped twice |
| OrderWorkload.ShipsAtMostOnceIff | samples/OpenSleigh.Samples.ECommerce/OpenSleigh.Samples.ECommerce.Orchestrator/Sagas/OrderSaga.cs:46-87 | for any messages with an order and a completion of each check: no delivery of them has it shipped more than once if and only if each check has one completion only |
| OrderWorkload.PublishesFor | samples/OpenSleigh.Samples.ECommerce/OpenSleigh.Samples.ECommerce.Orchestrator/Sagas/OrderSaga.cs:30-87 | for any messages and deliveries: each check is asked for as often as a SaveOrder of that order was handled; the saga is completed, and says so once and for the order saved last, if and only if ShippingCompleted was handled; every publication names an order that was saved |
| OrderWorkload.ShipsLastSaved | samples/OpenSleigh.Samples.ECommerce/OpenSleigh.Samples.ECommerce.Orchestrator/Sagas/OrderSaga.cs:46-70 | a delivery asks for shipping only of the order saved last, and only for a check with the other kind handled before |
| WorkloadRuns.StableKeyCommits | src/OpenSleigh.InMemory/InMemorySagaStateRepository.cs:13-44 | in any run in which no grant takes over a key, all that is committed for the key is committed on one instance, each message once |
| WorkloadRuns.OrderShipsOnce | samples/OpenSleigh.Samples.ECommerce/OpenSleigh.Samples.ECommerce.Orchestrator/Sagas/OrderSaga.cs:46-87 | in any such run of the saga protocol with one completion of each check, whatever is delivered how often to how many workers: the handlers committed for the key ask for shipping once if both checks are among them, and else never |
| WorkloadRuns.OrderIsDelivered | src/OpenSleigh/SagaInstance.cs:33-59 | in any run, with any number of instances: handling what is committed on one instance, as it comes, is delivering it with at-most-once handling |
| WorkloadRuns.StepsAreDelivered | samples/OpenSleigh.Samples.Blazor/OpenSleigh.Samples.Blazor/Sagas/StepsSaga.cs:45-78 | in any run, the handlers committed on one instance of the steps saga handle a prefix of its start, its steps and its completion, all of them if and only if it is completed |

## Left out

- Mongo persistence: its lock is an unconditional read and replace, with no exclusion to prove.
- Kafka transport, RabbitMQ connections and the publisher's retry policy: client-library plumbing.
- SQL outbox locking and transactions (its append is all or nothing, which the protocol's throwing append covers), and the entity framework's change tracker: each attempt is one read and one conditional write in a fresh context.
- JSON serialisation, type resolution, message parsing and logging; type names are strings and state bytes opaque values.
- Cancellation, shutdown and hosted services; OperationCanceledException is modelled where processing raises it.
- A crash of the subscriber between acknowledging a message and publishing it to the retry exchange.
- Validation of constructor arguments (null or whitespace), and `ToLower` beyond ASCII.
- Liveness: nothing is claimed about when a waiting worker, relay or writer goes on.
- `GetByInstanceIdAsync` and `GetByCorrelationIdAsync`, and the mapping of an entry to the reported fields: single lookups and field copies.
- SQL paging with a wrapped negative offset, which the database rejects; the model takes it for zero, as the in-memory query does.
- ProtocolOutput.NoOutputLost: for fresh envelope ids; with reused ids ProtocolLosses.CommitAppendsAllIff says exactly when a commit appends everything (what it does not append is lost, unless that very envelope is pending or relayed already), and ProtocolLosses.StaysAccountedIff exactly when what is appended stays.
- ProtocolRuns.NoLeaks: a sufficient condition; the exact one is ProtocolLosses.LeaksIff.
- WorkloadRuns.OrderShipsOnce: counts the handlers whose work is committed; a handler that throws leaves what it did to the shared instance, as in SagaRuntime.MessageHandlerManager.ProcessAsync.
- ProtocolRuns.AtMostOncePerKey: a sufficient condition; the exact one is ProtocolKeys.RepeatedIff.
- SqlHistory.SerialAtMostOnce: for serial runs; the exact condition in any run is SqlHistory.RepeatsIff.
- SagaRuntime.SagaExecutionService.BeginProcessingAsync: what other workers do is inserted between the check and the lock of each attempt only; every interleaving is covered by the protocol.
- SagaRuntime.SagaInstance.ProcessAsync: runs alone, so the two reads of LockId in the release agree; the protocol covers the rest.
