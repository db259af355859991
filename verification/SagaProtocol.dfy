/**
 The in-memory saga protocol as a transition system.

 Any number of workers run SagaRunner.ProcessAsync on shared instances; each action
 is one step that the runtime performs atomically (one dictionary access, one field
 write, one critical section of the repository). Relays move pending messages to the
 channel at the same time. A run is a sequence of actions.
 */
module SagaProtocol {
  import opened Messages
  import opened LockTables

  /** A shared SagaInstance. `appended` is history: how many of its outgoing envelopes a commit has appended so far. */
  datatype Instance = Instance(
    isCompleted: bool,
    processed: set<Id>,
    outbox: seq<Envelope>,
    lockId: LockField,
    appended: nat)

  datatype Outcome =
    | Committed(instance: Id)
    | NoOp(instance: Id)
    | Rejected(retry: bool, error: Error)   // BeginProcessingAsync threw, in its first or second attempt
    | Failed(error: Error)     // ProcessAsync threw

  /** Where a worker is. `retry` tells the second attempt of BeginProcessingAsync from the first. */
  datatype Pc =
    | Finding(retry: bool)
    | Missing(retry: bool)
    | Found(retry: bool, instance: Id)
    | Locking(retry: bool, instance: Id)
    | Storing(retry: bool, instance: Id, lockId: Id)
    | Rechecking(retry: bool, instance: Id, lockId: Id)
    | BackingOff(retry: bool, instance: Id, lockId: Id)
    | Handling(instance: Id, lockId: Id)
    | Handled(instance: Id, lockId: Id)
    | Appending(instance: Id, lockId: Id, next: nat, stopped: bool)
    | Releasing(instance: Id, lockId: Id)
    | Catching(instance: Id, lockId: Id, error: Error)
    | Rescuing(instance: Id, lockId: Id, error: Error)
    | Clearing(instance: Id, outcome: Outcome)
    | Leaked(instance: Id, lockId: Id, outcome: Outcome)
    | Done(outcome: Outcome)

  /** `published` is history: the envelopes this worker's handler published. */
  datatype Worker = Worker(context: MessageContext, descriptor: SagaDescriptor, pc: Pc, published: set<Envelope>) {
    function Key(): SagaKey { KeyOf(descriptor, context.correlationId) }
    predicate IsInitiator() { context.messageType in descriptor.initiatorTypes }
  }

  datatype Relay = Idle | Sending(rest: seq<Envelope>) | Deleting(rest: seq<Envelope>)

  datatype Commit = Commit(instance: Id, message: Id)

  /**
   The shared state. `keyOf` holds the immutable identity (correlation id and descriptor) of each instance,
   `instances` its mutable fields. History variables: `owner` (who was granted a lock id), `commits`,
   `grantedTo` (instances that ever obtained their lock), `issued` (every envelope by id),
   `appendedIds` (ids ever added to the outbox), `relayed` (envelopes written to the channel)
   and `delivered` (envelopes published by handlers whose commit released the lock).
   */
  datatype State = State(
    keyOf: map<Id, SagaKey>,
    instances: map<Id, Instance>,
    tables: Tables<Id>,
    workers: map<Id, Worker>,
    pending: map<Id, Envelope>,
    relays: map<Id, Relay>,
    owner: map<Id, Id>,
    commits: seq<Commit>,
    grantedTo: set<Id>,
    issued: map<Id, Envelope>,
    appendedIds: set<Id>,
    relayed: set<Envelope>,
    delivered: set<Envelope>)

  const INITIAL := State(map[], map[], Tables(map[], map[]), map[], map[], map[], map[], [], {}, map[], {}, {}, {})

  datatype Action =
    | Spawn(worker: Id, context: MessageContext, descriptor: SagaDescriptor)
    | Find(worker: Id)
    | Resolve(worker: Id, instance: Id)
    | Check(worker: Id)
    | Grant(worker: Id, lockId: Id)
    | StoreLockId(worker: Id)
    | Recheck(worker: Id)
    | BackOff(worker: Id, guard: LockField)
    | Publish(worker: Id, envelope: Envelope)
    | Complete(worker: Id)
    | HandlerReturns(worker: Id)
    | HandlerThrows(worker: Id, error: Error)
    | Record(worker: Id)
    | AppendNext(worker: Id)
    | AppendThrows(worker: Id, error: Error)
    | ClearOutbox(worker: Id)
    | CommitRelease(worker: Id, guard: LockField)
    | CatchCheck(worker: Id)
    | CatchRelease(worker: Id, guard: LockField)
    | ClearLockId(worker: Id)
    | BusPublish(envelope: Envelope)
    | ReadPending(relay: Id, snapshot: seq<Envelope>)
    | RelayPublish(relay: Id)
    | RelaySkip(relay: Id)
    | RelayDelete(relay: Id)

  /** SagaInstance.CanProcess. */
  predicate CanProcess(s: State, i: Id, w: Worker)
    requires Exists(s, i)
  {
    !s.instances[i].isCompleted && s.keyOf[i].correlationId == w.context.correlationId
    && w.context.messageId !in s.instances[i].processed
  }

  predicate Exists(s: State, i: Id) {
    i in s.keyOf && i in s.instances
  }

  function Move(s: State, w: Id, pc: Pc): State
    requires w in s.workers
  {
    s.(workers := s.workers[w := s.workers[w].(pc := pc)])
  }

  /** BeginProcessingAsync throws because an attempt threw `e`. */
  function Refusal(retry: bool, e: Error): Outcome {
    Rejected(retry, Raise(retry, e))
  }

  function Put(s: State, i: Id, instance: Instance): State {
    s.(instances := s.instances[i := instance])
  }

  /**
   What the guard of ReleaseAsync may have read, given the field's value at the comparison:
   the same value, or a GUID that another worker has cleared in between.
   */
  predicate MayRead(current: LockField, guard: LockField) {
    guard == current || (guard.Guid? && current == Empty)
  }

  function ReleaseOf(s: State, i: Id, guard: LockField): Option<Tables<Id>>
    requires Exists(s, i)
  {
    TryRelease(s.tables, i, i, s.keyOf[i], guard, s.instances[i].lockId)
  }

  /** FindAsync: a reference to the instance the key names. */
  function FindStep(s: State, w: Id): Option<State>
    requires w in s.workers
  {
    var worker := s.workers[w];
    if !worker.pc.Finding? then None
    else if worker.Key() in s.tables.byKey then
      Some(Move(s, w, Found(worker.pc.retry, s.tables.byKey[worker.Key()].state)))
    else Some(Move(s, w, Missing(worker.pc.retry)))
  }

  /** ResolveInstanceAsync after a miss: an initiator creates the instance `i`. */
  function ResolveStep(s: State, w: Id, i: Id): Option<State>
    requires w in s.workers
  {
    var worker := s.workers[w];
    if !worker.pc.Missing? then None
    else if !worker.IsInitiator() then Some(Move(s, w, Done(Refusal(worker.pc.retry, ApplicationException))))
    else if i in s.keyOf || i in s.instances then None
    else Some(Move(Put(s.(keyOf := s.keyOf[i := worker.Key()]), i, Instance(false, {}, [], Null, 0)), w,
                   Found(worker.pc.retry, i)))
  }

  function CheckStep(s: State, w: Id): Option<State>
    requires w in s.workers
  {
    var pc := s.workers[w].pc;
    if !pc.Found? || !Exists(s, pc.instance) then None
    else if CanProcess(s, pc.instance, s.workers[w]) then Some(Move(s, w, Locking(pc.retry, pc.instance)))
    else Some(Move(s, w, Done(NoOp(pc.instance))))
  }

  /** InMemorySagaStateRepository.LockAsync with the fresh lock id `l`, and what the caller makes of its exceptions. */
  function GrantStep(s: State, w: Id, l: Id): Option<State>
    requires w in s.workers
  {
    var pc := s.workers[w].pc;
    if !pc.Locking? || !Exists(s, pc.instance) || l in s.owner then None
    else
      match TryLock(s.tables, pc.instance, pc.instance, s.keyOf[pc.instance], l)
      case Granted(t) =>
        Some(Move(s.(tables := t, owner := s.owner[l := w], grantedTo := s.grantedTo + {pc.instance}),
                  w, Storing(pc.retry, pc.instance, l)))
      case AlreadyLocked => Some(Move(s, w, Done(Refusal(pc.retry, LockException))))
      case Conflict =>
        Some(Move(s, w, if pc.retry then Done(Refusal(true, OptimisticLockException)) else Finding(true)))
  }

  function StoreStep(s: State, w: Id): Option<State>
    requires w in s.workers
  {
    var pc := s.workers[w].pc;
    if !pc.Storing? || !Exists(s, pc.instance) then None
    else
      Some(Move(Put(s, pc.instance, s.instances[pc.instance].(lockId := Guid(pc.lockId))),
                w, Rechecking(pc.retry, pc.instance, pc.lockId)))
  }

  function RecheckStep(s: State, w: Id): Option<State>
    requires w in s.workers
  {
    var pc := s.workers[w].pc;
    if !pc.Rechecking? || !Exists(s, pc.instance) then None
    else if CanProcess(s, pc.instance, s.workers[w]) then Some(Move(s, w, Handling(pc.instance, pc.lockId)))
    else Some(Move(s, w, BackingOff(pc.retry, pc.instance, pc.lockId)))
  }

  /** The release after a failed re-check; its exception would be BeginProcessingAsync's. */
  function BackOffStep(s: State, w: Id, guard: LockField): Option<State>
    requires w in s.workers
  {
    var pc := s.workers[w].pc;
    if !pc.BackingOff? || !Exists(s, pc.instance) || !MayRead(s.instances[pc.instance].lockId, guard) then None
    else
      match ReleaseOf(s, pc.instance, guard)
      case Some(t) => Some(Move(s.(tables := t), w, Done(NoOp(pc.instance))))
      case None => Some(Move(s, w, Leaked(pc.instance, pc.lockId, Refusal(pc.retry, LockException))))
  }

  function PublishStep(s: State, w: Id, e: Envelope): Option<State>
    requires w in s.workers
  {
    var worker := s.workers[w];
    if !worker.pc.Handling? || !Exists(s, worker.pc.instance) then None
    else
      var i := worker.pc.instance;
      var instance := s.instances[i];
      if e.senderId != i || e.correlationId != s.keyOf[i].correlationId then None
      else
        Some(Put(s, i, instance.(outbox := instance.outbox + [e]))
             .(workers := s.workers[w := worker.(published := worker.published + {e})],
               issued := s.issued[e.messageId := e]))
  }

  function CompleteStep(s: State, w: Id): Option<State>
    requires w in s.workers
  {
    var pc := s.workers[w].pc;
    if !pc.Handling? || !Exists(s, pc.instance) then None
    else Some(Put(s, pc.instance, s.instances[pc.instance].(isCompleted := true)))
  }

  /** MessageHandlerManager.ProcessAsync ends, normally or with the error it throws after the rollback. */
  function HandlerStep(s: State, w: Id, error: Option<Error>): Option<State>
    requires w in s.workers
  {
    var pc := s.workers[w].pc;
    if !pc.Handling? then None
    else
      match error
      case None => Some(Move(s, w, Handled(pc.instance, pc.lockId)))
      case Some(e) => Some(Move(s, w, Catching(pc.instance, pc.lockId, e)))
  }

  /** SetAsProcessed. */
  function RecordStep(s: State, w: Id): Option<State>
    requires w in s.workers
  {
    var pc := s.workers[w].pc;
    if !pc.Handled? || !Exists(s, pc.instance) then None
    else
      var i := pc.instance;
      var m := s.workers[w].context.messageId;
      if m in s.instances[i].processed then Some(Move(s, w, Catching(i, pc.lockId, InvalidOperationException)))
      else
        Some(Move(Put(s, i, s.instances[i].(processed := s.instances[i].processed + {m})), w,
                  Appending(i, pc.lockId, 0, false)))
  }

  /** One TryAdd of InMemoryOutboxRepository.AppendAsync; a duplicate ends the append. */
  function AppendStep(s: State, w: Id): Option<State>
    requires w in s.workers
  {
    var pc := s.workers[w].pc;
    if !pc.Appending? || !Exists(s, pc.instance) || pc.stopped || pc.next >= |s.instances[pc.instance].outbox| then None
    else
      var i := pc.instance;
      var e := s.instances[i].outbox[pc.next];
      if e.messageId in s.pending then Some(Move(s, w, Appending(i, pc.lockId, pc.next, true)))
      else
        Some(Move(Put(s, i, s.instances[i].(appended := pc.next + 1)), w, Appending(i, pc.lockId, pc.next + 1, false))
             .(pending := s.pending[e.messageId := e], appendedIds := s.appendedIds + {e.messageId}))
  }

  /** An outbox repository that throws: before it has added anything, and only when there is something to append. */
  function AppendThrowsStep(s: State, w: Id, e: Error): Option<State>
    requires w in s.workers
  {
    var pc := s.workers[w].pc;
    if !pc.Appending? || !Exists(s, pc.instance) || pc.stopped || pc.next > 0
      || s.instances[pc.instance].outbox == [] then None
    else Some(Move(s, w, Catching(pc.instance, pc.lockId, e)))
  }

  function ClearOutboxStep(s: State, w: Id): Option<State>
    requires w in s.workers
  {
    var pc := s.workers[w].pc;
    if !pc.Appending? || !Exists(s, pc.instance)
       || !(pc.stopped || pc.next == |s.instances[pc.instance].outbox|) then None
    else
      Some(Move(Put(s, pc.instance, s.instances[pc.instance].(outbox := [], appended := 0)),
                w, Releasing(pc.instance, pc.lockId)))
  }

  /** The release at the end of CommitAsync. */
  function CommitStep(s: State, w: Id, guard: LockField): Option<State>
    requires w in s.workers
  {
    var worker := s.workers[w];
    var pc := worker.pc;
    if !pc.Releasing? || !Exists(s, pc.instance) || !MayRead(s.instances[pc.instance].lockId, guard) then None
    else
      match ReleaseOf(s, pc.instance, guard)
      case Some(t) =>
        Some(Move(s.(tables := t, commits := s.commits + [Commit(pc.instance, worker.context.messageId)],
                     delivered := s.delivered + worker.published),
                  w, Clearing(pc.instance, Committed(pc.instance))))
      case None => Some(Move(s, w, Catching(pc.instance, pc.lockId, LockException)))
  }

  /** The catch block of ProcessAsync: it releases only when the instance still has a lock id. */
  function CatchStep(s: State, w: Id): Option<State>
    requires w in s.workers
  {
    var pc := s.workers[w].pc;
    if !pc.Catching? || !Exists(s, pc.instance) then None
    else if s.instances[pc.instance].lockId.Guid? then Some(Move(s, w, Rescuing(pc.instance, pc.lockId, pc.error)))
    else Some(Move(s, w, Leaked(pc.instance, pc.lockId, Failed(pc.error))))
  }

  /** The release in the catch block; its own exception is swallowed. */
  function RescueStep(s: State, w: Id, guard: LockField): Option<State>
    requires w in s.workers
  {
    var pc := s.workers[w].pc;
    if !pc.Rescuing? || !Exists(s, pc.instance) || !MayRead(s.instances[pc.instance].lockId, guard) then None
    else
      match ReleaseOf(s, pc.instance, guard)
      case Some(t) => Some(Move(s.(tables := t), w, Clearing(pc.instance, Failed(pc.error))))
      case None =>
        Some(Move(Put(s, pc.instance, s.instances[pc.instance].(lockId := Empty)), w,
                  Leaked(pc.instance, pc.lockId, Failed(pc.error))))
  }

  /** `LockId = string.Empty`, after the release. */
  function ClearStep(s: State, w: Id): Option<State>
    requires w in s.workers
  {
    var pc := s.workers[w].pc;
    if !pc.Clearing? || !Exists(s, pc.instance) then None
    else Some(Move(Put(s, pc.instance, s.instances[pc.instance].(lockId := Empty)), w, Done(pc.outcome)))
  }

  /** ReadPendingAsync: the values of the dictionary, in some order. */
  predicate IsSnapshot(pending: map<Id, Envelope>, snapshot: seq<Envelope>) {
    && (forall e | e in snapshot :: e.messageId in pending && pending[e.messageId] == e)
    && (forall id | id in pending :: pending[id] in snapshot)
  }

  /** A step of an outbox relay (OutboxProcessor). */
  function RelayStep(s: State, a: Action): Option<State>
    requires IsRelayAction(a)
  {
    var r := a.relay;
    var relay := if r in s.relays then s.relays[r] else Idle;
    match (a, relay)
    case (ReadPending(_, snapshot), Idle) =>
      if IsSnapshot(s.pending, snapshot) then Some(s.(relays := s.relays[r := Sending(snapshot)])) else None
    case (RelayPublish(_), Sending(rest)) =>
      if rest == [] then None
      else Some(s.(relays := s.relays[r := Deleting(rest)], relayed := s.relayed + {rest[0]}))
    case (RelaySkip(_), Sending(rest)) =>
      Some(s.(relays := s.relays[r := if rest == [] then Idle else Sending(rest[1..])]))
    case (RelaySkip(_), Deleting(rest)) =>
      if rest == [] then None else Some(s.(relays := s.relays[r := Sending(rest[1..])]))
    case (RelayDelete(_), Deleting(rest)) =>
      if rest == [] then None
      else Some(s.(relays := s.relays[r := Sending(rest[1..])], pending := s.pending - {rest[0].messageId}))
    case _ => None
  }

  function SpawnStep(s: State, w: Id, context: MessageContext, descriptor: SagaDescriptor): Option<State> {
    if w in s.workers then None
    else Some(s.(workers := s.workers[w := Worker(context, descriptor, Finding(false), {})]))
  }

  /** DefaultMessageBus.PublishAsync appends one envelope. */
  function BusStep(s: State, e: Envelope): Option<State> {
    var s' := s.(issued := s.issued[e.messageId := e]);
    if e.messageId in s.pending then Some(s')
    else Some(s'.(pending := s.pending[e.messageId := e], appendedIds := s.appendedIds + {e.messageId}))
  }

  /** A step of the worker the action names. */
  function WorkerStep(s: State, a: Action): Option<State>
    requires IsWorkerAction(a) && a.worker in s.workers
  {
    match a
    case Find(w) => FindStep(s, w)
    case Resolve(w, i) => ResolveStep(s, w, i)
    case Check(w) => CheckStep(s, w)
    case Grant(w, l) => GrantStep(s, w, l)
    case StoreLockId(w) => StoreStep(s, w)
    case Recheck(w) => RecheckStep(s, w)
    case BackOff(w, guard) => BackOffStep(s, w, guard)
    case Publish(w, e) => PublishStep(s, w, e)
    case Complete(w) => CompleteStep(s, w)
    case HandlerReturns(w) => HandlerStep(s, w, None)
    case HandlerThrows(w, e) => HandlerStep(s, w, Some(e))
    case Record(w) => RecordStep(s, w)
    case AppendNext(w) => AppendStep(s, w)
    case AppendThrows(w, e) => AppendThrowsStep(s, w, e)
    case ClearOutbox(w) => ClearOutboxStep(s, w)
    case CommitRelease(w, guard) => CommitStep(s, w, guard)
    case CatchCheck(w) => CatchStep(s, w)
    case CatchRelease(w, guard) => RescueStep(s, w, guard)
    case ClearLockId(w) => ClearStep(s, w)
  }

  predicate IsWorkerAction(a: Action) {
    !a.Spawn? && !a.BusPublish? && !IsRelayAction(a)
  }

  predicate IsRelayAction(a: Action) {
    a.ReadPending? || a.RelayPublish? || a.RelaySkip? || a.RelayDelete?
  }

  /** The state after action `a`, or None when `a` is not enabled in `s`. */
  function Next(s: State, a: Action): Option<State> {
    if a.Spawn? then SpawnStep(s, a.worker, a.context, a.descriptor)
    else if a.BusPublish? then BusStep(s, a.envelope)
    else if IsRelayAction(a) then RelayStep(s, a)
    else if a.worker in s.workers then WorkerStep(s, a)
    else None
  }

  /** The state after the run `run` from the empty store, or None when some action was not enabled. */
  function Exec(run: seq<Action>): Option<State> {
    if run == [] then Some(INITIAL)
    else
      match Exec(run[..|run| - 1])
      case None => None
      case Some(s) => Next(s, run[|run| - 1])
  }
}
