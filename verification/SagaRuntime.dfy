/**
 The saga runtime over the in-memory repository, as the classes of the program.

 Whatever these classes do not decide is a parameter: fresh GUIDs, what the message handler
 does, an outbox that throws, and what other workers do between the check of an instance
 and its lock (`Others`). The exceptions of a method are its results.
 */
module SagaRuntime {
  import opened Messages
  import opened LockTables
  import Outbox = InMemoryOutbox

  // ----- Handlers -----

  datatype Effect = Publishes(envelope: Envelope) | Completes

  /** What a message handler does, if it can be created at all. */
  datatype Handler =
    | CannotCreate(error: Error)
    | Handler(effects: seq<Effect>, handleError: Option<Error>, rollbackError: Option<Error>)

  function Published(effects: seq<Effect>): seq<Envelope> {
    if effects == [] then []
    else
      var last := effects[|effects| - 1];
      Published(effects[..|effects| - 1]) + (if last.Publishes? then [last.envelope] else [])
  }

  /** What is published is what the handler published, as often and in this order. */
  lemma {:induction false} PublishedOfBoth(a: seq<Effect>, b: seq<Effect>)
    ensures Published(a + b) == Published(a) + Published(b)
  {
    if b == [] {
      assert a + b == a;
    } else {
      assert (a + b)[..|a + b| - 1] == a + b[..|b| - 1];
      PublishedOfBoth(a, b[..|b| - 1]);
    }
  }

  lemma PublishedOfOne(effect: Effect)
    ensures match effect
            case Publishes(e) => Published([effect]) == [e]
            case Completes => Published([effect]) == []
  {
    assert [effect][..0] == [];
  }

  lemma {:induction false} PublishedIff(effects: seq<Effect>, e: Envelope)
    ensures e in Published(effects) <==> Publishes(e) in effects
  {
    if effects != [] {
      PublishedIff(effects[..|effects| - 1], e);
      assert effects == effects[..|effects| - 1] + [effects[|effects| - 1]];
    }
  }

  function Envelopes(h: Handler): seq<Envelope> {
    if h.Handler? then Published(h.effects) else []
  }

  /** What MessageHandlerManager throws: a failed rollback hides the handler's own error. */
  function HandlerError(h: Handler): Option<Error> {
    match h
    case CannotCreate(e) => Some(e)
    case Handler(_, None, _) => None
    case Handler(_, Some(e), None) => Some(SagaException(e))
    case Handler(_, Some(_), Some(e)) => Some(e)
  }

  // ----- Instances -----

  class SagaInstance {
    const instanceId: Id
    const triggerMessageId: Id
    const correlationId: string
    const descriptor: SagaDescriptor
    var processedMessages: set<Id>
    var outbox: seq<Envelope>
    var isCompleted: bool
    var lockId: LockField

    constructor (instanceId: Id, triggerMessageId: Id, correlationId: string, descriptor: SagaDescriptor)
      ensures this.instanceId == instanceId && this.triggerMessageId == triggerMessageId
      ensures this.correlationId == correlationId && this.descriptor == descriptor
      ensures processedMessages == {} && outbox == [] && !isCompleted && lockId == Null
    {
      this.instanceId := instanceId;
      this.triggerMessageId := triggerMessageId;
      this.correlationId := correlationId;
      this.descriptor := descriptor;
      processedMessages, outbox, isCompleted, lockId := {}, [], false, Null;
    }

    function Key(): SagaKey { KeyOf(descriptor, correlationId) }

    predicate CanProcess(context: MessageContext)
      reads this
    {
      if isCompleted then false
      else if correlationId != context.correlationId then false
      else context.messageId !in processedMessages
    }

    method SetAsProcessed(context: MessageContext) returns (error: Option<Error>)
      modifies this`processedMessages
      ensures error == if context.messageId in old(processedMessages) then Some(InvalidOperationException) else None
      ensures processedMessages == old(processedMessages) + {context.messageId}
    {
      if context.messageId in processedMessages {
        return Some(InvalidOperationException);
      }
      processedMessages := processedMessages + {context.messageId};
      return None;
    }

    method MarkAsCompleted()
      modifies this`isCompleted
      ensures isCompleted
    {
      isCompleted := true;
    }

    method Publish(message: Envelope)
      modifies this`outbox
      ensures outbox == old(outbox) + [message]
    {
      outbox := outbox + [message];
    }

    method ClearOutbox()
      modifies this`outbox
      ensures outbox == []
    {
      outbox := [];
    }

    /** On an exception the old LockId stays. */
    method LockAsync(repository: InMemorySagaStateRepository, guid: Id) returns (error: Option<Error>)
      modifies this`lockId, repository
      ensures match TryLock(old(repository.Tables()), this, instanceId, Key(), guid)
              case Granted(t) => error.None? && repository.Tables() == t && lockId == Guid(guid)
              case AlreadyLocked => error == Some(LockException) && repository.Tables() == old(repository.Tables())
                && lockId == old(lockId)
              case Conflict =>
                error == Some(OptimisticLockException) && repository.Tables() == old(repository.Tables())
                  && lockId == old(lockId)
    {
      var locked := repository.LockAsync(this, guid);
      if locked.Failure? {
        return Some(locked.error);
      }
      lockId := Guid(locked.value);
      return None;
    }

    /** What ProcessAsync throws, given what the repository would make of its release. */
    function ProcessError(context: MessageContext, h: Handler, fault: Option<Error>, releases: bool): Option<Error>
      reads this
    {
      if HandlerError(h).Some? then HandlerError(h)
      else if context.messageId in processedMessages then Some(InvalidOperationException)
      else if fault.Some? && outbox + Envelopes(h) != [] then fault
      else if releases then None
      else Some(LockException)
    }

    /** The steps of the try block, up to the one that fails. */
    method TryAsync(manager: MessageHandlerManager, context: MessageContext, service: SagaExecutionService,
                    h: Handler, fault: Option<Error>)
      returns (error: Option<Error>)
      modifies this, service.repository, service.outbox
      ensures error == old(ProcessError(context, h, fault,
                                        TryRelease(service.repository.Tables(), this, instanceId, Key(), lockId,
                                                   lockId).Some?))
      ensures lockId == old(lockId)
      ensures service.repository.Tables() ==
                var t := old(service.repository.Tables());
                if error.None? then Freed(t, this, instanceId, Key(), lockId) else t
      ensures processedMessages ==
                if HandlerError(h).Some? then old(processedMessages) else old(processedMessages) + {context.messageId}
      ensures isCompleted == (old(isCompleted) || (h.Handler? && Completes in h.effects))
      ensures HandlerError(h).Some? || context.messageId in old(processedMessages) || fault.Some? ==>
                outbox == old(outbox) + Envelopes(h) && service.outbox.messages == old(service.outbox.messages)
      ensures HandlerError(h).None? && context.messageId !in old(processedMessages) && fault.None? ==>
                outbox == [] && var batch := old(outbox) + Envelopes(h);
                service.outbox.messages ==
                  Outbox.Added(old(service.outbox.messages),
                               batch[..Outbox.NewPrefix(old(service.outbox.messages), batch)])
    {
      AllAppended(service.outbox.messages, outbox, h);
      FreedIs(service.repository.Tables(), this, lockId);
      hide Outbox.RestIsThere, Outbox.Pending, Outbox.Added, Outbox.AllNew, Outbox.NewPrefix, AllIdsNew, AllPending,
        Published, TryRelease, Freed;
      error := manager.ProcessAsync(this, context, h);
      if error.None? {
        error := SetAsProcessed(context);
      }
      if error.None? {
        error := service.CommitAsync(this, fault);
      }
    }

    /**
     The exit contract. The error is that of the first step that failed, whatever becomes of the release in the catch
     block; a GUID in LockId is always cleared; a lock that can be released is released on every exit; only a handler
     failure leaves the message unrecorded; the instance outbox is emptied only when the append succeeded.
     */
    method ProcessAsync(manager: MessageHandlerManager, context: MessageContext, service: SagaExecutionService,
                        h: Handler, fault: Option<Error>)
      returns (error: Option<Error>)
      modifies this, service.repository, service.outbox
      ensures error == old(ProcessError(context, h, fault,
                                        TryRelease(service.repository.Tables(), this, instanceId, Key(), lockId,
                                                   lockId).Some?))
      ensures lockId == if old(lockId).Guid? || error.None? then Empty else old(lockId)
      ensures service.repository.Tables() ==
                var t := old(service.repository.Tables());
                if old(lockId).Guid? || error.None? then Freed(t, this, instanceId, Key(), old(lockId)) else t
      ensures old(lockId).Guid? && old(Holds(service.repository.Tables(), this, lockId.id)) ==>
                service.repository.Tables() == Unlocked(old(service.repository.Tables()), this)
      ensures processedMessages ==
                if HandlerError(h).Some? then old(processedMessages) else old(processedMessages) + {context.messageId}
      ensures isCompleted == (old(isCompleted) || (h.Handler? && Completes in h.effects))
      ensures HandlerError(h).Some? || context.messageId in old(processedMessages) || fault.Some? ==>
                outbox == old(outbox) + Envelopes(h) && service.outbox.messages == old(service.outbox.messages)
      ensures HandlerError(h).None? && context.messageId !in old(processedMessages) && fault.None? ==>
                outbox == [] && var batch := old(outbox) + Envelopes(h);
                service.outbox.messages ==
                  Outbox.Added(old(service.outbox.messages),
                               batch[..Outbox.NewPrefix(old(service.outbox.messages), batch)])
      // on success with new ids, everything the handler published is pending
      ensures error.None? ==> h.Handler? && context.messageId in processedMessages
      ensures error.None? && AllIdsNew(old(service.outbox.messages), old(outbox) + Envelopes(h)) ==>
                AllPending(h.effects, service.outbox.messages)
    {
      AllAppended(service.outbox.messages, outbox, h);
      FreedIs(service.repository.Tables(), this, lockId);
      hide Outbox.Added, Outbox.AllNew, Outbox.NewPrefix, AllIdsNew, AllPending, Published, TryRelease, Freed, Holds,
        Unlocked;
      error := TryAsync(manager, context, service, h, fault);
      if error.None? {
        lockId := Empty;
        return;
      }
      if lockId.Guid? {
        var _ := service.ReleaseAsync(this);
        lockId := Empty;
      }
    }
  }

  /** No id of the batch is pending, and none comes twice. */
  predicate AllIdsNew(pending: map<Id, Envelope>, batch: seq<Envelope>) {
    && (forall k | 0 <= k < |batch| :: batch[k].messageId !in pending)
    && (forall j, k | 0 <= j < k < |batch| :: batch[j].messageId != batch[k].messageId)
  }

  /** Every envelope that the effects publish is pending. */
  ghost predicate AllPending(effects: seq<Effect>, pending: map<Id, Envelope>) {
    forall e | Publishes(e) in effects :: e.messageId in pending && pending[e.messageId] == e
  }

  /** With new ids the whole batch is added, and so is all that the handler published. */
  lemma AllAppended(pending: map<Id, Envelope>, before: seq<Envelope>, h: Handler)
    ensures var batch := before + Envelopes(h);
            h.Handler? && AllIdsNew(pending, batch) ==>
              AllPending(h.effects, Outbox.Added(pending, batch[..Outbox.NewPrefix(pending, batch)]))
    ensures var batch := before + Envelopes(h);
            batch == [] ==> Outbox.Added(pending, batch[..Outbox.NewPrefix(pending, batch)]) == pending
  {
    var batch := before + Envelopes(h);
    if batch == [] {
      assert batch[..Outbox.NewPrefix(pending, batch)] == [];
    }
    hide Outbox.AllNew, Outbox.Added, Outbox.NewPrefix, AllIdsNew, AllPending;
    if h.Handler? && AllIdsNew(pending, batch) {
      WholeBatch(pending, batch);
      hide Envelopes;
      assert batch[..|batch|] == batch;
      AddsPublished(pending, before, h);
    }
  }

  lemma AddsPublished(pending: map<Id, Envelope>, before: seq<Envelope>, h: Handler)
    requires h.Handler? && Outbox.AllNew(pending, before + Envelopes(h), |before + Envelopes(h)|)
    ensures AllPending(h.effects, Outbox.Added(pending, before + Envelopes(h)))
  {
    var batch := before + Envelopes(h);
    Outbox.AddedIs(pending, batch);
    hide Outbox.AllNew, Outbox.Added, Published;
    forall e | Publishes(e) in h.effects
      ensures e.messageId in Outbox.Added(pending, batch) && Outbox.Added(pending, batch)[e.messageId] == e
    {
      PublishedIff(h.effects, e);
      var k :| 0 <= k < |Envelopes(h)| && Envelopes(h)[k] == e;
      assert batch[|before| + k] == e;
    }
  }

  lemma WholeBatch(pending: map<Id, Envelope>, batch: seq<Envelope>)
    requires AllIdsNew(pending, batch)
    ensures Outbox.NewPrefix(pending, batch) == |batch| && Outbox.AllNew(pending, batch, |batch|)
  {
    Outbox.PrefixIs(pending, batch, |batch|);
  }

  /** The tables after a release that may fail; a failed release leaves them as they are. */
  function Freed<T>(t: Tables<T>, state: T, id: Id, key: SagaKey, lockId: LockField): Tables<T> {
    match TryRelease(t, state, id, key, lockId, lockId)
    case Some(t') => t'
    case None => t
  }

  lemma FreedIs(t: Tables<SagaInstance>, i: SagaInstance, lockId: LockField)
    ensures TryRelease(t, i, i.instanceId, i.Key(), lockId, lockId).None? ==>
              Freed(t, i, i.instanceId, i.Key(), lockId) == t
    ensures lockId.Guid? && Holds(t, i, lockId.id) ==> Freed(t, i, i.instanceId, i.Key(), lockId) == Unlocked(t, i)
  {
  }

  class MessageHandlerManager {
    constructor () {}

    method ProcessAsync(instance: SagaInstance, context: MessageContext, h: Handler) returns (error: Option<Error>)
      modifies instance`outbox, instance`isCompleted
      ensures error == HandlerError(h)
      // a handler's error comes out as a SagaException around it, unless the rollback throws, too
      ensures h.Handler? && h.handleError.None? ==> error.None?
      ensures h.Handler? && h.handleError.Some? && h.rollbackError.None? ==>
                error == Some(SagaException(h.handleError.value))
      ensures h.Handler? && h.handleError.Some? && h.rollbackError.Some? ==> error == h.rollbackError
      ensures h.CannotCreate? ==> error == Some(h.error)
      ensures h.Handler? ==>
                && |old(instance.outbox)| <= |instance.outbox|
                && forall e :: e in instance.outbox[|old(instance.outbox)|..] <==> Publishes(e) in h.effects
      ensures instance.outbox == old(instance.outbox) + Envelopes(h)
      ensures instance.isCompleted == (old(instance.isCompleted) || (h.Handler? && Completes in h.effects))
    {
      if h.CannotCreate? {
        return Some(h.error);
      }
      HandleAsync(instance, h.effects);
      forall e
        ensures e in Published(h.effects) <==> Publishes(e) in h.effects
      {
        PublishedIff(h.effects, e);
      }
      if h.handleError.None? {
        return None;
      }
      if h.rollbackError.Some? {
        return h.rollbackError;
      }
      return Some(SagaException(h.handleError.value));
    }

    /** The handler at work on its execution context. */
    method HandleAsync(instance: SagaInstance, effects: seq<Effect>)
      modifies instance`outbox, instance`isCompleted
      ensures instance.outbox == old(instance.outbox) + Published(effects)
      ensures instance.isCompleted == (old(instance.isCompleted) || Completes in effects)
    {
      for n := 0 to |effects|
        invariant instance.outbox == old(instance.outbox) + Published(effects[..n])
        invariant instance.isCompleted == (old(instance.isCompleted) || Completes in effects[..n])
      {
        assert effects[..n + 1][..n] == effects[..n];
        match effects[n] {
          case Publishes(e) => instance.Publish(e);
          case Completes => instance.MarkAsCompleted();
        }
      }
      assert effects[..|effects|] == effects;
    }
  }

  // ----- The repository -----

  /** Both tables file an instance under its own identity. */
  ghost predicate Filed(t: Tables<SagaInstance>) {
    && (forall k | k in t.byKey :: t.byKey[k].state.Key() == k)
    && (forall id | id in t.byId :: t.byId[id].state.instanceId == id)
  }

  ghost function InstancesOf(t: Tables<SagaInstance>): set<SagaInstance> {
    set k | k in t.byKey :: t.byKey[k].state
  }

  /** Each of the instances is completed or has the message recorded. */
  ghost predicate AllSettled(instances: set<SagaInstance>, message: Id)
    reads instances
  {
    forall i | i in instances :: i.isCompleted || message in i.processedMessages
  }

  class InMemorySagaStateRepository {
    var statesByDescriptor: map<SagaKey, Entry<SagaInstance>>
    var statesById: map<Id, Entry<SagaInstance>>

    constructor ()
      ensures Tables() == LockTables.Tables(map[], map[])
    {
      statesByDescriptor, statesById := map[], map[];
    }

    function Tables(): Tables<SagaInstance>
      reads this
    {
      LockTables.Tables(statesById, statesByDescriptor)
    }

    method FindAsync(descriptor: SagaDescriptor, context: MessageContext) returns (state: SagaInstance?)
      ensures var key := KeyOf(descriptor, context.correlationId);
              if key in statesByDescriptor then state == statesByDescriptor[key].state else state == null
    {
      var key := KeyOf(descriptor, context.correlationId);
      state := null;
      if key in statesByDescriptor {
        state := statesByDescriptor[key].state;
      }
    }

    method LockAsync(state: SagaInstance, guid: Id) returns (lockId: Result<Id>)
      modifies this
      ensures match TryLock(old(Tables()), state, state.instanceId, state.Key(), guid)
              case Granted(t) => lockId == Success(guid) && Tables() == t
              case AlreadyLocked => lockId == Failure(LockException) && Tables() == old(Tables())
              case Conflict => lockId == Failure(OptimisticLockException) && Tables() == old(Tables())
    {
      if state.instanceId in statesById && statesById[state.instanceId].lockId.Some? {
        return Failure(LockException);
      }
      if state.Key() in statesByDescriptor && statesByDescriptor[state.Key()].lockId.Some? {
        return Failure(OptimisticLockException);
      }
      statesById := statesById[state.instanceId := Entry(state, Some(guid))];
      statesByDescriptor := statesByDescriptor[state.Key() := Entry(state, Some(guid))];
      return Success(guid);
    }

    method ReleaseAsync(state: SagaInstance) returns (error: Option<Error>)
      modifies this
      ensures match TryRelease(old(Tables()), state, state.instanceId, state.Key(), state.lockId, state.lockId)
              case Some(t) => error.None? && Tables() == t
              case None => error == Some(LockException) && Tables() == old(Tables())
    {
      if state.lockId.Guid? && state.instanceId in statesById {
        var entry := statesById[state.instanceId];
        if entry.lockId.Some? && state.lockId != Guid(entry.lockId.value) {
          return Some(LockException);
        }
      }
      statesByDescriptor := statesByDescriptor[state.Key() := Entry(state, None)];
      statesById := statesById[state.instanceId := Entry(state, None)];
      return None;
    }
  }

  // ----- The execution service -----

  /**
   What other workers do between the check of an instance and its lock: the tables they leave, and what they commit on
   the instance.
   */
  datatype Others = Others(tables: Tables<SagaInstance>, processed: set<Id>, completes: bool)

  datatype Begun = Running(instance: SagaInstance) | NoOp | Threw(error: Error)

  /** The id table says that `i` is locked with `guid`. */
  predicate Holds(t: Tables<SagaInstance>, i: SagaInstance, guid: Id) {
    i.instanceId in t.byId && t.byId[i.instanceId].lockId == Some(guid)
  }

  /** The tables with both entries of `i` free. */
  function Unlocked(t: Tables<SagaInstance>, i: SagaInstance): Tables<SagaInstance> {
    LockTables.Tables(t.byId[i.instanceId := Entry(i, None)], t.byKey[i.Key() := Entry(i, None)])
  }

  predicate CarriesNone(t: Tables<SagaInstance>, guid: Id) {
    && (forall id | id in t.byId :: t.byId[id].lockId != Some(guid))
    && (forall k | k in t.byKey :: t.byKey[k].lockId != Some(guid))
  }

  class SagaExecutionService {
    const repository: InMemorySagaStateRepository
    const outbox: Outbox.InMemoryOutboxRepository

    constructor (repository: InMemorySagaStateRepository, outbox: Outbox.InMemoryOutboxRepository)
      ensures this.repository == repository && this.outbox == outbox
    {
      this.repository := repository;
      this.outbox := outbox;
    }

    method ResolveInstanceAsync(context: MessageContext, descriptor: SagaDescriptor, newId: Id)
      returns (r: Result<SagaInstance>)
      ensures var key := KeyOf(descriptor, context.correlationId);
              if key in repository.statesByDescriptor then r == Success(repository.statesByDescriptor[key].state)
              else if context.messageType !in descriptor.initiatorTypes then r == Failure(ApplicationException)
              else r.Success? && fresh(r.value) && r.value.instanceId == newId && r.value.Key() == key
                   && r.value.descriptor == descriptor && r.value.lockId == Null && r.value.CanProcess(context)
                   && r.value.processedMessages == {} && r.value.outbox == []
    {
      var found := repository.FindAsync(descriptor, context);
      if found == null {
        if context.messageType in descriptor.initiatorTypes {
          found := new SagaInstance(newId, context.messageId, context.correlationId, descriptor);
        }
      }
      if found == null {
        return Failure(ApplicationException);
      }
      return Success(found);
    }

    /**
     The result of the append is not looked at: everything the instance had to send is pending afterwards if and only if
     what is behind the first repeated id was pending already, or is in front of it too.
     */
    method CommitAsync(instance: SagaInstance, fault: Option<Error>) returns (error: Option<Error>)
      modifies instance`outbox, repository, outbox
      ensures error == if fault.Some? && old(instance.outbox) != [] then fault
                       else if old(TryRelease(repository.Tables(), instance, instance.instanceId, instance.Key(),
                                              instance.lockId, instance.lockId)).Some? then None
                       else Some(LockException)
      ensures if fault.Some? && old(instance.outbox) != [] then
                instance.outbox == old(instance.outbox) && repository.Tables() == old(repository.Tables())
                && outbox.messages == old(outbox.messages)
              else
                && instance.outbox == []
                && repository.Tables() == Freed(old(repository.Tables()), instance, instance.instanceId,
                                                instance.Key(), instance.lockId)
                && outbox.messages == Outbox.Added(old(outbox.messages),
                     old(instance.outbox)[..Outbox.NewPrefix(old(outbox.messages), old(instance.outbox))])
      ensures fault.None? ==>
                ((forall k | 0 <= k < |old(instance.outbox)| ::
                  Outbox.Pending(outbox.messages, old(instance.outbox)[k]))
                 <==> Outbox.RestIsThere(old(outbox.messages), old(instance.outbox)))
    {
      Outbox.AppendKeepsAllIff(outbox.messages, instance.outbox);
      hide Outbox.Added, Outbox.NewPrefix, Outbox.RestIsThere;
      if instance.outbox != [] {
        if fault.Some? {
          return fault;
        }
        var _ := outbox.AppendAsync(instance.outbox);
        instance.ClearOutbox();
      }
      error := repository.ReleaseAsync(instance);
    }

    method ReleaseAsync(instance: SagaInstance) returns (error: Option<Error>)
      modifies repository
      ensures repository.Tables()
              == Freed(old(repository.Tables()), instance, instance.instanceId, instance.Key(), instance.lockId)
    {
      error := repository.ReleaseAsync(instance);
    }

    /** One attempt; `instance` is what ResolveInstanceAsync returned. */
    method BeginProcessingCore(context: MessageContext, descriptor: SagaDescriptor, newId: Id, guid: Id, others: Others,
                               ghost done: set<SagaInstance>)
      returns (r: Begun, ghost instance: SagaInstance?)
      requires Filed(repository.Tables())
      modifies repository, InstancesOf(repository.Tables())
      ensures var key := KeyOf(descriptor, context.correlationId);
              var t := old(repository.Tables());
              if key in t.byKey then
                instance == t.byKey[key].state &&
                if old(t.byKey[key].state.CanProcess(context)) then
                  && instance.processedMessages == old(t.byKey[key].state.processedMessages) + others.processed
                  && instance.isCompleted == (old(t.byKey[key].state.isCompleted) || others.completes)
                  && Attempted(others.tables, repository.Tables(), instance, context, guid, r)
                else r == NoOp && repository.Tables() == t && unchanged(t.byKey[key].state)
              else if context.messageType !in descriptor.initiatorTypes then
                r == Threw(ApplicationException) && repository.Tables() == t
              else
                && instance != null && fresh(instance) && instance.Key() == key && instance.instanceId == newId
                && instance.CanProcess(context) && !r.NoOp?
                && Attempted(others.tables, repository.Tables(), instance, context, guid, r)
      ensures instance != null ==> instance.Key() == KeyOf(descriptor, context.correlationId)
      ensures forall i | i in old(InstancesOf(repository.Tables())) && i != instance :: unchanged(i)
      ensures old(AllSettled(done, context.messageId)) ==> AllSettled(done, context.messageId)
    {
      var resolved := ResolveInstanceAsync(context, descriptor, newId);
      if resolved.Failure? {
        return Threw(resolved.error), null;
      }
      var found := resolved.value;
      instance := found;
      if !found.CanProcess(context) {
        return NoOp, instance;
      }
      // no other worker can reach an instance that no table refers to
      var shared := found.Key() in repository.statesByDescriptor
        && repository.statesByDescriptor[found.Key()].state == found;
      OthersRun(found, if shared then others else others.(processed := {}, completes := false));
      var error := found.LockAsync(repository, guid);
      if error.Some? {
        return Threw(error.value), instance;
      }
      if !found.CanProcess(context) {
        error := repository.ReleaseAsync(found);
        assert error.None?;
        return NoOp, instance;
      }
      return Running(found), instance;
    }

    /**
     Lock accounting across both attempts: an instance locked by this call that can still process the message, or no
     lock of this call at all; a no-op only when the message's instance (`settled`) is completed or has it recorded; a
     retry happens exactly on a conflict, never creates an instance, and its failure is reported together with the
     conflict.
     */
    method BeginProcessingAsync(context: MessageContext, descriptor: SagaDescriptor, newId: Id, guid: Id,
                                others: Others,
                                retryId: Id, retryGuid: Id, retryOthers: Others, ghost done: set<SagaInstance>)
      returns (r: Begun, retried: bool, ghost settled: SagaInstance?)
      requires Filed(repository.Tables()) && Filed(others.tables) && Filed(retryOthers.tables)
      requires forall t | t in {repository.Tables(), others.tables, retryOthers.tables} ::
                 CarriesNone(t, guid) && CarriesNone(t, retryGuid)
      requires guid != retryGuid
      modifies repository, InstancesOf(repository.Tables()), InstancesOf(others.tables)
      ensures retried <==> old(ReachesLock(repository.Tables(), context, descriptor)) &&
                           old(Conflicts(repository.Tables(), others.tables, context, descriptor, newId))
      ensures r.Running? ==>
                var i, g, t := r.instance, if retried then retryGuid else guid,
                               if retried then retryOthers.tables else others.tables;
                && i.Key() == KeyOf(descriptor, context.correlationId) && i.lockId == Guid(g)
                && !i.isCompleted && context.messageId !in i.processedMessages
                && repository.Tables() == Taken(t, i, g)
                && (retried ==> i in InstancesOf(others.tables))
                && (!retried ==> i in old(InstancesOf(repository.Tables())) || fresh(i))
      ensures !r.Running? ==> CarriesNone(repository.Tables(), guid) && CarriesNone(repository.Tables(), retryGuid)
      ensures !r.Running? ==>
                || repository.Tables() == old(repository.Tables())
                || SameOrUnlocked(others.tables, repository.Tables(), old(InstancesOf(repository.Tables())))
                || (retried && SameOrUnlocked(retryOthers.tables, repository.Tables(), InstancesOf(others.tables)))
      ensures r.NoOp? ==>
                && Settled(settled, KeyOf(descriptor, context.correlationId), context.messageId)
                && settled in old(InstancesOf(repository.Tables())) + InstancesOf(others.tables)
      ensures r.Threw? ==>
                if retried then r.error in {AggregateException([OptimisticLockException, LockException]),
                                            AggregateException([OptimisticLockException, OptimisticLockException])}
                else r.error in {ApplicationException, LockException}
      ensures old(AllSettled(done, context.messageId)) ==> AllSettled(done, context.messageId)
    {
      ghost var instance: SagaInstance?;
      ghost var t := repository.Tables();
      assert CarriesNone(t, guid) && CarriesNone(t, retryGuid);
      assert CarriesNone(others.tables, guid) && CarriesNone(others.tables, retryGuid);
      assert CarriesNone(retryOthers.tables, guid) && CarriesNone(retryOthers.tables, retryGuid);
      hide CarriesNone, Attempted, Taken, Filed, Unlocked, AllSettled;
      ghost var reached := ReachesLock(t, context, descriptor);
      r, instance := BeginProcessingCore(context, descriptor, newId, guid, others, done);
      if reached {
        AttemptAccounts(others.tables, repository.Tables(), instance, context, guid, retryGuid, r);
      }
      retried := r == Threw(OptimisticLockException);
      settled := instance;
      if retried {
        reached := ReachesLock(others.tables, context, descriptor);
        r, instance := BeginProcessingCore(context, descriptor, retryId, retryGuid, retryOthers, done);
        if reached {
          AttemptAccounts(retryOthers.tables, repository.Tables(), instance, context, retryGuid, guid, r);
        }
        settled := instance;
        if r.Threw? {
          r := Threw(AggregateException([OptimisticLockException, r.error]));
        }
      }
    }

    /** Other workers' steps on the shared objects. */
    method OthersRun(instance: SagaInstance, others: Others)
      modifies repository, instance`processedMessages, instance`isCompleted
      ensures repository.Tables() == others.tables
      ensures instance.processedMessages == old(instance.processedMessages) + others.processed
      ensures instance.isCompleted == (old(instance.isCompleted) || others.completes)
    {
      repository.statesById, repository.statesByDescriptor := others.tables.byId, others.tables.byKey;
      instance.processedMessages := instance.processedMessages + others.processed;
      instance.isCompleted := instance.isCompleted || others.completes;
    }
  }

  /** From the lock on: what an attempt makes of the tables `t`. */
  ghost predicate Attempted(t: Tables<SagaInstance>, t': Tables<SagaInstance>, i: SagaInstance,
                            context: MessageContext, guid: Id, r: Begun)
    reads i
  {
    match TryLock(t, i, i.instanceId, i.Key(), guid)
    case AlreadyLocked => r == Threw(LockException) && t' == t
    case Conflict => r == Threw(OptimisticLockException) && t' == t
    case Granted(granted) =>
      i.lockId == Guid(guid) &&
      if i.CanProcess(context) then r == Running(i) && t' == granted
      else r == NoOp && t' == Freed(granted, i, i.instanceId, i.Key(), Guid(guid))
  }

  /** The first attempt gets as far as the lock. */
  predicate ReachesLock(t: Tables<SagaInstance>, context: MessageContext, descriptor: SagaDescriptor)
    reads if KeyOf(descriptor, context.correlationId) in t.byKey
      then {t.byKey[KeyOf(descriptor, context.correlationId)].state} else {}
  {
    var key := KeyOf(descriptor, context.correlationId);
    if key in t.byKey then t.byKey[key].state.CanProcess(context) else context.messageType in descriptor.initiatorTypes
  }

  /** The key is locked in the tables `t'`, but the instance that was found in `t`, or created, is not. */
  predicate Conflicts(t: Tables<SagaInstance>, t': Tables<SagaInstance>, context: MessageContext,
                      descriptor: SagaDescriptor, newId: Id) {
    var key := KeyOf(descriptor, context.correlationId);
    var id := if key in t.byKey then t.byKey[key].state.instanceId else newId;
    && key in t'.byKey && t'.byKey[key].lockId.Some? && (id in t'.byId ==> t'.byId[id].lockId.None?)
  }

  /** The tables with both entries of `i` locked. */
  function Taken(t: Tables<SagaInstance>, i: SagaInstance, guid: Id): Tables<SagaInstance> {
    LockTables.Tables(t.byId[i.instanceId := Entry(i, Some(guid))], t.byKey[i.Key() := Entry(i, Some(guid))])
  }

  /** Only a running attempt leaves its lock in the tables. */
  lemma AttemptAccounts(t: Tables<SagaInstance>, t': Tables<SagaInstance>, i: SagaInstance, context: MessageContext,
                        guid: Id, g: Id, r: Begun)
    requires Attempted(t, t', i, context, guid, r) && CarriesNone(t, guid) && CarriesNone(t, g)
    ensures r.Running? ==> r.instance == i && t' == Taken(t, i, guid) && i.CanProcess(context) && i.lockId == Guid(guid)
    ensures !r.Running? ==> CarriesNone(t', guid) && CarriesNone(t', g)
    ensures r.Threw? ==> r.error in {LockException, OptimisticLockException} && t' == t
    ensures r.NoOp? ==> t' == Unlocked(t, i)
    ensures r == Threw(OptimisticLockException) <==>
              i.Key() in t.byKey && t.byKey[i.Key()].lockId.Some?
                && (i.instanceId in t.byId ==> t.byId[i.instanceId].lockId.None?)
  {
  }

  ghost predicate SameOrUnlocked(t: Tables<SagaInstance>, t': Tables<SagaInstance>, instances: set<SagaInstance>) {
    t' == t || exists i :: i in instances && t' == Unlocked(t, i)
  }

  /** `t'` has no lock, and no instance but those of `instances`, that `t` has not. */
  ghost predicate Quieter(t: Tables<SagaInstance>, t': Tables<SagaInstance>, instances: set<SagaInstance>) {
    && Filed(t') && InstancesOf(t') <= InstancesOf(t) + instances
    && forall g | CarriesNone(t, g) :: CarriesNone(t', g)
  }

  lemma UnlockedKeeps(t: Tables<SagaInstance>, i: SagaInstance)
    requires Filed(t)
    ensures Quieter(t, Unlocked(t, i), {i})
  {
  }

  lemma SameKeeps(t: Tables<SagaInstance>, t': Tables<SagaInstance>, instances: set<SagaInstance>)
    requires Filed(t) && SameOrUnlocked(t, t', instances)
    ensures Quieter(t, t', instances)
  {
    if t' != t {
      var i :| i in instances && t' == Unlocked(t, i);
      UnlockedKeeps(t, i);
    }
  }

  lemma TakenUnlocked(t: Tables<SagaInstance>, i: SagaInstance, guid: Id)
    ensures Unlocked(Taken(t, i, guid), i) == Unlocked(t, i) && Holds(Taken(t, i, guid), i, guid)
  {
  }

  // ----- Running a message -----

  /** What SagaRunner does not decide in one run. */
  datatype Script = Script(newId: Id, guid: Id, others: Others, retryId: Id, retryGuid: Id, retryOthers: Others,
                           handler: Handler,
                           fault: Option<Error>)

  /** The GUIDs of the script are new, and so are its lock ids to the tables `t`. */
  ghost predicate Fresh(t: Tables<SagaInstance>, script: Script) {
    && Filed(t) && Filed(script.others.tables) && Filed(script.retryOthers.tables) && script.guid != script.retryGuid
    && forall u | u in {t, script.others.tables, script.retryOthers.tables} ::
         CarriesNone(u, script.guid) && CarriesNone(u, script.retryGuid)
  }

  lemma SettledOneByOne(instances: set<SagaInstance>, i: SagaInstance, message: Id)
    ensures AllSettled(instances, message) <==>
            && AllSettled(instances - {i}, message)
            && (i in instances ==> i.isCompleted || message in i.processedMessages)
  {
  }

  class SagaRunner {
    const service: SagaExecutionService
    const manager: MessageHandlerManager

    constructor (service: SagaExecutionService, manager: MessageHandlerManager)
      ensures this.service == service && this.manager == manager
    {
      this.service := service;
      this.manager := manager;
    }

    /**
     However the run ends, no lock of it is left. A run that got its lock fails only by its handler or by the outbox;
     one that ends normally leaves the message's instance (`settled`) completed or with the message recorded.
     */
    method ProcessAsync(context: MessageContext, descriptor: SagaDescriptor, script: Script,
                        ghost done: set<SagaInstance>)
      returns (error: Option<Error>, handled: SagaInstance?, ghost settled: SagaInstance?)
      requires Fresh(service.repository.Tables(), script)
      modifies service.repository, service.outbox, InstancesOf(service.repository.Tables()),
        InstancesOf(script.others.tables)
      ensures Filed(service.repository.Tables())
      ensures fresh(InstancesOf(service.repository.Tables()) - old(InstancesOf(service.repository.Tables()))
                    - InstancesOf(script.others.tables) - InstancesOf(script.retryOthers.tables))
      ensures var t := old(service.repository.Tables());
              forall g | CarriesNone(t, g) && CarriesNone(script.others.tables, g)
                && CarriesNone(script.retryOthers.tables, g) ::
                CarriesNone(service.repository.Tables(), g)
      ensures handled != null ==> handled.Key() == KeyOf(descriptor, context.correlationId) && handled.lockId == Empty
      ensures handled != null && HandlerError(script.handler).Some? ==> error == HandlerError(script.handler)
      ensures handled != null && HandlerError(script.handler).None? && script.fault.None? ==> error.None?
      ensures error.None? ==> Settled(settled, KeyOf(descriptor, context.correlationId), context.messageId)
      ensures handled == null ==> service.outbox.messages == old(service.outbox.messages)
      ensures old(AllSettled(done, context.messageId)) ==> AllSettled(done, context.messageId)
    {
      ghost var t0, t, u := service.repository.Tables(), script.others.tables, script.retryOthers.tables;
      hide Filed, CarriesNone, Unlocked, Taken, Freed, SameOrUnlocked, ReachesLock, Conflicts, Holds, AllSettled,
        AllPending, AllIdsNew, Outbox.Added, Outbox.NewPrefix;
      var begun, retried, instance :=
        service.BeginProcessingAsync(context, descriptor, script.newId, script.guid, script.others,
                                     script.retryId, script.retryGuid, script.retryOthers, done);
      if begun.Running? {
        handled := begun.instance;
        ghost var taken := if retried then u else t;
        TakenUnlocked(taken, handled, handled.lockId.id);
        UnlockedKeeps(taken, handled);
        HolderReleases(Taken(taken, handled, handled.lockId.id), handled, handled.lockId.id);
        SettledOneByOne(done, handled, context.messageId);
        error := handled.ProcessAsync(manager, context, service, script.handler, script.fault);
        SettledOneByOne(done, handled, context.messageId);
        return error, handled, handled;
      }
      if SameOrUnlocked(t, service.repository.Tables(), InstancesOf(t0)) {
        SameKeeps(t, service.repository.Tables(), InstancesOf(t0));
      } else if SameOrUnlocked(u, service.repository.Tables(), InstancesOf(t)) {
        SameKeeps(u, service.repository.Tables(), InstancesOf(t));
      }
      return if begun.Threw? then Some(begun.error) else None, null, instance;
    }
  }

  /** The instance of the saga is completed, or has the message recorded. */
  predicate Settled(i: SagaInstance?, key: SagaKey, message: Id)
    reads i
  {
    i != null && i.Key() == key && (i.isCompleted || message in i.processedMessages)
  }

  /** A release by the holder never throws. */
  lemma HolderReleases(t: Tables<SagaInstance>, i: SagaInstance, guid: Id)
    requires Holds(t, i, guid)
    ensures TryRelease(t, i, i.instanceId, i.Key(), Guid(guid), Guid(guid)).Some?
  {
  }

  /** The scripts' lock ids are all new, and new to each other's tables. */
  ghost predicate AllFresh(t: Tables<SagaInstance>, scripts: seq<Script>, n: nat)
    requires n <= |scripts|
  {
    Filed(t) && forall k | n <= k < |scripts| :: CarriesNone(t, scripts[k].guid) && CarriesNone(t, scripts[k].retryGuid)
  }

  ghost predicate Independent(scripts: seq<Script>) {
    forall j, k | 0 <= j < |scripts| && 0 <= k < |scripts| ::
      Fresh(scripts[j].others.tables, scripts[k]) && Fresh(scripts[j].retryOthers.tables, scripts[k])
  }

  lemma NextFresh(t: Tables<SagaInstance>, scripts: seq<Script>, n: nat)
    requires n < |scripts| && AllFresh(t, scripts, n) && Independent(scripts)
    ensures Fresh(t, scripts[n])
  {
    hide CarriesNone, Filed;
    assert Fresh(scripts[n].others.tables, scripts[n]);
  }

  /** A run that adds no lock id to the tables keeps them fresh for the scripts that follow. */
  lemma StayFresh(t: Tables<SagaInstance>, t': Tables<SagaInstance>, scripts: seq<Script>, n: nat)
    requires n < |scripts| && AllFresh(t, scripts, n) && Independent(scripts) && Filed(t')
    requires forall g | CarriesNone(t, g) && CarriesNone(scripts[n].others.tables, g)
               && CarriesNone(scripts[n].retryOthers.tables, g) :: CarriesNone(t', g)
    ensures AllFresh(t', scripts, n + 1)
  {
    hide CarriesNone, Filed;
    forall k | n < k < |scripts|
      ensures CarriesNone(t', scripts[k].guid) && CarriesNone(t', scripts[k].retryGuid)
    {
      assert Fresh(scripts[n].others.tables, scripts[k]);
    }
  }

  /** The instances of the runs that ended normally. */
  ghost function Done(outcomes: seq<Option<Error>>, settled: seq<SagaInstance?>): set<SagaInstance>
    requires |settled| == |outcomes|
  {
    if outcomes == [] then {}
    else
      var n := |outcomes| - 1;
      Done(outcomes[..n], settled[..n]) + (if outcomes[n].None? && settled[n] != null then {settled[n]} else {})
  }

  lemma OneMoreDone(outcomes: seq<Option<Error>>, settled: seq<SagaInstance?>, o: Option<Error>, i: SagaInstance?,
                    message: Id)
    requires |settled| == |outcomes| && AllSettled(Done(outcomes, settled), message)
    requires o.None? ==> i != null && (i.isCompleted || message in i.processedMessages)
    ensures AllSettled(Done(outcomes + [o], settled + [i]), message)
  {
    assert (outcomes + [o])[..|outcomes|] == outcomes && (settled + [i])[..|settled|] == settled;
  }

  lemma {:induction false} EveryDone(outcomes: seq<Option<Error>>, settled: seq<SagaInstance?>, message: Id)
    requires |settled| == |outcomes| && AllSettled(Done(outcomes, settled), message)
    ensures forall k | 0 <= k < |outcomes| && outcomes[k].None? && settled[k] != null ::
              settled[k].isCompleted || message in settled[k].processedMessages
  {
    if outcomes != [] {
      EveryDone(outcomes[..|outcomes| - 1], settled[..|outcomes| - 1], message);
    }
  }

  class MessageDispatcher {
    constructor () {}

    /**
     One run per descriptor, in order; `outcomes` are the runs that took place. A SagaException does not stop the
     delivery; any other exception ends it at once and is the delivery's.
     */
    method DispatchAsync(context: MessageContext, runner: SagaRunner, descriptors: seq<SagaDescriptor>,
                         scripts: seq<Script>,
                         ghost instances: set<SagaInstance>)
      returns (error: Option<Error>, outcomes: seq<Option<Error>>, ghost settled: seq<SagaInstance?>)
      requires |scripts| == |descriptors| && Independent(scripts)
      requires AllFresh(runner.service.repository.Tables(), scripts, 0)
      requires InstancesOf(runner.service.repository.Tables()) <= instances
      requires forall k | 0 <= k < |scripts| ::
                 InstancesOf(scripts[k].others.tables) <= instances
                   && InstancesOf(scripts[k].retryOthers.tables) <= instances
      modifies runner.service.repository, runner.service.outbox, instances
      ensures |outcomes| <= |descriptors|
      ensures error.None? ==>
                |outcomes| == |descriptors| && forall o | o in outcomes && o.Some? :: o.value.SagaException?
      ensures error.Some? ==>
                && outcomes != [] && outcomes[|outcomes| - 1] == error && !error.value.SagaException?
                && forall k | 0 <= k < |outcomes| - 1 && outcomes[k].Some? :: outcomes[k].value.SagaException?
      // each run that took place has settled its saga, and left it so to the end, unless it raised an exception
      ensures |settled| == |outcomes|
      ensures forall k | 0 <= k < |outcomes| && outcomes[k].None? ::
                && settled[k] != null && settled[k].Key() == KeyOf(descriptors[k], context.correlationId)
                && (settled[k].isCompleted || context.messageId in settled[k].processedMessages)
      ensures forall g | old(CarriesNone(runner.service.repository.Tables(), g)) &&
                         (forall k | 0 <= k < |scripts| :: NewTo(scripts[k], g)) ::
                CarriesNone(runner.service.repository.Tables(), g)
    {
      outcomes, settled := [], [];
      for n := 0 to |descriptors|
        invariant |outcomes| == n && forall o | o in outcomes && o.Some? :: o.value.SagaException?
        invariant |settled| == n
        invariant AllSettled(Done(outcomes, settled), context.messageId)
        invariant forall k | 0 <= k < n && outcomes[k].None? ::
                    settled[k] != null && settled[k].Key() == KeyOf(descriptors[k], context.correlationId)
        invariant AllFresh(runner.service.repository.Tables(), scripts, n)
        invariant fresh(InstancesOf(runner.service.repository.Tables()) - instances)
        invariant forall g | old(CarriesNone(runner.service.repository.Tables(), g)) &&
                             (forall k | 0 <= k < |scripts| :: NewTo(scripts[k], g)) ::
                    CarriesNone(runner.service.repository.Tables(), g)
      {
        hide CarriesNone, Filed, Done, AllSettled, AllFresh, Independent, Fresh;
        ghost var done, t := Done(outcomes, settled), runner.service.repository.Tables();
        NextFresh(t, scripts, n);
        var outcome, _, instance := runner.ProcessAsync(context, descriptors[n], scripts[n], done);
        StayFresh(t, runner.service.repository.Tables(), scripts, n);
        OneMoreDone(outcomes, settled, outcome, instance, context.messageId);
        outcomes, settled := outcomes + [outcome], settled + [instance];
        if outcome.Some? && !outcome.value.SagaException? {
          EveryDone(outcomes, settled, context.messageId);
          return outcome, outcomes, settled;
        }
      }
      EveryDone(outcomes, settled, context.messageId);
      return None, outcomes, settled;
    }
  }

  predicate NewTo(script: Script, guid: Id) {
    CarriesNone(script.others.tables, guid) && CarriesNone(script.retryOthers.tables, guid)
  }
}
