/**
 No committed output is lost: what a handler published is pending in the outbox or already
 relayed once its commit has released the lock, for every interleaving with the relays.
 */
module ProtocolOutput {
  import opened Messages
  import opened LockTables
  import opened SagaProtocol
  import opened ProtocolInvariant
  import opened ProtocolTheorems
  import opened ProtocolRuns

  /** Envelopes get fresh ids: no idempotency key is reused. */
  predicate FreshStep(s: State, a: Action) {
    a.Publish? || a.BusPublish? ==> a.envelope.messageId !in s.issued
  }

  predicate Issued(s: State, e: Envelope) {
    e.messageId in s.issued && s.issued[e.messageId] == e
  }

  /** The envelope waits in the outbox or has been written to the channel. */
  predicate Accounted(s: State, e: Envelope) {
    (e.messageId in s.pending && s.pending[e.messageId] == e) || e in s.relayed
  }

  predicate IsLocked(s: State, i: Id) {
    i in s.tables.byId && s.tables.byId[i].lockId.Some?
  }

  /** An instance's outgoing envelopes: those a running commit has appended, then those it has not. */
  ghost predicate InstanceOut(s: State, i: Id)
    requires i in s.instances
  {
    var x := s.instances[i];
    && x.appended <= |x.outbox|
    && (x.appended == 0 || IsLocked(s, i))
    && (forall k | 0 <= k < |x.outbox| :: Issued(s, x.outbox[k]) && x.outbox[k].senderId == i)
    && (forall j, k | 0 <= j < k < |x.outbox| :: x.outbox[j].messageId != x.outbox[k].messageId)
    && (forall k | 0 <= k < x.appended :: Accounted(s, x.outbox[k]))
    && (forall k | x.appended <= k < |x.outbox| :: x.outbox[k].messageId !in s.appendedIds)
  }

  /** Where a worker is with the envelopes of its handler. */
  datatype Stage = Early | Filling | Cleared | Past

  function StageOf(pc: Pc): Stage {
    match pc
    case Finding(_) => Early
    case Missing(_) => Early
    case Found(_, _) => Early
    case Locking(_, _) => Early
    case Storing(_, _, _) => Early
    case Rechecking(_, _, _) => Early
    case Handling(_, _) => Filling
    case Handled(_, _) => Filling
    case Appending(_, _, _, _) => Filling
    case Releasing(_, _) => Cleared
    case _ => Past
  }

  /** How many envelopes of its instance a worker's commit has appended. */
  function Count(pc: Pc): nat {
    if pc.Appending? then pc.next else 0
  }

  ghost predicate WorkerOut(s: State, w: Worker) {
    && (StageOf(w.pc).Early? ==> w.published == {})
    && (StageOf(w.pc).Filling? ==> InOutbox(s, w, w.pc.instance))
    && (StageOf(w.pc).Cleared? ==> forall e | e in w.published :: Issued(s, e) && Accounted(s, e))
    && (Holding(w.pc) ==> w.pc.instance in s.instances && s.instances[w.pc.instance].appended == Count(w.pc))
    && (w.pc.Releasing? ==> s.instances[w.pc.instance].outbox == [])
    && !(w.pc.Appending? && w.pc.stopped)
  }

  ghost predicate InOutbox(s: State, w: Worker, i: Id) {
    i in s.instances && forall e | e in w.published :: e in s.instances[i].outbox
  }

  ghost predicate PendingOut(s: State) {
    && s.appendedIds <= s.issued.Keys
    && (forall id | id in s.pending :: s.pending[id].messageId == id && Issued(s, s.pending[id]) && id in s.appendedIds)
  }

  ghost predicate RelayOut(s: State, relay: Relay) {
    match relay
    case Idle => true
    case Sending(rest) => forall e | e in rest :: Issued(s, e)
    case Deleting(rest) => rest != [] && rest[0] in s.relayed && forall e | e in rest :: Issued(s, e)
  }

  ghost predicate OutInv(s: State) {
    && (forall i | i in s.instances :: InstanceOut(s, i))
    && (forall w | w in s.workers :: WorkerOut(s, s.workers[w]))
    && PendingOut(s)
    && (forall r | r in s.relays :: RelayOut(s, s.relays[r]))
    && (forall e | e in s.delivered :: Issued(s, e) && Accounted(s, e))
  }

  // ----- Steps only ever add to what is issued and accounted for -----

  ghost predicate OutGrows(s: State, s': State) {
    && (forall id | id in s.issued :: id in s'.issued && s'.issued[id] == s.issued[id])
    && (forall e | Issued(s, e) && Accounted(s, e) :: Accounted(s', e))
    && s.relayed <= s'.relayed
  }

  lemma InstanceKeeps(s: State, s': State, i: Id)
    requires i in s.instances && InstanceOut(s, i) && OutGrows(s, s')
    requires i in s'.instances && s'.instances[i] == s.instances[i]
    requires s.instances[i].appended == 0 || IsLocked(s', i)
    requires forall k | 0 <= k < |s.instances[i].outbox| ::
               s.instances[i].outbox[k].messageId in s'.appendedIds ==>
                 s.instances[i].outbox[k].messageId in s.appendedIds
    ensures InstanceOut(s', i)
  {
  }

  lemma WorkerKeeps(s: State, s': State, w: Worker)
    requires WorkerOut(s, w) && OutGrows(s, s')
    requires Holding(w.pc) ==> w.pc.instance in s.instances && w.pc.instance in s'.instances
                               && s'.instances[w.pc.instance].outbox == s.instances[w.pc.instance].outbox
                               && s'.instances[w.pc.instance].appended == s.instances[w.pc.instance].appended
    ensures WorkerOut(s', w)
  {
  }

  lemma RelayKeeps(s: State, s': State, relay: Relay)
    requires RelayOut(s, relay) && OutGrows(s, s')
    ensures RelayOut(s', relay)
  {
  }

  lemma DeliveredKeeps(s: State, s': State)
    requires (forall e | e in s.delivered :: Issued(s, e) && Accounted(s, e)) && OutGrows(s, s')
    ensures forall e | e in s.delivered :: Issued(s', e) && Accounted(s', e)
  {
  }

  // ----- Steps that touch no envelope -----

  /** The step leaves every outbox, the relays and the records of envelopes alone. */
  ghost predicate OutQuiet(s: State, s': State, w: Id) {
    && s'.pending == s.pending && s'.relays == s.relays && s'.issued == s.issued && s'.appendedIds == s.appendedIds
    && s'.relayed == s.relayed && MovesOnly(s, s', w)
    && (forall i | i in s.instances :: i in s'.instances && SameOutbox(s.instances[i], s'.instances[i]))
    && (forall i | i in s'.instances && i !in s.instances ::
        s'.instances[i].outbox == [] && s'.instances[i].appended == 0)
    && (forall i | i in s.instances && IsLocked(s, i) && s.instances[i].appended != 0 :: IsLocked(s', i))
  }

  predicate AtRest(s: State, i: Id) {
    i in s.instances && s.instances[i].appended == 0
  }

  predicate SameOutbox(x: Instance, y: Instance) {
    x.outbox == y.outbox && x.appended == y.appended
  }

  /** A worker's own move: its stage does not change, or it drops out, or its handler is about to start. */
  predicate QuietMove(pc: Pc, pc': Pc) {
    && (StageOf(pc') == StageOf(pc) || StageOf(pc').Past? || (pc.Rechecking? && pc'.Handling?))
    && (Holding(pc') ==>
          (Holding(pc) || (pc.Locking? && pc'.Storing?)) && pc'.instance == pc.instance && Count(pc') == Count(pc))
    && !(pc'.Appending? && pc'.stopped)
  }

  /** A step whose effect on envelopes is only the worker's own move. */
  ghost predicate Quiet(s: State, s': State, w: Id) {
    && OutQuiet(s, s', w) && s'.workers[w].published == s.workers[w].published
    && QuietMove(s.workers[w].pc, s'.workers[w].pc)
    && s.delivered <= s'.delivered <= s.delivered + (if s.workers[w].pc.Releasing? then s.workers[w].published else {})
    && (s'.workers[w].pc.Storing?
        ==> !IsLocked(s, s'.workers[w].pc.instance) && s'.workers[w].pc.instance in s.instances)
  }

  lemma QuietKeeps(s: State, s': State, w: Id)
    requires Inv(s) && OutInv(s) && Quiet(s, s', w)
    ensures OutInv(s')
  {
    EveryWorker(s);
    assert s'.workers[w].pc.Storing? ==> InstanceOut(s, s'.workers[w].pc.instance);
    hide Inv, WorkerOk, QuietMove, OutQuiet;
    QuietDelivered(s, s', w);
    hide WorkerOut, InstanceOut, RelayOut, PendingOut, Issued, Accounted;
    QuietWorkers(s, s', w);
    QuietInstances(s, s', w);
    QuietRest(s, s', w);
  }

  lemma QuietDelivered(s: State, s': State, w: Id)
    requires Quiet(s, s', w) && WorkerOut(s, s.workers[w])
    requires forall e | e in s.delivered :: Issued(s, e) && Accounted(s, e)
    ensures forall e | e in s'.delivered :: Issued(s, e) && Accounted(s, e)
  {
    hide OutQuiet, QuietMove;
  }

  lemma QuietInstances(s: State, s': State, w: Id)
    requires (forall i | i in s.instances :: InstanceOut(s, i)) && OutQuiet(s, s', w)
    ensures forall i | i in s'.instances :: InstanceOut(s', i)
  {
    forall i | i in s'.instances
      ensures InstanceOut(s', i)
    {
      if i in s.instances {
        assert InstanceOut(s, i);
      }
    }
  }

  lemma QuietRest(s: State, s': State, w: Id)
    requires PendingOut(s) && (forall r | r in s.relays :: RelayOut(s, s.relays[r])) && OutQuiet(s, s', w)
    requires forall e | e in s'.delivered :: Issued(s, e) && Accounted(s, e)
    ensures PendingOut(s') && (forall r | r in s'.relays :: RelayOut(s', s'.relays[r]))
    ensures forall e | e in s'.delivered :: Issued(s', e) && Accounted(s', e)
  {
    forall r | r in s'.relays
      ensures RelayOut(s', s'.relays[r])
    {
      RelayKeeps(s, s', s.relays[r]);
    }
  }

  lemma QuietWorkers(s: State, s': State, w: Id)
    requires forall v | v in s.workers :: WorkerOk(s, s.workers[v])
    requires (forall v | v in s.workers :: WorkerOut(s, s.workers[v])) && OutQuiet(s, s', w)
    requires QuietMove(s.workers[w].pc, s'.workers[w].pc) && s'.workers[w].published == s.workers[w].published
    requires s.workers[w].pc.Locking? && s'.workers[w].pc.Storing? ==> AtRest(s, s.workers[w].pc.instance)
    ensures forall v | v in s'.workers :: WorkerOut(s', s'.workers[v])
  {
    forall v | v in s'.workers
      ensures WorkerOut(s', s'.workers[v])
    {
      assert WorkerOk(s, s.workers[v]) && WorkerOut(s, s.workers[v]);
      hide QuietMove;
      if v != w {
        WorkerKeeps(s, s', s.workers[v]);
      } else {
        WorkerMoves(s, s', w);
      }
    }
  }

  lemma WorkerMoves(s: State, s': State, w: Id)
    requires OutQuiet(s, s', w) && WorkerOut(s, s.workers[w])
    requires QuietMove(s.workers[w].pc, s'.workers[w].pc) && s'.workers[w].published == s.workers[w].published
    requires s.workers[w].pc.Locking? && s'.workers[w].pc.Storing? ==> AtRest(s, s.workers[w].pc.instance)
    requires s.workers[w].pc.Rechecking? ==> s.workers[w].pc.instance in s.instances
    ensures WorkerOut(s', s'.workers[w])
  {
  }

  lemma MoveQuiet(s: State, w: Id, pc: Pc)
    requires w in s.workers && QuietMove(s.workers[w].pc, pc) && !pc.Storing?
    ensures Quiet(s, Move(s, w, pc), w)
  {
  }

  lemma PutQuiet(s: State, w: Id, i: Id, x: Instance, pc: Pc)
    requires w in s.workers && i in s.instances && SameOutbox(s.instances[i], x) && QuietMove(s.workers[w].pc, pc)
    requires !pc.Storing?
    ensures Quiet(s, Move(Put(s, i, x), w, pc), w)
  {
  }

  lemma TablesQuiet(s: State, t: State, w: Id, pc: Pc)
    requires w in s.workers && QuietMove(s.workers[w].pc, pc)
    requires t == s.(tables := t.tables, owner := t.owner, grantedTo := t.grantedTo, commits := t.commits,
                     delivered := t.delivered)
    requires forall i | i in s.instances && IsLocked(s, i) && s.instances[i].appended != 0 :: IsLocked(t, i)
    requires s.delivered <= t.delivered
    requires t.delivered <= s.delivered + (if s.workers[w].pc.Releasing? then s.workers[w].published else {})
    requires pc.Storing? ==> !IsLocked(s, pc.instance) && pc.instance in s.instances
    ensures Quiet(s, Move(t, w, pc), w)
  {
  }

  lemma FindOut(s: State, w: Id, s': State)
    requires w in s.workers && FindStep(s, w) == Some(s')
    ensures Quiet(s, s', w)
  {
    hide Quiet;
    var k := s.workers[w].Key();
    if k in s.tables.byKey {
      MoveQuiet(s, w, Found(s.workers[w].pc.retry, s.tables.byKey[k].state));
    } else {
      MoveQuiet(s, w, Missing(s.workers[w].pc.retry));
    }
  }

  lemma ResolveOut(s: State, w: Id, i: Id, s': State)
    requires w in s.workers && ResolveStep(s, w, i) == Some(s')
    ensures Quiet(s, s', w)
  {
    if !s.workers[w].IsInitiator() {
      hide Quiet;
      MoveQuiet(s, w, Done(Refusal(s.workers[w].pc.retry, ApplicationException)));
    } else {
      assert QuietMove(s.workers[w].pc, Found(s.workers[w].pc.retry, i));
    }
  }

  lemma CheckOut(s: State, w: Id, s': State)
    requires w in s.workers && CheckStep(s, w) == Some(s')
    ensures Quiet(s, s', w)
  {
    hide Quiet;
    var pc := s.workers[w].pc;
    if CanProcess(s, pc.instance, s.workers[w]) {
      MoveQuiet(s, w, Locking(pc.retry, pc.instance));
    } else {
      MoveQuiet(s, w, Done(NoOp(pc.instance)));
    }
  }

  lemma GrantOut(s: State, w: Id, l: Id, s': State)
    requires w in s.workers && GrantStep(s, w, l) == Some(s')
    ensures Quiet(s, s', w)
  {
    hide Quiet;
    var pc := s.workers[w].pc;
    match TryLock(s.tables, pc.instance, pc.instance, s.keyOf[pc.instance], l)
    case Granted(t) =>
      TablesQuiet(s, s.(tables := t, owner := s.owner[l := w], grantedTo := s.grantedTo + {pc.instance}), w,
                  Storing(pc.retry, pc.instance, l));
    case AlreadyLocked => MoveQuiet(s, w, Done(Refusal(pc.retry, LockException)));
    case Conflict =>
      MoveQuiet(s, w, if pc.retry then Done(Refusal(true, OptimisticLockException)) else Finding(true));
  }

  lemma StoreOut(s: State, w: Id, s': State)
    requires w in s.workers && StoreStep(s, w) == Some(s')
    ensures Quiet(s, s', w)
  {
    hide Quiet;
    var pc := s.workers[w].pc;
    PutQuiet(s, w, pc.instance, s.instances[pc.instance].(lockId := Guid(pc.lockId)),
             Rechecking(pc.retry, pc.instance, pc.lockId));
  }

  lemma RecheckOut(s: State, w: Id, s': State)
    requires w in s.workers && RecheckStep(s, w) == Some(s')
    ensures Quiet(s, s', w)
  {
    hide Quiet;
    var pc := s.workers[w].pc;
    if CanProcess(s, pc.instance, s.workers[w]) {
      MoveQuiet(s, w, Handling(pc.instance, pc.lockId));
    } else {
      MoveQuiet(s, w, BackingOff(pc.retry, pc.instance, pc.lockId));
    }
  }

  lemma CompleteOut(s: State, w: Id, s': State)
    requires w in s.workers && CompleteStep(s, w) == Some(s')
    ensures Quiet(s, s', w)
  {
  }

  lemma HandlerOut(s: State, w: Id, error: Option<Error>, s': State)
    requires w in s.workers && HandlerStep(s, w, error) == Some(s')
    ensures Quiet(s, s', w)
  {
    hide Quiet;
    var pc := s.workers[w].pc;
    if error.None? {
      MoveQuiet(s, w, Handled(pc.instance, pc.lockId));
    } else {
      MoveQuiet(s, w, Catching(pc.instance, pc.lockId, error.value));
    }
  }

  lemma RecordOut(s: State, w: Id, s': State)
    requires w in s.workers && RecordStep(s, w) == Some(s')
    ensures Quiet(s, s', w)
  {
    hide Quiet;
    var pc := s.workers[w].pc;
    var x := s.instances[pc.instance];
    var m := s.workers[w].context.messageId;
    if m in x.processed {
      MoveQuiet(s, w, Catching(pc.instance, pc.lockId, InvalidOperationException));
    } else {
      PutQuiet(s, w, pc.instance, x.(processed := x.processed + {m}), Appending(pc.instance, pc.lockId, 0, false));
    }
  }

  /** An append that throws has added nothing: the instance outbox waits for the next commit. */
  lemma AppendThrowsOut(s: State, w: Id, e: Error, s': State)
    requires w in s.workers && AppendThrowsStep(s, w, e) == Some(s')
    ensures Quiet(s, s', w)
  {
    MoveQuiet(s, w, Catching(s.workers[w].pc.instance, s.workers[w].pc.lockId, e));
  }

  lemma CatchOut(s: State, w: Id, s': State)
    requires w in s.workers && CatchStep(s, w) == Some(s')
    ensures Quiet(s, s', w)
  {
    hide Quiet;
    var pc := s.workers[w].pc;
    if s.instances[pc.instance].lockId.Guid? {
      MoveQuiet(s, w, Rescuing(pc.instance, pc.lockId, pc.error));
    } else {
      MoveQuiet(s, w, Leaked(pc.instance, pc.lockId, Failed(pc.error)));
    }
  }

  lemma ClearOut(s: State, w: Id, s': State)
    requires w in s.workers && ClearStep(s, w) == Some(s')
    ensures Quiet(s, s', w)
  {
    hide Quiet;
    var pc := s.workers[w].pc;
    PutQuiet(s, w, pc.instance, s.instances[pc.instance].(lockId := Empty), Done(pc.outcome));
  }

  lemma BackOffOut(s: State, w: Id, guard: LockField, s': State)
    requires w in s.workers && WorkerOut(s, s.workers[w]) && BackOffStep(s, w, guard) == Some(s')
    ensures Quiet(s, s', w)
  {
    hide Quiet;
    var pc := s.workers[w].pc;
    match ReleaseOf(s, pc.instance, guard)
    case Some(t) => TablesQuiet(s, s.(tables := t), w, Done(NoOp(pc.instance)));
    case None => MoveQuiet(s, w, Leaked(pc.instance, pc.lockId, Refusal(pc.retry, LockException)));
  }

  lemma RescueOut(s: State, w: Id, guard: LockField, s': State)
    requires w in s.workers && WorkerOut(s, s.workers[w]) && RescueStep(s, w, guard) == Some(s')
    ensures Quiet(s, s', w)
  {
    hide Quiet;
    var pc := s.workers[w].pc;
    match ReleaseOf(s, pc.instance, guard)
    case Some(t) => TablesQuiet(s, s.(tables := t), w, Clearing(pc.instance, Failed(pc.error)));
    case None =>
      PutQuiet(s, w, pc.instance, s.instances[pc.instance].(lockId := Empty),
               Leaked(pc.instance, pc.lockId, Failed(pc.error)));
  }

  lemma CommitOut(s: State, w: Id, guard: LockField, s': State)
    requires w in s.workers && WorkerOut(s, s.workers[w]) && CommitStep(s, w, guard) == Some(s')
    ensures Quiet(s, s', w)
  {
    hide Quiet;
    var pc := s.workers[w].pc;
    match ReleaseOf(s, pc.instance, guard)
    case Some(t) =>
      TablesQuiet(s, s.(tables := t, commits := s.commits + [Commit(pc.instance, s.workers[w].context.messageId)],
                        delivered := s.delivered + s.workers[w].published),
                  w, Clearing(pc.instance, Committed(pc.instance)));
    case None => MoveQuiet(s, w, Catching(pc.instance, pc.lockId, LockException));
  }

  // ----- Steps of the holder that publish, append or clear -----

  /** The holder of an instance changes that instance's outbox and nobody else's. */
  ghost predicate HolderOut(s: State, s': State, w: Id) {
    && MovesOnly(s, s', w) && Holding(s.workers[w].pc)
    && var i := s.workers[w].pc.instance;
    && i in s.instances && i in s'.instances && s'.instances == s.instances[i := s'.instances[i]]
    && s'.tables == s.tables && s'.relays == s.relays && s'.delivered == s.delivered
    && OutGrows(s, s')
    && (forall id | id in s'.appendedIds && id !in s.appendedIds :: id !in s.issued || s.issued[id].senderId == i)
  }

  lemma HolderKeeps(s: State, s': State, w: Id)
    requires Inv(s) && OutInv(s) && HolderOut(s, s', w)
    requires InstanceOut(s', s.workers[w].pc.instance) && WorkerOut(s', s'.workers[w]) && PendingOut(s')
    ensures OutInv(s')
  {
    hide Inv, WorkerOk, NotHeldByOthers, InstanceOut, WorkerOut, PendingOut, RelayOut;
    EveryWorker(s);
    MutualExclusion(s, w);
    HolderInstances(s, s', w);
    HolderWorkers(s, s', w);
    RelaysKeep(s, s');
    DeliveredKeeps(s, s');
  }

  lemma RelaysKeep(s: State, s': State)
    requires OutGrows(s, s') && s'.relays == s.relays && forall r | r in s.relays :: RelayOut(s, s.relays[r])
    ensures forall r | r in s'.relays :: RelayOut(s', s'.relays[r])
  {
    hide RelayOut, OutGrows;
    forall r | r in s'.relays
      ensures RelayOut(s', s'.relays[r])
    {
      RelayKeeps(s, s', s.relays[r]);
    }
  }

  lemma HolderInstances(s: State, s': State, w: Id)
    requires (forall i | i in s.instances :: InstanceOut(s, i)) && HolderOut(s, s', w)
    requires InstanceOut(s', s.workers[w].pc.instance)
    ensures forall i | i in s'.instances :: InstanceOut(s', i)
  {
    forall i | i in s'.instances
      ensures InstanceOut(s', i)
    {
      if i != s.workers[w].pc.instance {
        assert InstanceOut(s, i);
        InstanceKeeps(s, s', i);
      }
    }
  }

  lemma HolderWorkers(s: State, s': State, w: Id)
    requires forall v | v in s.workers :: WorkerOut(s, s.workers[v])
    requires forall v | v in s.workers :: WorkerOk(s, s.workers[v])
    requires HolderOut(s, s', w) && NotHeldByOthers(s, w, {s.workers[w].pc.instance}) && WorkerOut(s', s'.workers[w])
    ensures forall v | v in s'.workers :: WorkerOut(s', s'.workers[v])
  {
    forall v | v in s'.workers
      ensures WorkerOut(s', s'.workers[v])
    {
      if v != w {
        assert WorkerOk(s, s.workers[v]);
        WorkerKeeps(s, s', s.workers[v]);
      }
    }
  }

  lemma PublishOut(s: State, w: Id, e: Envelope, s': State)
    requires Inv(s) && OutInv(s) && w in s.workers && e.messageId !in s.issued && PublishStep(s, w, e) == Some(s')
    ensures OutInv(s') && s.delivered <= s'.delivered
  {
    var i := s.workers[w].pc.instance;
    assert InstanceOut(s, i) && WorkerOut(s, s.workers[w]);
    hide Inv;
    PublishGrows(s, w, e, s');
    hide PublishStep;
    HolderKeeps(s, s', w);
  }

  lemma PublishGrows(s: State, w: Id, e: Envelope, s': State)
    requires w in s.workers && e.messageId !in s.issued && PublishStep(s, w, e) == Some(s')
    requires InstanceOut(s, s.workers[w].pc.instance) && WorkerOut(s, s.workers[w]) && PendingOut(s)
    ensures HolderOut(s, s', w)
    ensures InstanceOut(s', s.workers[w].pc.instance) && WorkerOut(s', s'.workers[w]) && PendingOut(s')
  {
  }

  lemma AppendOut(s: State, w: Id, s': State)
    requires Inv(s) && OutInv(s) && w in s.workers && AppendStep(s, w) == Some(s')
    ensures OutInv(s') && s.delivered <= s'.delivered
  {
    EveryWorker(s);
    var i := s.workers[w].pc.instance;
    assert InstanceOut(s, i) && WorkerOut(s, s.workers[w]);
    assert HoldsLock(s.tables.byId, w, s.workers[w].pc, s.owner);
    hide Inv, WorkerOk;
    AppendGrows(s, w, s');
    AppendFills(s, w, s');
    hide AppendStep;
    HolderKeeps(s, s', w);
  }

  /** The next envelope of a commit is never a duplicate. */
  function Appended(s: State, w: Id): State
    requires w in s.workers && s.workers[w].pc.Appending? && s.workers[w].pc.instance in s.instances
    requires s.workers[w].pc.next < |s.instances[s.workers[w].pc.instance].outbox|
  {
    var pc := s.workers[w].pc;
    var x := s.instances[pc.instance];
    var e := x.outbox[pc.next];
    Move(Put(s, pc.instance, x.(appended := pc.next + 1)), w, Appending(pc.instance, pc.lockId, pc.next + 1, false))
      .(pending := s.pending[e.messageId := e], appendedIds := s.appendedIds + {e.messageId})
  }

  lemma NotDuplicate(s: State, w: Id, s': State)
    requires w in s.workers && AppendStep(s, w) == Some(s')
    requires InstanceOut(s, s.workers[w].pc.instance) && WorkerOut(s, s.workers[w]) && PendingOut(s)
    ensures s' == Appended(s, w)
  {
    var pc := s.workers[w].pc;
    assert s.instances[pc.instance].outbox[pc.next].messageId !in s.appendedIds;
  }

  lemma AppendGrows(s: State, w: Id, s': State)
    requires w in s.workers && AppendStep(s, w) == Some(s')
    requires InstanceOut(s, s.workers[w].pc.instance) && WorkerOut(s, s.workers[w]) && PendingOut(s)
    ensures HolderOut(s, s', w) && PendingOut(s')
  {
    NotDuplicate(s, w, s');
    hide AppendStep, WorkerOut;
  }

  lemma AppendFills(s: State, w: Id, s': State)
    requires w in s.workers && AppendStep(s, w) == Some(s')
    requires InstanceOut(s, s.workers[w].pc.instance) && WorkerOut(s, s.workers[w]) && PendingOut(s)
    requires IsLocked(s, s.workers[w].pc.instance)
    ensures InstanceOut(s', s.workers[w].pc.instance) && WorkerOut(s', s'.workers[w])
  {
    NotDuplicate(s, w, s');
    hide AppendStep;
  }

  lemma ClearOutboxOut(s: State, w: Id, s': State)
    requires Inv(s) && OutInv(s) && w in s.workers && ClearOutboxStep(s, w) == Some(s')
    ensures OutInv(s') && s.delivered <= s'.delivered
  {
    EveryWorker(s);
    assert InstanceOut(s, s.workers[w].pc.instance) && WorkerOut(s, s.workers[w]);
    hide Inv, WorkerOk;
    ClearedAll(s, w, s');
    hide ClearOutboxStep;
    HolderKeeps(s, s', w);
  }

  lemma ClearedAll(s: State, w: Id, s': State)
    requires w in s.workers && ClearOutboxStep(s, w) == Some(s')
    requires InstanceOut(s, s.workers[w].pc.instance) && WorkerOut(s, s.workers[w]) && PendingOut(s)
    ensures HolderOut(s, s', w)
    ensures InstanceOut(s', s.workers[w].pc.instance) && WorkerOut(s', s'.workers[w]) && PendingOut(s')
  {
    var pc := s.workers[w].pc;
    assert s' == Move(Put(s, pc.instance, s.instances[pc.instance].(outbox := [], appended := 0)), w,
                      Releasing(pc.instance, pc.lockId));
    hide ClearOutboxStep;
  }

  // ----- The bus and the relays -----

  /** A step outside the workers, which appends only fresh ids and relays only issued envelopes. */
  ghost predicate OutsideOut(s: State, s': State) {
    && s'.instances == s.instances && s'.tables == s.tables && s'.delivered == s.delivered
    && OutGrows(s, s') && (forall id | id in s'.appendedIds && id !in s.appendedIds :: id !in s.issued)
  }

  lemma OutsideOutKeeps(s: State, s': State)
    requires Inv(s) && OutInv(s) && OutsideOut(s, s') && PendingOut(s')
    requires forall v | v in s.workers :: v in s'.workers && s'.workers[v] == s.workers[v]
    requires forall v | v in s'.workers && v !in s.workers ::
             s'.workers[v].pc == Finding(false) && s'.workers[v].published == {}
    requires forall r | r in s'.relays :: RelayOut(s', s'.relays[r])
    ensures OutInv(s')
  {
    EveryWorker(s);
    hide Inv, PendingOut, RelayOut;
    forall v | v in s'.workers
      ensures WorkerOut(s', s'.workers[v])
    {
      if v in s.workers {
        assert WorkerOk(s, s.workers[v]);
        WorkerKeeps(s, s', s.workers[v]);
      }
    }
    hide WorkerOut, WorkerOk;
    forall i | i in s'.instances
      ensures InstanceOut(s', i)
    {
      assert InstanceOut(s, i);
      InstanceKeeps(s, s', i);
    }
    hide InstanceOut;
    DeliveredKeeps(s, s');
  }

  lemma SpawnOut(s: State, a: Action, s': State)
    requires Inv(s) && OutInv(s) && a.Spawn? && Next(s, a) == Some(s')
    ensures OutInv(s') && s.delivered <= s'.delivered
  {
    hide Inv, WorkerOut, InstanceOut, RelayOut;
    RelaysKeep(s, s');
    OutsideOutKeeps(s, s');
  }

  lemma BusGrows(s: State, e: Envelope, s': State)
    requires PendingOut(s) && e.messageId !in s.issued && BusStep(s, e) == Some(s')
    ensures OutsideOut(s, s') && OutGrows(s, s') && PendingOut(s') && s'.workers == s.workers && s'.relays == s.relays
    ensures s'.delivered == s.delivered
  {
    assert e.messageId !in s.pending;
  }

  lemma BusOut(s: State, e: Envelope, s': State)
    requires Inv(s) && OutInv(s) && e.messageId !in s.issued && BusStep(s, e) == Some(s')
    ensures OutInv(s') && s.delivered <= s'.delivered
  {
    hide Inv, WorkerOut, InstanceOut, RelayOut;
    BusGrows(s, e, s');
    hide PendingOut, BusStep, OutsideOut;
    RelaysKeep(s, s');
    OutsideOutKeeps(s, s');
  }

  /** Relays publish issued envelopes and delete only what they have published. */
  lemma RelayGrows(s: State, a: Action, s': State)
    requires IsRelayAction(a) && RelayStep(s, a) == Some(s') && PendingOut(s)
    requires a.relay in s.relays ==> RelayOut(s, s.relays[a.relay])
    ensures OutsideOut(s, s') && PendingOut(s') && s'.workers == s.workers
    ensures a.relay in s'.relays && s'.relays == s.relays[a.relay := s'.relays[a.relay]]
    ensures RelayOut(s', s'.relays[a.relay])
  {
    if a.ReadPending? {
      assert IsSnapshot(s.pending, a.snapshot);
    } else {
      var rest := s.relays[a.relay].rest;
      if rest != [] {
        assert rest[0] in rest && Issued(s, rest[0]);
        assert forall e | e in rest[1..] :: e in rest;
      }
    }
  }

  lemma RelayKeepsOut(s: State, a: Action, s': State)
    requires Inv(s) && OutInv(s) && IsRelayAction(a) && RelayStep(s, a) == Some(s')
    ensures OutInv(s') && s.delivered <= s'.delivered
  {
    hide Inv, WorkerOut, InstanceOut;
    RelayGrows(s, a, s');
    hide RelayStep;
    forall r | r in s'.relays
      ensures RelayOut(s', s'.relays[r])
    {
      if r != a.relay {
        RelayKeeps(s, s', s.relays[r]);
      }
    }
    hide RelayOut;
    OutsideOutKeeps(s, s');
  }

  lemma WorkerOutKeeps(s: State, a: Action, s': State)
    requires Inv(s) && OutInv(s) && IsWorkerAction(a) && FreshStep(s, a) && Next(s, a) == Some(s')
    ensures OutInv(s') && s.delivered <= s'.delivered
  {
    var w := a.worker;
    assert WorkerOut(s, s.workers[w]);
    hide Inv, OutInv, PublishStep, AppendStep, ClearOutboxStep, WorkerOut;
    if a.Publish? {
      PublishOut(s, w, a.envelope, s');
    } else if a.AppendNext? {
      AppendOut(s, w, s');
    } else if a.ClearOutbox? {
      ClearOutboxOut(s, w, s');
    } else {
      hide Quiet, WorkerStep;
      QuietStep(s, a, s');
      QuietKeeps(s, s', w);
    }
  }

  lemma QuietStep(s: State, a: Action, s': State)
    requires IsWorkerAction(a) && FreshStep(s, a) && Next(s, a) == Some(s')
    requires !a.Publish? && !a.AppendNext? && !a.ClearOutbox?
    requires WorkerOut(s, s.workers[a.worker])
    ensures Quiet(s, s', a.worker)
  {
    var w := a.worker;
    hide Quiet, WorkerOut;
    hide FindStep, ResolveStep, CheckStep, GrantStep, StoreStep, RecheckStep, BackOffStep, CompleteStep, HandlerStep,
      RecordStep, AppendThrowsStep, CommitStep, CatchStep, RescueStep, ClearStep;
    match a {
      case Find(_) => FindOut(s, w, s');
      case Resolve(_, i) => ResolveOut(s, w, i, s');
      case Check(_) => CheckOut(s, w, s');
      case Grant(_, l) => GrantOut(s, w, l, s');
      case StoreLockId(_) => StoreOut(s, w, s');
      case Recheck(_) => RecheckOut(s, w, s');
      case BackOff(_, guard) => BackOffOut(s, w, guard, s');
      case Complete(_) => CompleteOut(s, w, s');
      case HandlerReturns(_) => HandlerOut(s, w, None, s');
      case HandlerThrows(_, e) => HandlerOut(s, w, Some(e), s');
      case Record(_) => RecordOut(s, w, s');
      case AppendThrows(_, e) => AppendThrowsOut(s, w, e, s');
      case CommitRelease(_, guard) => CommitOut(s, w, guard, s');
      case CatchCheck(_) => CatchOut(s, w, s');
      case CatchRelease(_, guard) => RescueOut(s, w, guard, s');
      case ClearLockId(_) => ClearOut(s, w, s');
    }
  }

  // ----- Runs -----

  /** Every id that is published during the run is fresh. */
  ghost predicate FreshRun(run: seq<Action>)
    requires Exec(run).Some?
  {
    forall n: nat | n < |run| :: FreshStep(After(run, n), run[n])
  }

  lemma OutStep(s: State, a: Action, s': State)
    requires Inv(s) && OutInv(s) && FreshStep(s, a) && Next(s, a) == Some(s')
    ensures OutInv(s') && s.delivered <= s'.delivered
  {
    hide Inv, OutInv, FreshStep;
    if IsWorkerAction(a) {
      WorkerOutKeeps(s, a, s');
    } else {
      OutsideStep(s, a, s');
    }
  }

  lemma OutsideStep(s: State, a: Action, s': State)
    requires Inv(s) && OutInv(s) && FreshStep(s, a) && !IsWorkerAction(a) && Next(s, a) == Some(s')
    ensures OutInv(s') && s.delivered <= s'.delivered
  {
    hide Inv, OutInv, BusStep, SpawnStep, RelayStep;
    if a.Spawn? {
      SpawnOut(s, a, s');
    } else if a.BusPublish? {
      BusOut(s, a.envelope, s');
    } else {
      RelayKeepsOut(s, a, s');
    }
  }

  lemma {:induction false} RunsKeepOut(run: seq<Action>, n: nat)
    requires n <= |run| && Exec(run).Some? && FreshRun(run)
    ensures OutInv(After(run, n))
  {
    AfterAll(run);
    if n > 0 {
      RunsKeepOut(run, n - 1);
      StepAt(run, n - 1);
      assert FreshStep(After(run, n - 1), run[n - 1]);
      hide Next, Inv, OutInv, FreshStep;
      OutStep(After(run, n - 1), run[n - 1], After(run, n));
    }
  }

  /** No committed output is lost: every envelope a committed handler published is pending or relayed, now and later. */
  lemma NoOutputLost(run: seq<Action>, n: nat, e: Envelope)
    requires n <= |run| && Exec(run).Some? && FreshRun(run) && e in After(run, n).delivered
    ensures forall m: nat | n <= m <= |run| :: Accounted(After(run, m), e)
  {
    forall m: nat | n <= m <= |run|
      ensures Accounted(After(run, m), e)
    {
      DeliveredStays(run, n, m, e);
      RunsKeepOut(run, m);
    }
  }

  lemma DeliveredAt(run: seq<Action>, n: nat)
    requires n < |run| && Exec(run).Some? && FreshRun(run)
    ensures After(run, n).delivered <= After(run, n + 1).delivered
  {
    StepAt(run, n);
    RunsKeepOut(run, n);
    assert FreshStep(After(run, n), run[n]);
    hide Next, Inv, OutInv, FreshStep;
    OutStep(After(run, n), run[n], After(run, n + 1));
  }

  lemma {:induction false} DeliveredStays(run: seq<Action>, n: nat, m: nat, e: Envelope)
    requires n <= m <= |run| && Exec(run).Some? && FreshRun(run) && e in After(run, n).delivered
    ensures e in After(run, m).delivered
  {
    hide FreshRun, Exec;
    if n < m {
      DeliveredStays(run, n, m - 1, e);
      DeliveredAt(run, m - 1);
    }
  }

  /**
   The commit's part: when it releases the lock, all its handler published is delivered, and the instance outbox is
   empty.
   */
  lemma CommitDelivers(run: seq<Action>, w: Id, guard: LockField)
    requires Exec(run).Some? && FreshRun(run) && w in Exec(run).value.workers
    requires CommitStep(Exec(run).value, w, guard).Some?
    ensures var s := Exec(run).value;
            var s' := CommitStep(s, w, guard).value;
            && s.workers[w].pc.instance in s'.instances && s'.instances[s.workers[w].pc.instance].outbox == []
            && (s'.workers[w].pc.Clearing? ==>
                  forall e | e in s.workers[w].published :: e in s'.delivered && Accounted(s', e))
  {
    var s := Exec(run).value;
    AfterAll(run);
    RunsKeepOut(run, |run|);
    assert WorkerOut(s, s.workers[w]);
    hide OutInv, FreshRun;
    CommitAccounts(s, w, guard);
  }

  lemma CommitAccounts(s: State, w: Id, guard: LockField)
    requires w in s.workers && WorkerOut(s, s.workers[w]) && CommitStep(s, w, guard).Some?
    ensures var s' := CommitStep(s, w, guard).value;
            && s.workers[w].pc.instance in s'.instances && s'.instances[s.workers[w].pc.instance].outbox == []
            && (s'.workers[w].pc.Clearing? ==>
                  forall e | e in s.workers[w].published :: e in s'.delivered && Accounted(s', e))
  {
  }
}
