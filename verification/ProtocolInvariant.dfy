/**
 The inductive invariant of the saga protocol: every action, of any worker or relay,
 in any state that satisfies it, leads to a state that satisfies it.
 */
module ProtocolInvariant {
  import opened Messages
  import opened LockTables
  import opened SagaProtocol

  /** The program counters between the grant of a lock and its release. */
  predicate Holding(pc: Pc) {
    || pc.Storing? || pc.Rechecking? || pc.BackingOff? || pc.Handling? || pc.Handled? || pc.Appending? || pc.Releasing?
    || pc.Catching? || pc.Rescuing? || pc.Leaked?
  }

  /** The two lock tables agree, and refer to instances that were granted their lock. */
  ghost predicate TablesOk(t: Tables<Id>, keyOf: map<Id, SagaKey>, grantedTo: set<Id>) {
    && grantedTo <= keyOf.Keys
    && (forall i | i in t.byId :: i in keyOf && t.byId[i].state == i)
    && (forall k | k in t.byKey :: NamesGranted(t, k, keyOf, grantedTo))
    && (forall i | i in t.byId && t.byId[i].lockId.Some? :: keyOf[i] in t.byKey && t.byKey[keyOf[i]] == t.byId[i])
    && (forall k | k in t.byKey && t.byKey[k].lockId.Some? :: t.byId[t.byKey[k].state] == t.byKey[k])
  }

  ghost predicate NamesGranted(t: Tables<Id>, k: SagaKey, keyOf: map<Id, SagaKey>, grantedTo: set<Id>)
    requires k in t.byKey
  {
    var i := t.byKey[k].state;
    i in t.byId && i in grantedTo && i in keyOf && keyOf[i] == k
  }

  /** Every locked entry belongs to exactly one worker between grant and release, and conversely. */
  ghost predicate OwnersOk(byId: map<Id, Entry<Id>>, workers: map<Id, Worker>, owner: map<Id, Id>) {
    && (forall i | i in byId && byId[i].lockId.Some? :: IsOwned(i, byId[i].lockId.value, workers, owner))
    && (forall w | w in workers && Holding(workers[w].pc) :: HoldsLock(byId, w, workers[w].pc, owner))
  }

  ghost predicate IsOwned(i: Id, l: Id, workers: map<Id, Worker>, owner: map<Id, Id>) {
    && l in owner && owner[l] in workers
    && var pc := workers[owner[l]].pc; Holding(pc) && pc.instance == i && pc.lockId == l
  }

  ghost predicate HoldsLock(byId: map<Id, Entry<Id>>, w: Id, pc: Pc, owner: map<Id, Id>)
    requires Holding(pc)
  {
    pc.instance in byId && byId[pc.instance].lockId == Some(pc.lockId) && pc.lockId in owner && owner[pc.lockId] == w
  }

  /**
   What BeginProcessingAsync can throw: the second attempt reports the conflict together with its own error; it never
   misses the instance.
   */
  predicate RejectionOk(retry: bool, e: Error) {
    if retry then
      e == AggregateException([OptimisticLockException, LockException])
      || e == AggregateException([OptimisticLockException, OptimisticLockException])
    else e == ApplicationException || e == LockException
  }

  /** `i` is an instance of the saga that `w`'s message is for. */
  predicate Serves(s: State, w: Worker, i: Id) {
    Exists(s, i) && s.keyOf[i] == w.Key()
  }

  predicate OutcomeOk(s: State, w: Worker, o: Outcome) {
    match o
    case Committed(i) =>
      Serves(s, w, i) && w.context.messageId in s.instances[i].processed && Commit(i, w.context.messageId) in s.commits
    case NoOp(i) => Serves(s, w, i) && !CanProcess(s, i, w)
    case Rejected(retry, e) => RejectionOk(retry, e)
    case Failed(_) => true
  }

  /** The holder of `i`: the instance's LockId is its own id, or was erased by the previous holder. */
  predicate Critical(s: State, w: Worker, i: Id, l: Id) {
    Serves(s, w, i) && (s.instances[i].lockId == Guid(l) || s.instances[i].lockId == Empty)
  }

  predicate Recorded(s: State, w: Worker, i: Id) {
    i in s.instances && w.context.messageId in s.instances[i].processed
  }

  /** What a worker relies on at its program counter. */
  predicate WorkerOk(s: State, w: Worker) {
    match w.pc
    case Finding(retry) => retry ==> w.Key() in s.tables.byKey
    case Missing(retry) => !retry
    case Found(_, i) => Serves(s, w, i)
    case Locking(_, i) => Serves(s, w, i)
    case Storing(_, i, _) => Serves(s, w, i)
    case Rechecking(_, i, l) => Critical(s, w, i, l)
    case BackingOff(_, i, l) => Critical(s, w, i, l) && !CanProcess(s, i, w)
    case Handling(i, l) => Critical(s, w, i, l) && !Recorded(s, w, i)
    case Handled(i, l) => Critical(s, w, i, l) && !Recorded(s, w, i)
    case Appending(i, l, _, _) => Critical(s, w, i, l) && Recorded(s, w, i)
      && Commit(i, w.context.messageId) !in s.commits
    case Releasing(i, l) => Critical(s, w, i, l) && Recorded(s, w, i) && Commit(i, w.context.messageId) !in s.commits
    case Catching(i, l, _) => Critical(s, w, i, l)
    case Rescuing(i, l, _) => Critical(s, w, i, l)
    case Clearing(i, o) => Serves(s, w, i) && OutcomeOk(s, w, o)
    case Leaked(i, _, o) => Serves(s, w, i) && s.instances[i].lockId == Empty && OutcomeOk(s, w, o)
    case Done(o) => OutcomeOk(s, w, o)
  }

  ghost predicate NoDuplicates<T>(q: seq<T>) {
    forall j, k | 0 <= j < k < |q| :: q[j] != q[k]
  }

  /** No pair is committed twice, and every committed message is recorded by its instance. */
  ghost predicate CommitsOk(commits: seq<Commit>, grantedTo: set<Id>, instances: map<Id, Instance>) {
    && NoDuplicates(commits)
    && (forall c | c in commits ::
        c.instance in grantedTo && c.instance in instances && c.message in instances[c.instance].processed)
  }

  ghost predicate Inv(s: State) {
    && TablesOk(s.tables, s.keyOf, s.grantedTo)
    && OwnersOk(s.tables.byId, s.workers, s.owner)
    && (forall w | w in s.workers :: WorkerOk(s, s.workers[w]))
    && CommitsOk(s.commits, s.grantedTo, s.instances)
    && s.keyOf.Keys == s.instances.Keys
  }

  ghost predicate NotHeldByOthers(s: State, w: Id, touched: set<Id>) {
    forall v | v in s.workers && v != w && Holding(s.workers[v].pc) :: s.workers[v].pc.instance !in touched
  }

  lemma MutualExclusion(s: State, w: Id)
    requires Inv(s) && w in s.workers && Holding(s.workers[w].pc)
    ensures NotHeldByOthers(s, w, {s.workers[w].pc.instance})
  {
    assert HoldsLock(s.tables.byId, w, s.workers[w].pc, s.owner);
  }

  predicate Evolves(x: Instance, y: Instance) {
    x.processed <= y.processed && (x.isCompleted ==> y.isCompleted)
  }

  /** Only the instances in `touched` may change between `s` and `s'`, and only forwards. */
  ghost predicate ChangesOnly(s: State, s': State, touched: set<Id>) {
    && (forall j | Exists(s, j) ::
          && Exists(s', j) && s'.keyOf[j] == s.keyOf[j] && Evolves(s.instances[j], s'.instances[j])
          && (j !in touched ==> s'.instances[j] == s.instances[j]))
    && s.tables.byKey.Keys <= s'.tables.byKey.Keys
    && (forall c | c in s.commits :: c in s'.commits)
    && (forall c | c in s'.commits && c !in s.commits :: c.instance in touched)
  }

  /** A change of the instances in `touched` keeps what a worker that holds none of them relies on. */
  lemma OtherKeeps(s: State, s': State, w: Worker, touched: set<Id>)
    requires WorkerOk(s, w) && ChangesOnly(s, s', touched)
    requires Holding(w.pc) ==> w.pc.instance !in touched
    ensures WorkerOk(s', w)
  {
  }

  ghost predicate MovesOnly(s: State, s': State, w: Id) {
    && w in s.workers && w in s'.workers && s'.workers == s.workers[w := s'.workers[w]]
    && s'.workers[w].Key() == s.workers[w].Key() && s'.workers[w].context == s.workers[w].context
  }

  lemma OthersKeep(s: State, s': State, w: Id, touched: set<Id>)
    requires forall v | v in s.workers :: WorkerOk(s, s.workers[v])
    requires ChangesOnly(s, s', touched) && MovesOnly(s, s', w) && NotHeldByOthers(s, w, touched)
    requires WorkerOk(s', s'.workers[w])
    ensures forall v | v in s'.workers :: WorkerOk(s', s'.workers[v])
  {
    forall v | v in s'.workers && v != w
      ensures WorkerOk(s', s'.workers[v])
    {
      OtherKeeps(s, s', s.workers[v], touched);
    }
  }

  /** A worker that neither gains nor gives up a lock leaves the ownership as it is. */
  lemma OwnersMove(byId: map<Id, Entry<Id>>, workers: map<Id, Worker>, owner: map<Id, Id>, w: Id, next: Worker)
    requires OwnersOk(byId, workers, owner) && w in workers
    requires Holding(workers[w].pc) <==> Holding(next.pc)
    requires Holding(next.pc) ==> next.pc.instance == workers[w].pc.instance && next.pc.lockId == workers[w].pc.lockId
    ensures OwnersOk(byId, workers[w := next], owner)
  {
    forall i | i in byId && byId[i].lockId.Some?
      ensures IsOwned(i, byId[i].lockId.value, workers[w := next], owner)
    {
      assert IsOwned(i, byId[i].lockId.value, workers, owner);
    }
    var after := workers[w := next];
    forall v | v in after && Holding(after[v].pc)
      ensures HoldsLock(byId, v, after[v].pc, owner)
    {
      assert HoldsLock(byId, v, workers[v].pc, owner);
    }
  }

  lemma CommitsKeep(commits: seq<Commit>, grantedTo: set<Id>, before: map<Id, Instance>, after: map<Id, Instance>)
    requires CommitsOk(commits, grantedTo, before)
    requires forall i | i in before :: i in after && Evolves(before[i], after[i])
    ensures CommitsOk(commits, grantedTo, after)
  {
  }

  /**
   A step of `w` that touches no table and commits nothing: it keeps its hold, and leaves `w` as its next step needs it.
   */
  ghost predicate Local(s: State, s': State, w: Id, touched: set<Id>) {
    && ChangesOnly(s, s', touched) && MovesOnly(s, s', w)
    && s'.tables == s.tables && s'.owner == s.owner && s'.commits == s.commits && s'.grantedTo == s.grantedTo
    && s'.keyOf == s.keyOf && s'.instances.Keys == s.instances.Keys
    && SameHold(s.workers[w].pc, s'.workers[w].pc)
    && WorkerOk(s', s'.workers[w])
  }

  predicate SameHold(pc: Pc, pc': Pc) {
    && (Holding(pc) <==> Holding(pc'))
    && (Holding(pc) ==> pc'.instance == pc.instance && pc'.lockId == pc.lockId)
  }

  lemma LocalKeeps(s: State, s': State, w: Id, touched: set<Id>)
    requires Inv(s) && Local(s, s', w, touched) && NotHeldByOthers(s, w, touched)
    ensures Inv(s')
  {
    OthersKeep(s, s', w, touched);
    OwnersMove(s.tables.byId, s.workers, s.owner, w, s'.workers[w]);
    CommitsKeep(s.commits, s.grantedTo, s.instances, s'.instances);
  }

  /** The invariant does not mention the outbox, the relays or the history of envelopes. */
  predicate SameCore(s: State, s': State) {
    && s'.keyOf == s.keyOf && s'.instances == s.instances && s'.tables == s.tables && s'.owner == s.owner
    && s'.commits == s.commits && s'.grantedTo == s.grantedTo
  }

  lemma CoreOnly(s: State, s': State, w: Worker)
    requires SameCore(s, s') && WorkerOk(s, w)
    ensures WorkerOk(s', w)
  {
  }

  /** A worker moves on; no instance changes. */
  ghost predicate Moved(s: State, s': State, w: Id) {
    && SameCore(s, s') && MovesOnly(s, s', w) && SameHold(s.workers[w].pc, s'.workers[w].pc)
    && !s.workers[w].pc.Storing? && WorkerOk(s, s'.workers[w])
  }

  lemma MovedKeeps(s: State, w: Id, s': State)
    requires Inv(s) && Moved(s, s', w)
    ensures Inv(s')
  {
    hide Inv, WorkerOk;
    CoreOnly(s, s', s'.workers[w]);
    LocalKeeps(s, s', w, {});
  }

  /** The holder of `i` updates it. */
  ghost predicate Updated(s: State, s': State, w: Id) {
    && w in s.workers && Holding(s.workers[w].pc)
    && var i := s.workers[w].pc.instance;
    && Exists(s, i) && i in s'.instances && Evolves(s.instances[i], s'.instances[i])
    && SameCore(Put(s, i, s'.instances[i]), s') && MovesOnly(s, s', w) && SameHold(s.workers[w].pc, s'.workers[w].pc)
    && FieldStep(s.workers[w].pc, s'.workers[w].pc, s.instances[i].lockId, s'.instances[i].lockId)
    && WorkerOk(Put(s, i, s'.instances[i]), s'.workers[w])
  }

  /** What the holder of an instance does to its LockId: it stores its own id, and erases nothing that is there. */
  predicate FieldStep(pc: Pc, pc': Pc, field: LockField, field': LockField) {
    if pc.Storing? then pc'.Rechecking? && field' == Guid(pc'.lockId)
    else field' == field || (pc'.Leaked? && field == Empty)
  }

  lemma UpdatedKeeps(s: State, w: Id, s': State)
    requires Inv(s) && Updated(s, s', w)
    ensures Inv(s')
  {
    hide Inv, WorkerOk, NotHeldByOthers;
    var i := s.workers[w].pc.instance;
    MutualExclusion(s, w);
    CoreOnly(Put(s, i, s'.instances[i]), s', s'.workers[w]);
    LocalKeeps(s, s', w, {i});
  }

  lemma FindReady(s: State, w: Id, s': State)
    requires Inv(s) && w in s.workers && FindStep(s, w) == Some(s')
    ensures Moved(s, s', w)
  {
    var k := s.workers[w].Key();
    assert WorkerOk(s, s.workers[w]);
    if k in s.tables.byKey {
      assert NamesGranted(s.tables, k, s.keyOf, s.grantedTo);
      FoundReady(s, w, s');
    } else {
      FoundReady(s, w, s');
    }
  }

  lemma FoundReady(s: State, w: Id, s': State)
    requires w in s.workers && WorkerOk(s, s.workers[w]) && FindStep(s, w) == Some(s')
    requires var k := s.workers[w].Key(); k in s.tables.byKey ==> Serves(s, s.workers[w], s.tables.byKey[k].state)
    ensures Moved(s, s', w)
  {
    var worker := s.workers[w];
    if worker.Key() in s.tables.byKey {
      assert s'.workers[w] == worker.(pc := Found(worker.pc.retry, s.tables.byKey[worker.Key()].state));
      return;
    } else {
      assert s'.workers[w] == worker.(pc := Missing(worker.pc.retry));
      return;
    }
  }

  lemma MovesTo(s: State, w: Id, pc: Pc)
    requires w in s.workers && SameHold(s.workers[w].pc, pc) && !s.workers[w].pc.Storing?
    requires WorkerOk(s, s.workers[w].(pc := pc))
    ensures Moved(s, Move(s, w, pc), w)
  {
    hide WorkerOk, SameHold;
    assert Move(s, w, pc).workers[w] == s.workers[w].(pc := pc);
  }

  lemma CheckReady(s: State, w: Id, s': State)
    requires w in s.workers && WorkerOk(s, s.workers[w]) && CheckStep(s, w) == Some(s')
    ensures Moved(s, s', w)
  {
    var pc := s.workers[w].pc;
    var after :=
      if CanProcess(s, pc.instance, s.workers[w]) then Locking(pc.retry, pc.instance) else Done(NoOp(pc.instance));
    assert s' == Move(s, w, after);
    hide CheckStep, CanProcess, Moved;
    MovesTo(s, w, after);
  }

  lemma RecheckReady(s: State, w: Id, s': State)
    requires w in s.workers && WorkerOk(s, s.workers[w]) && RecheckStep(s, w) == Some(s')
    ensures Moved(s, s', w)
  {
    var worker := s.workers[w];
    if CanProcess(s, worker.pc.instance, worker) {
      assert s'.workers[w] == worker.(pc := Handling(worker.pc.instance, worker.pc.lockId));
      return;
    } else {
      assert s'.workers[w] == worker.(pc := BackingOff(worker.pc.retry, worker.pc.instance, worker.pc.lockId));
      return;
    }
  }

  lemma HandlerReady(s: State, w: Id, error: Option<Error>, s': State)
    requires w in s.workers && WorkerOk(s, s.workers[w]) && HandlerStep(s, w, error) == Some(s')
    ensures Moved(s, s', w)
  {
  }

  lemma StoreReady(s: State, w: Id, s': State)
    requires w in s.workers && WorkerOk(s, s.workers[w]) && StoreStep(s, w) == Some(s')
    ensures Updated(s, s', w)
  {
  }

  lemma RecordReady(s: State, w: Id, s': State)
    requires w in s.workers && WorkerOk(s, s.workers[w]) && RecordStep(s, w) == Some(s')
    requires CommitsOk(s.commits, s.grantedTo, s.instances)
    ensures Updated(s, s', w)
  {
    var c := Commit(s.workers[w].pc.instance, s.workers[w].context.messageId);
    assert c !in s.commits;
  }

  lemma PublishReady(s: State, w: Id, e: Envelope, s': State)
    requires w in s.workers && WorkerOk(s, s.workers[w]) && PublishStep(s, w, e) == Some(s')
    ensures Updated(s, s', w)
  {
  }

  lemma CompleteReady(s: State, w: Id, s': State)
    requires w in s.workers && WorkerOk(s, s.workers[w]) && CompleteStep(s, w) == Some(s')
    ensures Updated(s, s', w)
  {
  }

  lemma AppendReady(s: State, w: Id, s': State)
    requires w in s.workers && WorkerOk(s, s.workers[w]) && AppendStep(s, w) == Some(s')
    ensures Updated(s, s', w)
  {
    var worker := s.workers[w];
    var pc := worker.pc;
    var e := s.instances[pc.instance].outbox[pc.next];
    if e.messageId in s.pending {
      assert s'.workers[w] == worker.(pc := Appending(pc.instance, pc.lockId, pc.next, true));
      return;
    } else {
      assert s'.workers[w] == worker.(pc := Appending(pc.instance, pc.lockId, pc.next + 1, false));
      return;
    }
  }

  lemma AppendThrowsReady(s: State, w: Id, e: Error, s': State)
    requires w in s.workers && WorkerOk(s, s.workers[w]) && AppendThrowsStep(s, w, e) == Some(s')
    ensures Moved(s, s', w)
  {
  }

  lemma ClearOutboxReady(s: State, w: Id, s': State)
    requires w in s.workers && WorkerOk(s, s.workers[w]) && ClearOutboxStep(s, w) == Some(s')
    ensures Updated(s, s', w)
  {
  }

  lemma CatchReady(s: State, w: Id, s': State)
    requires w in s.workers && WorkerOk(s, s.workers[w]) && CatchStep(s, w) == Some(s')
    ensures Moved(s, s', w)
  {
    var worker := s.workers[w];
    if s.instances[worker.pc.instance].lockId.Guid? {
      assert s'.workers[w] == worker.(pc := Rescuing(worker.pc.instance, worker.pc.lockId, worker.pc.error));
      return;
    } else {
      assert s'.workers[w] == worker.(pc := Leaked(worker.pc.instance, worker.pc.lockId, Failed(worker.pc.error)));
      return;
    }
  }

  lemma TablesGrant(t: Tables<Id>, keyOf: map<Id, SagaKey>, grantedTo: set<Id>, i: Id, l: Id)
    requires TablesOk(t, keyOf, grantedTo) && i in keyOf
    requires TryLock(t, i, i, keyOf[i], l).Granted?
    ensures TablesOk(TryLock(t, i, i, keyOf[i], l).tables, keyOf, grantedTo + {i})
  {
    var t' := TryLock(t, i, i, keyOf[i], l).tables;
    forall k | k in t'.byKey
      ensures NamesGranted(t', k, keyOf, grantedTo + {i})
    {
      assert k != keyOf[i] ==> NamesGranted(t, k, keyOf, grantedTo);
    }
  }

  lemma TablesRelease(t: Tables<Id>, keyOf: map<Id, SagaKey>, grantedTo: set<Id>, i: Id)
    requires TablesOk(t, keyOf, grantedTo) && i in t.byId && t.byId[i].lockId.Some?
    ensures TablesOk(Tables(t.byId[i := Entry(i, None)], t.byKey[keyOf[i] := Entry(i, None)]), keyOf, grantedTo)
  {
    var t' := Tables(t.byId[i := Entry(i, None)], t.byKey[keyOf[i] := Entry(i, None)]);
    assert NamesGranted(t, keyOf[i], keyOf, grantedTo);
    forall k | k in t'.byKey
      ensures NamesGranted(t', k, keyOf, grantedTo)
    {
      assert k != keyOf[i] ==> NamesGranted(t, k, keyOf, grantedTo);
    }
  }

  lemma OwnersGrant(byId: map<Id, Entry<Id>>, workers: map<Id, Worker>, owner: map<Id, Id>, w: Id, next: Worker)
    requires OwnersOk(byId, workers, owner) && w in workers && !Holding(workers[w].pc)
    requires next.pc.Storing? && next.pc.lockId !in owner
    requires next.pc.instance in byId ==> byId[next.pc.instance].lockId.None?
    ensures OwnersOk(byId[next.pc.instance := Entry(next.pc.instance, Some(next.pc.lockId))], workers[w := next],
                     owner[next.pc.lockId := w])
  {
    var byId', after, owner' :=
      byId[next.pc.instance := Entry(next.pc.instance, Some(next.pc.lockId))], workers[w := next],
        owner[next.pc.lockId := w];
    forall i | i in byId' && byId'[i].lockId.Some?
      ensures IsOwned(i, byId'[i].lockId.value, after, owner')
    {
      assert i != next.pc.instance ==> IsOwned(i, byId[i].lockId.value, workers, owner);
    }
    forall v | v in after && Holding(after[v].pc)
      ensures HoldsLock(byId', v, after[v].pc, owner')
    {
      assert v != w ==> HoldsLock(byId, v, workers[v].pc, owner);
    }
  }

  lemma OwnersRelease(byId: map<Id, Entry<Id>>, workers: map<Id, Worker>, owner: map<Id, Id>, w: Id, next: Worker)
    requires OwnersOk(byId, workers, owner) && w in workers && Holding(workers[w].pc) && !Holding(next.pc)
    ensures OwnersOk(byId[workers[w].pc.instance := Entry(workers[w].pc.instance, None)], workers[w := next], owner)
  {
    var i0 := workers[w].pc.instance;
    var byId', after := byId[i0 := Entry(i0, None)], workers[w := next];
    assert HoldsLock(byId, w, workers[w].pc, owner);
    forall i | i in byId' && byId'[i].lockId.Some?
      ensures IsOwned(i, byId'[i].lockId.value, after, owner)
    {
      assert IsOwned(i, byId[i].lockId.value, workers, owner);
    }
    forall v | v in after && Holding(after[v].pc)
      ensures HoldsLock(byId', v, after[v].pc, owner)
    {
      assert HoldsLock(byId, v, workers[v].pc, owner);
    }
  }

  function Freed(s: State, i: Id): Tables<Id>
    requires Exists(s, i)
  {
    Tables(s.tables.byId[i := Entry(i, None)], s.tables.byKey[s.keyOf[i] := Entry(i, None)])
  }

  /** A release by the holder, which may commit its message. */
  ghost predicate Released(s: State, s': State, w: Id) {
    && w in s.workers && Holding(s.workers[w].pc)
    && var i := s.workers[w].pc.instance;
    && Exists(s, i)
    && s'.keyOf == s.keyOf && s'.instances == s.instances && s'.owner == s.owner && s'.grantedTo == s.grantedTo
    && s'.tables == Freed(s, i)
    && MovesOnly(s, s', w) && !Holding(s'.workers[w].pc)
    && (s'.commits == s.commits ||
        (s.workers[w].pc.Releasing? && s'.commits == s.commits + [Commit(i, s.workers[w].context.messageId)]))
    && WorkerOk(s', s'.workers[w])
  }

  lemma ReleasedKeeps(s: State, w: Id, s': State)
    requires Inv(s) && Released(s, s', w)
    ensures Inv(s')
  {
    var i := s.workers[w].pc.instance;
    MutualExclusion(s, w);
    assert HoldsLock(s.tables.byId, w, s.workers[w].pc, s.owner);
    TablesRelease(s.tables, s.keyOf, s.grantedTo, i);
    OwnersRelease(s.tables.byId, s.workers, s.owner, w, s'.workers[w]);
    ReleasedCommits(s, w, s');
    ReleasedOthers(s, w, s');
  }

  lemma ReleasedCommits(s: State, w: Id, s': State)
    requires Inv(s) && Released(s, s', w)
    ensures CommitsOk(s'.commits, s'.grantedTo, s'.instances)
  {
    var i := s.workers[w].pc.instance;
    assert HoldsLock(s.tables.byId, w, s.workers[w].pc, s.owner);
    assert WorkerOk(s, s.workers[w]);
    assert NamesGranted(s.tables, s.keyOf[i], s.keyOf, s.grantedTo);
  }

  lemma ReleasedOthers(s: State, w: Id, s': State)
    requires Inv(s) && Released(s, s', w) && NotHeldByOthers(s, w, {s.workers[w].pc.instance})
    ensures forall v | v in s'.workers :: WorkerOk(s', s'.workers[v])
  {
    hide WorkerOk, TablesOk, OwnersOk, CommitsOk;
    assert ChangesOnly(s, s', {s.workers[w].pc.instance});
    OthersKeep(s, s', w, {s.workers[w].pc.instance});
  }

  /** A release by the holder frees its entries, unless the instance's LockId was erased between the two reads. */
  predicate ReleasesOwn(s: State, i: Id, guard: LockField)
    requires Exists(s, i)
  {
    ReleaseOf(s, i, guard) == if guard.Guid? && s.instances[i].lockId == Empty then None else Some(Freed(s, i))
  }

  lemma HolderReleases(s: State, w: Id, guard: LockField)
    requires Inv(s) && w in s.workers && Holding(s.workers[w].pc) && Exists(s, s.workers[w].pc.instance)
    requires MayRead(s.instances[s.workers[w].pc.instance].lockId, guard)
    requires !s.workers[w].pc.Storing? && !s.workers[w].pc.Leaked?
    ensures ReleasesOwn(s, s.workers[w].pc.instance, guard)
  {
    assert WorkerOk(s, s.workers[w]);
    assert HoldsLock(s.tables.byId, w, s.workers[w].pc, s.owner);
    hide Inv;
  }

  lemma BackOffReleases(s: State, w: Id, guard: LockField, s': State)
    requires w in s.workers && WorkerOk(s, s.workers[w]) && BackOffStep(s, w, guard) == Some(s')
    requires ReleaseOf(s, s.workers[w].pc.instance, guard) == Some(Freed(s, s.workers[w].pc.instance))
    ensures Released(s, s', w)
  {
    var worker := s.workers[w];
    assert s'.workers[w] == worker.(pc := Done(NoOp(worker.pc.instance)));
  }

  lemma BackOffFails(s: State, w: Id, guard: LockField, s': State)
    requires w in s.workers && WorkerOk(s, s.workers[w]) && BackOffStep(s, w, guard) == Some(s')
    requires ReleaseOf(s, s.workers[w].pc.instance, guard).None?
    requires s.instances[s.workers[w].pc.instance].lockId == Empty
    ensures Moved(s, s', w)
  {
    var worker := s.workers[w];
    assert s'.workers[w] == worker.(pc := Leaked(worker.pc.instance, worker.pc.lockId,
                                                 Refusal(worker.pc.retry, LockException)));
  }

  lemma CommitReleases(s: State, w: Id, guard: LockField, s': State)
    requires w in s.workers && WorkerOk(s, s.workers[w]) && CommitStep(s, w, guard) == Some(s')
    requires ReleaseOf(s, s.workers[w].pc.instance, guard) == Some(Freed(s, s.workers[w].pc.instance))
    ensures Released(s, s', w)
  {
    var worker := s.workers[w];
    assert s'.workers[w] == worker.(pc := Clearing(worker.pc.instance, Committed(worker.pc.instance)));
  }

  lemma CommitFails(s: State, w: Id, guard: LockField, s': State)
    requires w in s.workers && WorkerOk(s, s.workers[w]) && CommitStep(s, w, guard) == Some(s')
    requires ReleaseOf(s, s.workers[w].pc.instance, guard).None?
    requires s.instances[s.workers[w].pc.instance].lockId == Empty
    ensures Moved(s, s', w)
  {
    var worker := s.workers[w];
    assert s'.workers[w] == worker.(pc := Catching(worker.pc.instance, worker.pc.lockId, LockException));
  }

  lemma RescueReleases(s: State, w: Id, guard: LockField, s': State)
    requires w in s.workers && WorkerOk(s, s.workers[w]) && RescueStep(s, w, guard) == Some(s')
    requires ReleaseOf(s, s.workers[w].pc.instance, guard) == Some(Freed(s, s.workers[w].pc.instance))
    ensures Released(s, s', w)
  {
    var worker := s.workers[w];
    assert s'.workers[w] == worker.(pc := Clearing(worker.pc.instance, Failed(worker.pc.error)));
  }

  lemma RescueFails(s: State, w: Id, guard: LockField, s': State)
    requires w in s.workers && WorkerOk(s, s.workers[w]) && RescueStep(s, w, guard) == Some(s')
    requires ReleaseOf(s, s.workers[w].pc.instance, guard).None?
    requires s.instances[s.workers[w].pc.instance].lockId == Empty
    ensures Updated(s, s', w)
  {
    var worker := s.workers[w];
    assert s'.workers[w] == worker.(pc := Leaked(worker.pc.instance, worker.pc.lockId, Failed(worker.pc.error)));
  }

  /** `LockId = string.Empty` may hit an instance that another worker holds by now. */
  lemma ClearKeeps(s: State, w: Id, s': State)
    requires Inv(s) && w in s.workers && ClearStep(s, w) == Some(s')
    ensures Inv(s')
  {
    var i := s.workers[w].pc.instance;
    assert WorkerOk(s, s.workers[w]);
    hide TablesOk, OwnersOk, CommitsOk, WorkerOk;
    OwnersMove(s.tables.byId, s.workers, s.owner, w, s'.workers[w]);
    CommitsKeep(s.commits, s.grantedTo, s.instances, s'.instances);
    forall v | v in s'.workers
      ensures WorkerOk(s', s'.workers[v])
    {
      Erased(s, s', if v == w then s'.workers[w] else s.workers[v], i);
    }
  }

  lemma Erased(s: State, s': State, w: Worker, i: Id)
    requires Exists(s, i) && WorkerOk(s, w)
    requires SameCore(Put(s, i, s.instances[i].(lockId := Empty)), s')
    ensures WorkerOk(s', w)
  {
  }

  lemma EveryWorker(s: State)
    requires Inv(s)
    ensures forall v | v in s.workers :: WorkerOk(s, s.workers[v])
  {
  }

  lemma ResolveKeeps(s: State, w: Id, i: Id, s': State)
    requires Inv(s) && w in s.workers && ResolveStep(s, w, i) == Some(s')
    ensures Inv(s')
  {
    EveryWorker(s);
    if s.workers[w].IsInitiator() {
      hide WorkerOk;
      ResolvedTables(s, w, i, s');
      ResolvedWorkers(s, w, i, s');
    } else {
      hide Inv;
      NotResolved(s, w, i, s');
      hide WorkerOk, Moved;
      MovedKeeps(s, w, s');
    }
  }

  lemma NotResolved(s: State, w: Id, i: Id, s': State)
    requires w in s.workers && WorkerOk(s, s.workers[w]) && ResolveStep(s, w, i) == Some(s')
    requires !s.workers[w].IsInitiator()
    ensures Moved(s, s', w)
  {
    assert s'.workers[w] == s.workers[w].(pc := Done(Refusal(false, ApplicationException)));
  }

  lemma ResolvedReady(s: State, w: Id, i: Id, s': State)
    requires w in s.workers && WorkerOk(s, s.workers[w]) && ResolveStep(s, w, i) == Some(s')
    requires s.workers[w].IsInitiator()
    ensures ChangesOnly(s, s', {i}) && MovesOnly(s, s', w) && WorkerOk(s', s'.workers[w])
  {
    assert s'.workers[w] == s.workers[w].(pc := Found(s.workers[w].pc.retry, i));
  }

  lemma ResolvedWorkers(s: State, w: Id, i: Id, s': State)
    requires Inv(s) && w in s.workers && ResolveStep(s, w, i) == Some(s') && s.workers[w].IsInitiator()
    ensures forall v | v in s'.workers :: WorkerOk(s', s'.workers[v])
  {
    EveryWorker(s);
    forall v | v in s.workers && Holding(s.workers[v].pc)
      ensures s.workers[v].pc.instance != i
    {
      assert WorkerOk(s, s.workers[v]);
    }
    hide Inv, WorkerOk, ResolveStep;
    ResolvedReady(s, w, i, s');
    OthersKeep(s, s', w, {i});
  }

  lemma ResolvedTables(s: State, w: Id, i: Id, s': State)
    requires Inv(s) && w in s.workers && ResolveStep(s, w, i) == Some(s') && s.workers[w].IsInitiator()
    ensures TablesOk(s'.tables, s'.keyOf, s'.grantedTo)
    ensures OwnersOk(s'.tables.byId, s'.workers, s'.owner)
    ensures CommitsOk(s'.commits, s'.grantedTo, s'.instances)
  {
    assert i !in s.keyOf;
    hide WorkerOk;
    OwnersMove(s.tables.byId, s.workers, s.owner, w, s'.workers[w]);
    CommitsKeep(s.commits, s.grantedTo, s.instances, s'.instances);
    hide OwnersOk, CommitsOk;
    TablesKeep(s.tables, s.keyOf, s.grantedTo, s'.keyOf);
  }

  lemma TablesKeep(t: Tables<Id>, keyOf: map<Id, SagaKey>, grantedTo: set<Id>, more: map<Id, SagaKey>)
    requires TablesOk(t, keyOf, grantedTo)
    requires forall i | i in keyOf :: i in more && more[i] == keyOf[i]
    ensures TablesOk(t, more, grantedTo)
  {
    forall k | k in t.byKey
      ensures NamesGranted(t, k, more, grantedTo)
    {
      assert NamesGranted(t, k, keyOf, grantedTo);
    }
  }

  /** A lock can be granted: neither entry of the instance is locked, and the lock id is new. */
  predicate Grantable(s: State, w: Id, l: Id) {
    && w in s.workers && s.workers[w].pc.Locking? && Exists(s, s.workers[w].pc.instance) && l !in s.owner
    && var i := s.workers[w].pc.instance;
    && (i in s.tables.byId ==> s.tables.byId[i].lockId.None?)
    && (s.keyOf[i] in s.tables.byKey ==> s.tables.byKey[s.keyOf[i]].lockId.None?)
  }

  /** The state after the grant. */
  function AfterGrant(s: State, w: Id, l: Id): State
    requires Grantable(s, w, l)
  {
    var pc := s.workers[w].pc;
    var entry := Entry(pc.instance, Some(l));
    Move(s, w, Storing(pc.retry, pc.instance, l))
      .(tables := Tables(s.tables.byId[pc.instance := entry], s.tables.byKey[s.keyOf[pc.instance] := entry]),
        owner := s.owner[l := w], grantedTo := s.grantedTo + {pc.instance})
  }

  predicate IsStoring(s: State, w: Id) {
    w in s.workers && s.workers[w].pc.Storing?
  }

  lemma GrantIs(s: State, w: Id, l: Id, s': State)
    requires w in s.workers && GrantStep(s, w, l) == Some(s')
    ensures IsStoring(s', w) ==> Grantable(s, w, l) && s' == AfterGrant(s, w, l)
  {
    var worker := s.workers[w];
    var i := worker.pc.instance;
    if TryLock(s.tables, i, i, s.keyOf[i], l).Granted? {
      assert s' == AfterGrant(s, w, l);
    } else {
      assert !IsStoring(s', w);
    }
  }

  lemma GrantedKeeps(s: State, w: Id, l: Id)
    requires Inv(s) && Grantable(s, w, l)
    ensures Inv(AfterGrant(s, w, l))
  {
    EveryWorker(s);
    hide WorkerOk;
    GrantedTables(s, w, l);
    hide TablesOk, OwnersOk, CommitsOk, ChangesOnly, MovesOnly;
    GrantedReady(s, w, l);
    OthersKeep(s, AfterGrant(s, w, l), w, {});
  }

  lemma GrantedTables(s: State, w: Id, l: Id)
    requires Inv(s) && Grantable(s, w, l)
    ensures var s' := AfterGrant(s, w, l);
            && TablesOk(s'.tables, s'.keyOf, s'.grantedTo) && OwnersOk(s'.tables.byId, s'.workers, s'.owner)
            && CommitsOk(s'.commits, s'.grantedTo, s'.instances)
  {
    var i := s.workers[w].pc.instance;
    var s' := AfterGrant(s, w, l);
    hide WorkerOk, CommitsOk, TablesOk, OwnersOk;
    TablesGrant(s.tables, s.keyOf, s.grantedTo, i, l);
    OwnersGrant(s.tables.byId, s.workers, s.owner, w, s'.workers[w]);
    CommitsGrow(s.commits, s.grantedTo, s'.grantedTo, s.instances);
  }

  lemma CommitsGrow(commits: seq<Commit>, grantedTo: set<Id>, more: set<Id>, instances: map<Id, Instance>)
    requires CommitsOk(commits, grantedTo, instances) && grantedTo <= more
    ensures CommitsOk(commits, more, instances)
  {
  }

  lemma GrantedReady(s: State, w: Id, l: Id)
    requires Grantable(s, w, l) && WorkerOk(s, s.workers[w])
    ensures var s' := AfterGrant(s, w, l); ChangesOnly(s, s', {}) && MovesOnly(s, s', w) && WorkerOk(s', s'.workers[w])
  {
    var s' := AfterGrant(s, w, l);
    assert s'.workers[w] == s.workers[w].(pc := Storing(s.workers[w].pc.retry, s.workers[w].pc.instance, l));
  }

  lemma GrantRefused(s: State, w: Id, l: Id, s': State)
    requires w in s.workers && WorkerOk(s, s.workers[w]) && GrantStep(s, w, l) == Some(s') && !IsStoring(s', w)
    ensures Moved(s, s', w)
  {
    var worker := s.workers[w];
    var i := worker.pc.instance;
    match TryLock(s.tables, i, i, s.keyOf[i], l)
    case AlreadyLocked => Refused(s, w, Done(Refusal(worker.pc.retry, LockException)));
    case Conflict =>
      if worker.pc.retry {
        Refused(s, w, Done(Refusal(true, OptimisticLockException)));
      } else {
        Refused(s, w, Finding(true));
      }
  }

  lemma Refused(s: State, w: Id, pc: Pc)
    requires w in s.workers && s.workers[w].pc.Locking?
    requires || (pc == Finding(true) && s.workers[w].Key() in s.tables.byKey)
             || (pc.Done? && pc.outcome.Rejected? && RejectionOk(pc.outcome.retry, pc.outcome.error))
    ensures Moved(s, Move(s, w, pc), w)
  {
    assert Move(s, w, pc).workers[w] == s.workers[w].(pc := pc);
  }

  lemma GrantKeeps(s: State, w: Id, l: Id, s': State)
    requires Inv(s) && w in s.workers && GrantStep(s, w, l) == Some(s')
    ensures Inv(s')
  {
    EveryWorker(s);
    hide Inv, WorkerOk, Moved, GrantStep, Grantable, AfterGrant, IsStoring;
    if IsStoring(s', w) {
      GrantIs(s, w, l, s');
      GrantedKeeps(s, w, l);
    } else {
      GrantRefused(s, w, l, s');
      MovedKeeps(s, w, s');
    }
  }

  /** What a step outside the worker protocol leaves alone. */
  ghost predicate Outside(s: State, s': State) {
    && SameCore(s, s')
    && (forall v | v in s.workers :: v in s'.workers && s'.workers[v] == s.workers[v])
    && (forall v | v in s'.workers && v !in s.workers :: s'.workers[v].pc == Finding(false))
  }

  lemma RelaySame(s: State, a: Action, s': State)
    requires IsRelayAction(a) && RelayStep(s, a) == Some(s')
    ensures Outside(s, s')
  {
    assert s'.workers == s.workers && SameCore(s, s');
    hide RelayStep, SameCore;
  }

  lemma OutsideSame(s: State, a: Action, s': State)
    requires !IsWorkerAction(a) && Next(s, a) == Some(s')
    ensures Outside(s, s')
  {
    hide RelayStep;
    if IsRelayAction(a) {
      hide Outside;
      RelaySame(s, a, s');
    }
  }

  /** Steps outside the worker protocol: the outbox and its relays, and the arrival of a message. */
  lemma OutsideKeeps(s: State, a: Action, s': State)
    requires Inv(s) && !IsWorkerAction(a) && Next(s, a) == Some(s')
    ensures Inv(s')
  {
    OutsideSame(s, a, s');
    EveryWorker(s);
    hide Next;
    forall v | v in s'.workers
      ensures WorkerOk(s', s'.workers[v])
    {
      if v in s.workers {
        CoreOnly(s, s', s.workers[v]);
      }
    }
    hide WorkerOk;
    OutsideOwners(s, s');
  }

  lemma OutsideOwners(s: State, s': State)
    requires OwnersOk(s.tables.byId, s.workers, s.owner) && s'.tables == s.tables && s'.owner == s.owner
    requires forall v | v in s.workers :: v in s'.workers && s'.workers[v] == s.workers[v]
    requires forall v | v in s'.workers && v !in s.workers :: s'.workers[v].pc == Finding(false)
    ensures OwnersOk(s'.tables.byId, s'.workers, s'.owner)
  {
    forall i | i in s.tables.byId && s.tables.byId[i].lockId.Some?
      ensures IsOwned(i, s.tables.byId[i].lockId.value, s'.workers, s.owner)
    {
      assert IsOwned(i, s.tables.byId[i].lockId.value, s.workers, s.owner);
    }
    forall v | v in s'.workers && Holding(s'.workers[v].pc)
      ensures HoldsLock(s.tables.byId, v, s'.workers[v].pc, s.owner)
    {
      assert HoldsLock(s.tables.byId, v, s.workers[v].pc, s.owner);
    }
  }

  predicate IsRelease(a: Action) {
    a.BackOff? || a.CommitRelease? || a.CatchRelease?
  }

  lemma BackOffReady(s: State, w: Id, guard: LockField, s': State)
    requires w in s.workers && WorkerOk(s, s.workers[w]) && BackOffStep(s, w, guard) == Some(s')
    requires ReleasesOwn(s, s.workers[w].pc.instance, guard)
    ensures Released(s, s', w) || Moved(s, s', w)
  {
    var released := ReleaseOf(s, s.workers[w].pc.instance, guard).Some?;
    hide WorkerOk, Released, Moved, BackOffStep;
    if released {
      BackOffReleases(s, w, guard, s');
    } else {
      BackOffFails(s, w, guard, s');
    }
  }

  lemma CommitReady(s: State, w: Id, guard: LockField, s': State)
    requires w in s.workers && WorkerOk(s, s.workers[w]) && CommitStep(s, w, guard) == Some(s')
    requires ReleasesOwn(s, s.workers[w].pc.instance, guard)
    ensures Released(s, s', w) || Moved(s, s', w)
  {
    var released := ReleaseOf(s, s.workers[w].pc.instance, guard).Some?;
    hide WorkerOk, Released, Moved, CommitStep;
    if released {
      CommitReleases(s, w, guard, s');
    } else {
      CommitFails(s, w, guard, s');
    }
  }

  lemma RescueReady(s: State, w: Id, guard: LockField, s': State)
    requires w in s.workers && WorkerOk(s, s.workers[w]) && RescueStep(s, w, guard) == Some(s')
    requires ReleasesOwn(s, s.workers[w].pc.instance, guard)
    ensures Released(s, s', w) || Updated(s, s', w)
  {
    var released := ReleaseOf(s, s.workers[w].pc.instance, guard).Some?;
    hide WorkerOk, Released, Updated, RescueStep;
    if released {
      RescueReleases(s, w, guard, s');
    } else {
      RescueFails(s, w, guard, s');
    }
  }

  /** Releases: by the holder, or refused because its lock id was erased. */
  lemma ReleaseReady(s: State, w: Id, s': State, a: Action)
    requires Inv(s) && w in s.workers && IsRelease(a) && a.worker == w && WorkerStep(s, a) == Some(s')
    ensures Released(s, s', w) || Updated(s, s', w) || Moved(s, s', w)
  {
    EveryWorker(s);
    hide Inv, WorkerOk, Released, Moved, Updated, ReleasesOwn;
    HolderReleases(s, w, a.guard);
    hide BackOffStep, CommitStep, RescueStep;
    if a.BackOff? {
      BackOffReady(s, w, a.guard, s');
    } else if a.CommitRelease? {
      CommitReady(s, w, a.guard, s');
    } else {
      RescueReady(s, w, a.guard, s');
    }
  }

  /** From the search for the instance to the handler. */
  lemma BeginningReady(s: State, w: Id, s': State, a: Action)
    requires Inv(s) && w in s.workers && WorkerOk(s, s.workers[w])
    requires IsWorkerAction(a) && a.worker == w && WorkerStep(s, a) == Some(s')
    requires a.Find? || a.Check? || a.StoreLockId? || a.Recheck?
    ensures Updated(s, s', w) || Moved(s, s', w)
  {
    hide Inv, WorkerOk, Moved, Updated;
    hide FindStep, CheckStep, GrantStep, ResolveStep, StoreStep, RecheckStep, PublishStep, CompleteStep, HandlerStep,
      RecordStep, AppendStep, AppendThrowsStep, ClearOutboxStep, CommitStep, CatchStep, BackOffStep, RescueStep,
      ClearStep;
    match a {
      case Find(_) => FindReady(s, w, s');
      case Check(_) => CheckReady(s, w, s');
      case StoreLockId(_) => StoreReady(s, w, s');
      case Recheck(_) => RecheckReady(s, w, s');
    }
  }

  /** The handler, its record and its append. */
  lemma HandlingReady(s: State, w: Id, s': State, a: Action)
    requires w in s.workers && WorkerOk(s, s.workers[w])
    requires IsWorkerAction(a) && a.worker == w && WorkerStep(s, a) == Some(s')
    requires !IsRelease(a) && !a.Grant? && !a.Resolve? && !a.ClearLockId?
    requires !a.Find? && !a.Check? && !a.StoreLockId? && !a.Recheck?
    requires CommitsOk(s.commits, s.grantedTo, s.instances)
    ensures Updated(s, s', w) || Moved(s, s', w)
  {
    hide WorkerOk, Moved, Updated, CommitsOk;
    hide FindStep, CheckStep, GrantStep, ResolveStep, StoreStep, RecheckStep, PublishStep, CompleteStep, HandlerStep,
      RecordStep, AppendStep, AppendThrowsStep, ClearOutboxStep, CommitStep, CatchStep, BackOffStep, RescueStep,
      ClearStep;
    match a {
      case Publish(_, e) => PublishReady(s, w, e, s');
      case Complete(_) => CompleteReady(s, w, s');
      case HandlerReturns(_) => HandlerReady(s, w, None, s');
      case HandlerThrows(_, e) => HandlerReady(s, w, Some(e), s');
      case Record(_) => RecordReady(s, w, s');
      case AppendNext(_) => AppendReady(s, w, s');
      case AppendThrows(_, e) => AppendThrowsReady(s, w, e, s');
      case ClearOutbox(_) => ClearOutboxReady(s, w, s');
      case CatchCheck(_) => CatchReady(s, w, s');
    }
  }

  /** Steps of a worker that write no lock table. */
  lemma QuietReady(s: State, w: Id, s': State, a: Action)
    requires Inv(s) && w in s.workers && IsWorkerAction(a) && a.worker == w && WorkerStep(s, a) == Some(s')
    requires !IsRelease(a) && !a.Grant? && !a.Resolve? && !a.ClearLockId?
    ensures Updated(s, s', w) || Moved(s, s', w)
  {
    EveryWorker(s);
    assert CommitsOk(s.commits, s.grantedTo, s.instances);
    hide Inv, WorkerOk, Moved, Updated, CommitsOk, WorkerStep;
    if a.Find? || a.Check? || a.StoreLockId? || a.Recheck? {
      BeginningReady(s, w, s', a);
    } else {
      HandlingReady(s, w, s', a);
    }
  }

  lemma ReadyKeeps(s: State, w: Id, s': State)
    requires Inv(s) && (Released(s, s', w) || Updated(s, s', w) || Moved(s, s', w))
    ensures Inv(s')
  {
    hide Inv, Released, Updated, Moved;
    if Released(s, s', w) {
      ReleasedKeeps(s, w, s');
    } else if Updated(s, s', w) {
      UpdatedKeeps(s, w, s');
    } else {
      MovedKeeps(s, w, s');
    }
  }

  lemma NextKeeps(s: State, a: Action, s': State)
    requires Inv(s) && Next(s, a) == Some(s')
    ensures Inv(s')
  {
    hide Inv, RelayStep, SpawnStep, BusStep, GrantStep, ResolveStep, ClearStep;
    if !IsWorkerAction(a) {
      OutsideKeeps(s, a, s');
    } else if a.Grant? {
      GrantKeeps(s, a.worker, a.lockId, s');
    } else if a.Resolve? {
      ResolveKeeps(s, a.worker, a.instance, s');
    } else if a.ClearLockId? {
      ClearKeeps(s, a.worker, s');
    } else {
      hide WorkerStep, Released, Updated, Moved;
      if IsRelease(a) {
        ReleaseReady(s, a.worker, s', a);
      } else {
        QuietReady(s, a.worker, s', a);
      }
      ReadyKeeps(s, a.worker, s');
    }
  }

  /** The invariant holds after every run. */
  lemma {:induction false} RunsKeep(run: seq<Action>)
    requires Exec(run).Some?
    ensures Inv(Exec(run).value)
  {
    if run != [] {
      RunsKeep(run[..|run| - 1]);
      NextKeeps(Exec(run[..|run| - 1]).value, run[|run| - 1], Exec(run).value);
    }
  }

  /** A step of a worker changes no other worker, and at most the instance it works on. */
  ghost predicate Framed(s: State, s': State, w: Id) {
    && w in s.workers && MovesOnly(s, s', w)
    && (|| (s'.keyOf == s.keyOf && s'.instances == s.instances)
        || ChangesOwn(s, s', s.workers[w].pc)
        || Creates(s, s', s'.workers[w].pc))
  }

  ghost predicate ChangesOwn(s: State, s': State, pc: Pc) {
    && (Holding(pc) || pc.Clearing?) && Exists(s, pc.instance) && pc.instance in s'.instances && s'.keyOf == s.keyOf
    && s'.instances == s.instances[pc.instance := s'.instances[pc.instance]]
    && Evolves(s.instances[pc.instance], s'.instances[pc.instance])
  }

  ghost predicate Creates(s: State, s': State, pc: Pc) {
    && pc.Found? && !Exists(s, pc.instance) && Exists(s', pc.instance)
    && pc.instance !in s.keyOf && pc.instance !in s.instances
    && s'.keyOf == s.keyOf[pc.instance := s'.keyOf[pc.instance]]
    && s'.instances == s.instances[pc.instance := s'.instances[pc.instance]]
  }

  lemma ReadyFrame(s: State, w: Id, s': State)
    requires Released(s, s', w) || Updated(s, s', w) || Moved(s, s', w)
    ensures Framed(s, s', w)
  {
    hide WorkerOk;
  }

  lemma GrantFrame(s: State, w: Id, l: Id, s': State)
    requires w in s.workers && GrantStep(s, w, l) == Some(s')
    ensures Framed(s, s', w)
  {
    var i := s.workers[w].pc.instance;
    if TryLock(s.tables, i, i, s.keyOf[i], l).Granted? {
      assert MovesOnly(s, s', w);
    } else {
      assert MovesOnly(s, s', w);
    }
    hide GrantStep, MovesOnly;
  }

  lemma ResolveFrame(s: State, w: Id, i: Id, s': State)
    requires w in s.workers && ResolveStep(s, w, i) == Some(s')
    ensures Framed(s, s', w)
  {
    if s.workers[w].IsInitiator() {
      assert MovesOnly(s, s', w) && Creates(s, s', s'.workers[w].pc);
    } else {
      assert MovesOnly(s, s', w);
    }
    hide ResolveStep, MovesOnly, Creates;
  }

  lemma ClearFrame(s: State, w: Id, s': State)
    requires w in s.workers && ClearStep(s, w) == Some(s')
    ensures Framed(s, s', w)
  {
  }

  lemma StepFrame(s: State, a: Action, s': State)
    requires Inv(s) && IsWorkerAction(a) && Next(s, a) == Some(s')
    ensures Framed(s, s', a.worker)
  {
    hide Inv, Framed, GrantStep, ResolveStep, ClearStep;
    if a.Grant? {
      GrantFrame(s, a.worker, a.lockId, s');
    } else if a.Resolve? {
      ResolveFrame(s, a.worker, a.instance, s');
    } else if a.ClearLockId? {
      ClearFrame(s, a.worker, s');
    } else {
      hide WorkerStep, Released, Updated, Moved;
      if IsRelease(a) {
        ReleaseReady(s, a.worker, s', a);
      } else {
        QuietReady(s, a.worker, s', a);
      }
      ReadyFrame(s, a.worker, s');
    }
  }

  /** What any step does to the instances: they keep their identity, and record and complete but never the reverse. */
  lemma StepEvolves(s: State, a: Action, s': State)
    requires Inv(s) && Next(s, a) == Some(s')
    ensures forall i | Exists(s, i) ::
            Exists(s', i) && s'.keyOf[i] == s.keyOf[i] && Evolves(s.instances[i], s'.instances[i])
  {
    hide Inv, Next;
    if IsWorkerAction(a) {
      StepFrame(s, a, s');
    } else {
      OutsideSame(s, a, s');
    }
  }
}
