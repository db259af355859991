/**
 What the saga protocol guarantees over every run: any number of workers, messages,
 handler failures and relays, in any interleaving.
 */
module ProtocolTheorems {
  import opened Messages
  import opened LockTables
  import opened SagaProtocol
  import opened ProtocolInvariant

  /** Each (instance, message) pair is committed at most once, and stays recorded by its instance. */
  lemma AtMostOnce(run: seq<Action>)
    requires Exec(run).Some?
    ensures var s := Exec(run).value;
            && (forall j, k | 0 <= j < k < |s.commits| :: s.commits[j] != s.commits[k])
            && (forall c | c in s.commits ::
                c.instance in s.instances && c.message in s.instances[c.instance].processed)
  {
    RunsKeep(run);
  }

  /** SetAsProcessed never throws: the message was not recorded while the handler ran. */
  lemma SetAsProcessedNeverThrows(run: seq<Action>, w: Id)
    requires Exec(run).Some? && w in Exec(run).value.workers && Exec(run).value.workers[w].pc.Handled?
    ensures var s := Exec(run).value;
            var s' := RecordStep(s, w);
            var i := s.workers[w].pc.instance;
            && s'.Some? && s'.value.workers[w].pc.Appending?
            && i in s.instances && s'.value.instances[i].processed
               == s.instances[i].processed + {s.workers[w].context.messageId}
            && s.workers[w].context.messageId !in s.instances[i].processed
  {
    RunsKeep(run);
    assert WorkerOk(Exec(run).value, Exec(run).value.workers[w]);
  }

  /** At most one worker is between grant and release for one saga key, whichever instances it names. */
  lemma OneHolderPerKey(run: seq<Action>, v: Id, w: Id)
    requires Exec(run).Some?
    requires var s := Exec(run).value; v in s.workers && w in s.workers
                                       && Holding(s.workers[v].pc) && Holding(s.workers[w].pc)
                                       && s.workers[v].Key() == s.workers[w].Key()
    ensures v == w
  {
    RunsKeep(run);
    OneHolder(Exec(run).value, v, w);
  }

  lemma OneHolder(s: State, v: Id, w: Id)
    requires Inv(s) && v in s.workers && w in s.workers && Holding(s.workers[v].pc) && Holding(s.workers[w].pc)
    requires s.workers[v].Key() == s.workers[w].Key()
    ensures v == w
  {
    assert WorkerOk(s, s.workers[v]) && WorkerOk(s, s.workers[w]);
    assert HoldsLock(s.tables.byId, v, s.workers[v].pc, s.owner)
      && HoldsLock(s.tables.byId, w, s.workers[w].pc, s.owner);
  }

  predicate LockedWith(s: State, i: Id, k: SagaKey, l: Id) {
    i in s.tables.byId && s.tables.byId[i].lockId == Some(l) && i in s.keyOf && s.keyOf[i] == k
  }

  /**
   A key's entry carries lock `l` exactly when one instance with that key is locked with `l` in the id table, and names
   it.
   */
  lemma TablesAgree(run: seq<Action>, k: SagaKey, l: Id)
    requires Exec(run).Some?
    ensures var s := Exec(run).value;
            && ((k in s.tables.byKey && s.tables.byKey[k].lockId == Some(l)) <==> exists i :: LockedWith(s, i, k, l))
            && (forall i | LockedWith(s, i, k, l) :: s.tables.byKey[k].state == i)
  {
    RunsKeep(run);
    var s := Exec(run).value;
    if k in s.tables.byKey && s.tables.byKey[k].lockId == Some(l) {
      assert NamesGranted(s.tables, k, s.keyOf, s.grantedTo);
      assert LockedWith(s, s.tables.byKey[k].state, k, l);
    }
  }

  /** A worker that is not between grant and release (or leaked) owns no entry of either table, on every exit path. */
  lemma LockAccounting(run: seq<Action>, w: Id)
    requires Exec(run).Some? && w in Exec(run).value.workers && !Holding(Exec(run).value.workers[w].pc)
    ensures var s := Exec(run).value;
            && (forall i | i in s.tables.byId && s.tables.byId[i].lockId.Some? ::
                  s.tables.byId[i].lockId.value in s.owner && s.owner[s.tables.byId[i].lockId.value] != w)
            && (forall k | k in s.tables.byKey && s.tables.byKey[k].lockId.Some? ::
                  s.tables.byKey[k].lockId.value in s.owner && s.owner[s.tables.byKey[k].lockId.value] != w)
  {
    var s := Exec(run).value;
    RunsKeep(run);
    forall i | i in s.tables.byId && s.tables.byId[i].lockId.Some?
      ensures s.tables.byId[i].lockId.value in s.owner && s.owner[s.tables.byId[i].lockId.value] != w
    {
      assert IsOwned(i, s.tables.byId[i].lockId.value, s.workers, s.owner);
    }
    forall k | k in s.tables.byKey && s.tables.byKey[k].lockId.Some?
      ensures s.tables.byKey[k].lockId.value in s.owner && s.owner[s.tables.byKey[k].lockId.value] != w
    {
      assert NamesGranted(s.tables, k, s.keyOf, s.grantedTo);
    }
  }

  /**
   A holder's release frees both its entries, except exactly when the previous holder's `LockId = string.Empty` came
   between its two reads of LockId; then it throws and changes nothing.
   */
  lemma ReleaseFreesIff(run: seq<Action>, w: Id, guard: LockField)
    requires Exec(run).Some? && w in Exec(run).value.workers
    requires var s := Exec(run).value;
             var pc := s.workers[w].pc;
             (pc.BackingOff? || pc.Releasing? || pc.Rescuing?) && Exists(s, pc.instance)
             && MayRead(s.instances[pc.instance].lockId, guard)
    ensures var s := Exec(run).value;
            var i := s.workers[w].pc.instance;
            && (ReleaseOf(s, i, guard) == Some(Freed(s, i)) <==> !(guard.Guid? && s.instances[i].lockId == Empty))
            && (ReleaseOf(s, i, guard).None? <==> guard.Guid? && s.instances[i].lockId == Empty)
  {
    var s := Exec(run).value;
    RunsKeep(run);
    hide Inv, Exec, ReleaseOf;
    HolderReleases(s, w, guard);
  }

  /**
   After a failure a holder keeps its lock for good exactly when its LockId was erased before the catch block looked.
   */
  lemma CatchLeaksIff(run: seq<Action>, w: Id)
    requires Exec(run).Some? && w in Exec(run).value.workers && Exec(run).value.workers[w].pc.Catching?
    ensures var s := Exec(run).value;
            var pc := s.workers[w].pc;
            && pc.instance in s.instances && CatchStep(s, w).Some?
            && (CatchStep(s, w).value.workers[w].pc.Leaked? <==> s.instances[pc.instance].lockId == Empty)
            && (CatchStep(s, w).value.workers[w].pc.Rescuing? <==> s.instances[pc.instance].lockId == Guid(pc.lockId))
  {
    var s := Exec(run).value;
    RunsKeep(run);
    assert WorkerOk(s, s.workers[w]);
    hide Inv, Exec, WorkerOk;
    CatchLooks(s, w);
  }

  lemma CatchLooks(s: State, w: Id)
    requires w in s.workers && s.workers[w].pc.Catching? && WorkerOk(s, s.workers[w])
    ensures var pc := s.workers[w].pc;
            && pc.instance in s.instances && CatchStep(s, w).Some?
            && (CatchStep(s, w).value.workers[w].pc.Leaked? <==> s.instances[pc.instance].lockId == Empty)
            && (CatchStep(s, w).value.workers[w].pc.Rescuing? <==> s.instances[pc.instance].lockId == Guid(pc.lockId))
  {
  }

  /**
   BeginProcessingAsync hands out only an instance that is locked by this worker, and can still process the message.
   */
  lemma BeginReturnsLocked(run: seq<Action>, w: Id)
    requires Exec(run).Some? && w in Exec(run).value.workers
    requires var pc := Exec(run).value.workers[w].pc; pc.Rechecking? && RecheckStep(Exec(run).value, w).Some?
    ensures var s := Exec(run).value;
            var s' := RecheckStep(s, w).value;
            var i := s.workers[w].pc.instance;
            && HoldsLock(s'.tables.byId, w, s'.workers[w].pc, s'.owner)
            && s'.keyOf[i] == s.workers[w].Key()
            && (s'.workers[w].pc.Handling? <==>
                  !s'.instances[i].isCompleted && s.workers[w].context.messageId !in s'.instances[i].processed)
  {
    var s := Exec(run).value;
    RunsKeep(run);
    assert WorkerOk(s, s.workers[w]);
    assert HoldsLock(s.tables.byId, w, s.workers[w].pc, s.owner);
    hide Inv, Exec;
    RecheckDecides(s, w);
    hide RecheckStep;
  }

  lemma RecheckDecides(s: State, w: Id)
    requires w in s.workers && WorkerOk(s, s.workers[w]) && s.workers[w].pc.Rechecking? && RecheckStep(s, w).Some?
    requires HoldsLock(s.tables.byId, w, s.workers[w].pc, s.owner)
    ensures var s' := RecheckStep(s, w).value;
            var i := s.workers[w].pc.instance;
            && Holding(s'.workers[w].pc) && HoldsLock(s'.tables.byId, w, s'.workers[w].pc, s'.owner)
            && i in s'.keyOf && s'.keyOf[i] == s.workers[w].Key() && Exists(s', i)
            && (s'.workers[w].pc.Handling? <==> CanProcess(s', i, s.workers[w]))
  {
    var s' := RecheckStep(s, w).value;
    var pc := s.workers[w].pc;
    assert s' == s.(workers := s'.workers);
    if CanProcess(s, pc.instance, s.workers[w]) {
      assert s'.workers[w].pc == Handling(pc.instance, pc.lockId);
    } else {
      assert s'.workers[w].pc == BackingOff(pc.retry, pc.instance, pc.lockId);
    }
    hide RecheckStep;
  }

  /** The second attempt always finds an instance, so it never creates one. */
  lemma RetryNeverCreates(run: seq<Action>, w: Id)
    requires Exec(run).Some? && w in Exec(run).value.workers
    ensures Exec(run).value.workers[w].pc != Missing(true)
    ensures Exec(run).value.workers[w].pc == Finding(true) ==>
              var s' := FindStep(Exec(run).value, w);
              s'.Some? && s'.value.workers[w].pc.Found? && Exists(s'.value, s'.value.workers[w].pc.instance)
  {
    var s := Exec(run).value;
    RunsKeep(run);
    assert WorkerOk(s, s.workers[w]);
    if s.workers[w].pc == Finding(true) {
      assert NamesGranted(s.tables, s.workers[w].Key(), s.keyOf, s.grantedTo);
    }
  }

  /**
   What BeginProcessingAsync throws: an aggregate of exactly the conflict and the second attempt's exception if and only
   if it made a second attempt; otherwise a missing saga or a lock, never a conflict alone.
   */
  lemma Rejections(run: seq<Action>, w: Id)
    requires Exec(run).Some? && w in Exec(run).value.workers
    requires var pc := Exec(run).value.workers[w].pc; (pc.Done? || pc.Leaked?) && pc.outcome.Rejected?
    ensures var o := Exec(run).value.workers[w].pc.outcome;
            && (o.error.AggregateException? <==> o.retry)
            && (if o.retry then o.error in {AggregateException([OptimisticLockException, LockException]),
                                            AggregateException([OptimisticLockException, OptimisticLockException])}
                else o.error in {ApplicationException, LockException})
  {
    RunsKeep(run);
    assert WorkerOk(Exec(run).value, Exec(run).value.workers[w]);
  }

  /** MessageDispatcher swallows SagaException and nothing else. */
  predicate ReturnsNormally(o: Outcome) {
    o.Committed? || o.NoOp? || (o.Failed? && o.error.SagaException?)
  }

  /** What a delivery leaves behind for one descriptor, and stays true in every later state. */
  ghost predicate Settled(s: State, key: SagaKey, message: Id) {
    exists i :: Exists(s, i) && s.keyOf[i] == key && (message in s.instances[i].processed || s.instances[i].isCompleted)
  }

  /**
   Redelivery convergence: however often and concurrently a message is delivered, when the work for a descriptor
   has returned normally its saga has recorded the message, is completed, or the handler failed in that delivery.
   */
  lemma DeliveryConverges(run: seq<Action>, w: Id)
    requires Exec(run).Some? && w in Exec(run).value.workers && Exec(run).value.workers[w].pc.Done?
    requires ReturnsNormally(Exec(run).value.workers[w].pc.outcome)
    ensures var s := Exec(run).value;
            || Settled(s, s.workers[w].Key(), s.workers[w].context.messageId)
            || (s.workers[w].pc.outcome.Failed? && s.workers[w].pc.outcome.error.SagaException?)
  {
    var s := Exec(run).value;
    RunsKeep(run);
    assert WorkerOk(s, s.workers[w]);
    if !s.workers[w].pc.outcome.Failed? {
      var i := s.workers[w].pc.outcome.instance;
      assert Exists(s, i) && s.keyOf[i] == s.workers[w].Key();
    }
  }
}
