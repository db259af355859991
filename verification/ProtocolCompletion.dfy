/**
 What the checks and the lock of an instance decide, in every run: which messages get to their
 handler, that a completed instance takes no further message, that a handler that throws commits
 nothing, and that only initiators create instances.
 */
module ProtocolCompletion {
  import opened Messages
  import opened LockTables
  import opened SagaProtocol
  import opened ProtocolInvariant
  import opened ProtocolTheorems
  import opened ProtocolRuns
  import opened ProtocolLosses
  import opened ProtocolKeys

  /** The instance still takes the message: it is not completed, and has not recorded the message. */
  predicate Takes(x: Instance, m: Id) {
    !x.isCompleted && m !in x.processed
  }

  lemma TakesIff(s: State, w: Worker, i: Id)
    requires Serves(s, w, i)
    ensures CanProcess(s, i, w) <==> !s.instances[i].isCompleted && w.context.messageId !in s.instances[i].processed
  {
  }

  /**
   The check before the lock: the worker goes on to lock the instance if and only if that is not completed and has not
   recorded the message; otherwise its work ends with a no-op.
   */
  lemma CheckDecides(run: seq<Action>, w: Id)
    requires Exec(run).Some? && w in Exec(run).value.workers
    requires var pc := Exec(run).value.workers[w].pc; pc.Found? && CheckStep(Exec(run).value, w).Some?
    ensures var s := Exec(run).value;
            var pc, pc' := s.workers[w].pc, CheckStep(s, w).value.workers[w].pc;
            && pc.instance in s.instances
            && pc' == if !s.instances[pc.instance].isCompleted
                         && s.workers[w].context.messageId !in s.instances[pc.instance].processed
                      then Locking(pc.retry, pc.instance) else Done(NoOp(pc.instance))
  {
    var s := Exec(run).value;
    RunsKeep(run);
    assert WorkerOk(s, s.workers[w]);
    hide Inv, Exec;
    TakesIff(s, s.workers[w], s.workers[w].pc.instance);
    hide CanProcess;
  }

  /**
   The check under the lock: the worker gets to its handler if and only if the instance is not completed and has not
   recorded the message; otherwise it backs off.
   */
  lemma RecheckDecides(run: seq<Action>, w: Id)
    requires Exec(run).Some? && w in Exec(run).value.workers
    requires var pc := Exec(run).value.workers[w].pc; pc.Rechecking? && RecheckStep(Exec(run).value, w).Some?
    ensures var s := Exec(run).value;
            var pc, pc' := s.workers[w].pc, RecheckStep(s, w).value.workers[w].pc;
            && pc.instance in s.instances
            && pc' == if !s.instances[pc.instance].isCompleted
                         && s.workers[w].context.messageId !in s.instances[pc.instance].processed
                      then Handling(pc.instance, pc.lockId) else BackingOff(pc.retry, pc.instance, pc.lockId)
  {
    var s := Exec(run).value;
    RunsKeep(run);
    assert WorkerOk(s, s.workers[w]);
    hide Inv, Exec;
    TakesIff(s, s.workers[w], s.workers[w].pc.instance);
    hide CanProcess;
  }

  predicate IsLocked<K>(table: map<K, Entry<Id>>, k: K) {
    k in table && table[k].lockId.Some?
  }

  /**
   The lock: it is granted, in both tables, if and only if neither the instance nor its key is locked. A locked instance
   ends the work at once; a key that alone is locked gives one more attempt and no third.
   */
  lemma GrantDecides(run: seq<Action>, w: Id, l: Id)
    requires Exec(run).Some? && w in Exec(run).value.workers
    requires Exec(run).value.workers[w].pc.Locking? && GrantStep(Exec(run).value, w, l).Some?
    ensures var s, s' := Exec(run).value, GrantStep(Exec(run).value, w, l).value;
            var pc, pc', key := s.workers[w].pc, s'.workers[w].pc, s.workers[w].Key();
            && s'.tables == (if pc'.Storing? then Tables(s.tables.byId[pc.instance := Entry(pc.instance, Some(l))],
                                                         s.tables.byKey[key := Entry(pc.instance, Some(l))])
                             else s.tables)
            && (pc' == Storing(pc.retry, pc.instance, l)
                <==> !IsLocked(s.tables.byId, pc.instance) && !IsLocked(s.tables.byKey, key))
            && (IsLocked(s.tables.byId, pc.instance)
                ==> pc' == Done(Rejected(pc.retry, if pc.retry then
                                           AggregateException([OptimisticLockException, LockException])
                                         else LockException)))
            && (!IsLocked(s.tables.byId, pc.instance) && IsLocked(s.tables.byKey, key)
                ==> pc' == if pc.retry then Done(Rejected(true, AggregateException([OptimisticLockException,
                                                                                    OptimisticLockException])))
                           else Finding(true))
  {
    RunsKeep(run);
    assert WorkerOk(Exec(run).value, Exec(run).value.workers[w]);
    hide Inv, Exec;
    Grants(Exec(run).value, w, l);
  }

  lemma Grants(s: State, w: Id, l: Id)
    requires w in s.workers && s.workers[w].pc.Locking? && GrantStep(s, w, l).Some?
    requires Serves(s, s.workers[w], s.workers[w].pc.instance)
    ensures var s', pc, key := GrantStep(s, w, l).value, s.workers[w].pc, s.workers[w].Key();
            match TryLock(s.tables, pc.instance, pc.instance, key, l)
            case Granted(t) => s'.tables == t && s'.workers[w].pc == Storing(pc.retry, pc.instance, l)
            case AlreadyLocked => s'.tables == s.tables && s'.workers[w].pc == Done(Refusal(pc.retry, LockException))
            case Conflict =>
              && s'.tables == s.tables
              && s'.workers[w].pc == if pc.retry then Done(Refusal(true, OptimisticLockException)) else Finding(true)
  {
  }

  // ----- Completed instances -----

  lemma CompleteIs(s: State, w: Id, s': State)
    requires Next(s, Complete(w)) == Some(s')
    ensures w in s.workers && CompleteStep(s, w) == Some(s')
  {
    hide CompleteStep;
  }

  /** MarkAsCompleted completes the instance of the handler that calls it, for good. */
  lemma CompletesForGood(run: seq<Action>, n: nat, m: nat, w: Id)
    requires n < m <= |run| && Exec(run).Some? && run[n] == Complete(w)
    ensures var s, s' := After(run, n), After(run, m);
            && w in s.workers && s.workers[w].pc.Handling?
            && var i := s.workers[w].pc.instance; i in s'.instances && s'.instances[i].isCompleted
  {
    StepAt(run, n);
    Completes(After(run, n), w, After(run, n + 1));
    hide After, Exec, Inv, Next;
    StaysCompleted(run, n + 1, m, After(run, n).workers[w].pc.instance);
  }

  lemma Completes(s: State, w: Id, s': State)
    requires Inv(s) && Next(s, Complete(w)) == Some(s')
    ensures w in s.workers && s.workers[w].pc.Handling?
    ensures var i := s.workers[w].pc.instance; Exists(s', i) && s'.instances[i].isCompleted
  {
    CompleteIs(s, w, s');
    hide Inv, Next;
  }

  /** Completed at one moment of a run is completed at every later one. */
  lemma {:induction false} StaysCompleted(run: seq<Action>, n: nat, m: nat, i: Id)
    requires n <= m <= |run| && Exec(run).Some? && Exists(After(run, n), i) && After(run, n).instances[i].isCompleted
    ensures Exists(After(run, m), i) && After(run, m).instances[i].isCompleted
  {
    hide After, Exec, Inv, Next, Exists;
    if n < m {
      StaysCompleted(run, n, m - 1, i);
      StepAt(run, m - 1);
      StepEvolves(After(run, m - 1), run[m - 1], After(run, m));
      ExistsIn(After(run, m - 1), After(run, m), i);
    }
  }

  lemma ExistsIn(s: State, s': State, i: Id)
    requires Exists(s, i) && s.instances[i].isCompleted
    requires forall j | Exists(s, j) :: Exists(s', j) && s'.keyOf[j] == s.keyOf[j]
                                        && Evolves(s.instances[j], s'.instances[j])
    ensures Exists(s', i) && s'.instances[i].isCompleted
  {
  }

  /** The worker has backed off, or is done. */
  predicate IsOff(s: State, w: Id) {
    w in s.workers && (s.workers[w].pc.BackingOff? || s.workers[w].pc.Done? || s.workers[w].pc.Leaked?)
  }

  lemma StaysOff(s: State, a: Action, s': State, w: Id)
    requires Inv(s) && Next(s, a) == Some(s') && IsOff(s, w)
    ensures IsOff(s', w)
  {
    hide Inv, Next;
    if !IsWorkerAction(a) || a.worker != w {
      OtherWorker(s, a, s', w);
    } else {
      Allowed(s, a);
      BackOffIs(s, a, s');
      hide BackOffStep;
      BackOffEnds(s, w, a.guard, s');
    }
  }

  lemma {:induction false} OffBetween(run: seq<Action>, n: nat, m: nat, w: Id)
    requires n <= m <= |run| && Exec(run).Some? && IsOff(After(run, n), w)
    ensures IsOff(After(run, m), w)
  {
    hide After, Exec, Inv, Next, IsOff;
    if n < m {
      OffBetween(run, n, m - 1, w);
      StepAt(run, m - 1);
      StaysOff(After(run, m - 1), run[m - 1], After(run, m), w);
    }
  }

  lemma RecheckGoes(s: State, w: Id, s': State)
    requires Inv(s) && Next(s, Recheck(w)) == Some(s')
    ensures w in s.workers && s.workers[w].pc.Rechecking? && Exists(s, s.workers[w].pc.instance)
    ensures !Takes(s.instances[s.workers[w].pc.instance], s.workers[w].context.messageId) ==> IsOff(s', w)
  {
  }

  /**
   A completed instance takes nothing more: a worker that re-checks it after it was completed backs off, and never gets
   to its handler or to a commit.
   */
  lemma CompletedTakesNothing(run: seq<Action>, n: nat, j: nat, m: nat, w: Id)
    requires n <= j < m <= |run| && Exec(run).Some? && run[j] == Recheck(w)
    requires var s := After(run, j);
             w in s.workers && s.workers[w].pc.Rechecking?
             && Exists(After(run, n), s.workers[w].pc.instance)
             && After(run, n).instances[s.workers[w].pc.instance].isCompleted
    ensures IsOff(After(run, m), w)
  {
    StepAt(run, j);
    hide After, Exec, Inv, Next, IsOff;
    StaysCompleted(run, n, j, After(run, j).workers[w].pc.instance);
    RecheckGoes(After(run, j), w, After(run, j + 1));
    OffBetween(run, j + 1, m, w);
  }

  lemma ReadySame(s: State, s': State, w: Id)
    requires Updated(s, s', w) || Moved(s, s', w)
    ensures w in s.workers && w in s'.workers && SameHold(s.workers[w].pc, s'.workers[w].pc)
  {
    hide WorkerOk;
  }

  /** From its grant to its release a worker keeps to its instance. */
  lemma SameInstance(s: State, a: Action, s': State, w: Id)
    requires Inv(s) && Next(s, a) == Some(s') && w in s.workers && w in s'.workers
    requires Holding(s.workers[w].pc) && Holding(s'.workers[w].pc)
    ensures s'.workers[w].pc.instance == s.workers[w].pc.instance
  {
    hide Inv, Next;
    if !IsWorkerAction(a) || a.worker != w {
      OtherWorker(s, a, s', w);
    } else {
      Allowed(s, a);
      KindOf(s, a, s');
      hide Released, Updated, Moved, GrantStep, ResolveStep, ClearStep;
      if Released(s, s', w) {
        NotHolding(s, w, s');
      } else {
        ReadySame(s, s', w);
      }
    }
  }

  lemma {:induction false} InstanceBetween(run: seq<Action>, n: nat, m: nat, w: Id)
    requires n <= m <= |run| && Exec(run).Some? && w in After(run, n).workers && w in After(run, m).workers
    requires Holding(After(run, n).workers[w].pc) && Holding(After(run, m).workers[w].pc)
    ensures After(run, m).workers[w].pc.instance == After(run, n).workers[w].pc.instance
  {
    hide After, Exec, Inv, Next;
    if n < m {
      PhaseBetween(run, n, m - 1, w);
      PhaseBetween(run, m - 1, m, w);
      InstanceBetween(run, n, m - 1, w);
      StepAt(run, m - 1);
      SameInstance(After(run, m - 1), run[m - 1], After(run, m), w);
    }
  }

  /** A commit on a completed instance is by a worker that re-checked, under its lock, before it was completed. */
  lemma LateCommits(run: seq<Action>, n: nat, m: nat, w: Id) returns (j: nat)
    requires n <= m < |run| && Exec(run).Some? && Commits(After(run, m), After(run, m + 1), w)
    requires var i := After(run, m).workers[w].pc.instance;
             Exists(After(run, n), i) && After(run, n).instances[i].isCompleted
    ensures j < n && run[j] == Recheck(w)
  {
    j := RecheckBefore(run, m, w);
    if n <= j {
      StepAt(run, j);
      RecheckGoes(After(run, j), w, After(run, j + 1));
      hide After, Exec, Inv, Next;
      InstanceBetween(run, j, m, w);
      CompletedTakesNothing(run, n, j, m, w);
      assert false;
    }
  }

  // ----- Handlers that fail -----

  /** The worker is in its catch block with `e`, or has ended with it. */
  predicate Fails(s: State, w: Id, e: Error) {
    w in s.workers &&
    match s.workers[w].pc
    case Catching(_, _, error) => error == e
    case Rescuing(_, _, error) => error == e
    case Clearing(_, outcome) => outcome == Failed(e)
    case Done(outcome) => outcome == Failed(e)
    case Leaked(_, _, outcome) => outcome == Failed(e)
    case _ => false
  }

  lemma ThrowFails(s: State, w: Id, e: Error, s': State)
    requires Next(s, HandlerThrows(w, e)) == Some(s')
    ensures Fails(s', w, e)
  {
    hide FindStep, ResolveStep, CheckStep, GrantStep, StoreStep, RecheckStep, BackOffStep, PublishStep, CompleteStep,
      RecordStep, AppendStep, ClearOutboxStep, AppendThrowsStep, CommitStep, RescueStep, CatchStep, ClearStep,
      RelayStep;
  }

  lemma CatchSteps(s: State, a: Action, s': State)
    requires (a.CatchCheck? || a.CatchRelease? || a.ClearLockId?) && Next(s, a) == Some(s')
    ensures a.worker in s.workers
    ensures a.CatchCheck? ==> CatchStep(s, a.worker) == Some(s')
    ensures a.CatchRelease? ==> RescueStep(s, a.worker, a.guard) == Some(s')
    ensures a.ClearLockId? ==> ClearStep(s, a.worker) == Some(s')
  {
    hide FindStep, ResolveStep, CheckStep, GrantStep, StoreStep, RecheckStep, BackOffStep, PublishStep, CompleteStep,
      HandlerStep, RecordStep, AppendStep, ClearOutboxStep, AppendThrowsStep, CommitStep, RescueStep, CatchStep,
      ClearStep, RelayStep;
  }

  lemma CatchFails(s: State, w: Id, e: Error, s': State)
    requires Fails(s, w, e) && CatchStep(s, w) == Some(s')
    ensures Fails(s', w, e)
  {
  }

  lemma RescueFails(s: State, w: Id, guard: LockField, e: Error, s': State)
    requires Fails(s, w, e) && RescueStep(s, w, guard) == Some(s')
    ensures Fails(s', w, e)
  {
    hide ReleaseOf, MayRead;
  }

  lemma ClearFails(s: State, w: Id, e: Error, s': State)
    requires Fails(s, w, e) && ClearStep(s, w) == Some(s')
    ensures Fails(s', w, e)
  {
  }

  lemma StaysFailing(s: State, a: Action, s': State, w: Id, e: Error)
    requires Inv(s) && Next(s, a) == Some(s') && Fails(s, w, e)
    ensures Fails(s', w, e)
  {
    hide Inv, Next;
    if !IsWorkerAction(a) || a.worker != w {
      OtherWorker(s, a, s', w);
    } else {
      Allowed(s, a);
      assert a.CatchCheck? || a.CatchRelease? || a.ClearLockId?;
      CatchSteps(s, a, s');
      hide Fails, CatchStep, RescueStep, ClearStep;
      if a.CatchCheck? {
        CatchFails(s, w, e, s');
      } else if a.CatchRelease? {
        RescueFails(s, w, a.guard, e, s');
      } else {
        ClearFails(s, w, e, s');
      }
    }
  }

  /**
   A handler that throws never gets its message recorded or committed: from then on its worker is in the catch block,
   and ends with the handler's error whatever becomes of the release.
   */
  lemma {:induction false} ThrowsForGood(run: seq<Action>, n: nat, m: nat, w: Id, e: Error)
    requires n < m <= |run| && Exec(run).Some? && run[n] == HandlerThrows(w, e)
    ensures Fails(After(run, m), w, e)
  {
    StepAt(run, m - 1);
    hide After, Exec, Inv, Next, Fails;
    if n < m - 1 {
      ThrowsForGood(run, n, m - 1, w, e);
      StaysFailing(After(run, m - 1), run[m - 1], After(run, m), w, e);
    } else {
      ThrowFails(After(run, n), w, e, After(run, m));
    }
  }

  // ----- Who creates instances -----

  lemma ResolveIs(s: State, w: Id, i: Id, s': State)
    requires Next(s, Resolve(w, i)) == Some(s')
    ensures w in s.workers && ResolveStep(s, w, i) == Some(s')
  {
    hide ResolveStep;
  }

  lemma Resolves(s: State, w: Id, i: Id, s': State)
    requires w in s.workers && ResolveStep(s, w, i) == Some(s')
    ensures s.workers[w].pc.Missing? && w in s'.workers
    ensures if s.workers[w].context.messageType in s.workers[w].descriptor.initiatorTypes then
              && s'.workers[w].pc == Found(s.workers[w].pc.retry, i) && i !in s.keyOf
              && s'.keyOf == s.keyOf[i := s.workers[w].Key()]
            else
              && s'.workers[w].pc == Done(Refusal(s.workers[w].pc.retry, ApplicationException))
              && s'.keyOf == s.keyOf
  {
  }

  lemma KeepsKeys(s: State, a: Action, s': State)
    requires Inv(s) && Next(s, a) == Some(s') && !a.Resolve?
    ensures s'.keyOf == s.keyOf
  {
    hide Inv, Next;
    if !IsWorkerAction(a) {
      OutsideSame(s, a, s');
    } else {
      KindOf(s, a, s');
      hide Released, Updated, Moved, GrantStep, ResolveStep, ClearStep;
      if a.Grant? && GrantStep(s, a.worker, a.lockId) == Some(s') {
        GrantKeys(s, a.worker, a.lockId, s');
      } else if a.ClearLockId? && ClearStep(s, a.worker) == Some(s') {
        ClearKeys(s, a.worker, s');
      } else {
        ReadyKeys(s, s', a.worker);
      }
    }
  }

  lemma GrantKeys(s: State, w: Id, l: Id, s': State)
    requires w in s.workers && GrantStep(s, w, l) == Some(s')
    ensures s'.keyOf == s.keyOf
  {
    var i := s.workers[w].pc.instance;
    if TryLock(s.tables, i, i, s.keyOf[i], l).Granted? {
      assert s'.keyOf == s.keyOf;
    } else {
      assert s'.keyOf == s.keyOf;
    }
    hide GrantStep;
  }

  lemma ClearKeys(s: State, w: Id, s': State)
    requires w in s.workers && ClearStep(s, w) == Some(s')
    ensures s'.keyOf == s.keyOf
  {
  }

  lemma ReadyKeys(s: State, s': State, w: Id)
    requires Released(s, s', w) || Updated(s, s', w) || Moved(s, s', w)
    ensures s'.keyOf == s.keyOf
  {
    hide WorkerOk;
  }

  /** Whatever is created in a run is created by a worker that found nothing and whose message starts the saga. */
  lemma OnlyInitiatorsCreate(run: seq<Action>, n: nat, i: Id)
    requires n < |run| && Exec(run).Some? && i !in After(run, n).keyOf && i in After(run, n + 1).keyOf
    ensures run[n].Resolve? && run[n].instance == i
    ensures var s, w := After(run, n), run[n].worker;
            && w in s.workers && s.workers[w].pc.Missing? && After(run, n + 1).keyOf[i] == s.workers[w].Key()
            && s.workers[w].context.messageType in s.workers[w].descriptor.initiatorTypes
  {
    StepAt(run, n);
    var s, a, s' := After(run, n), run[n], After(run, n + 1);
    hide After, Exec, Inv, Next;
    if a.Resolve? {
      ResolveIs(s, a.worker, a.instance, s');
      hide ResolveStep;
      Resolves(s, a.worker, a.instance, s');
    } else {
      KeepsKeys(s, a, s');
    }
  }

  lemma MissesOnce(s: State, w: Id)
    requires Inv(s)
    ensures w in s.workers && s.workers[w].pc.Missing? ==> !s.workers[w].pc.retry
  {
    if w in s.workers {
      assert WorkerOk(s, s.workers[w]);
    }
  }

  /** And a message that starts nothing is refused where nothing was found. */
  lemma OthersAreRefused(run: seq<Action>, n: nat, w: Id, i: Id)
    requires n < |run| && Exec(run).Some? && run[n] == Resolve(w, i)
    ensures var s, s' := After(run, n), After(run, n + 1);
            && w in s.workers && w in s'.workers
            && (s.workers[w].context.messageType !in s.workers[w].descriptor.initiatorTypes <==>
                  s'.workers[w].pc == Done(Rejected(false, ApplicationException)))
  {
    StepAt(run, n);
    hide After, Exec;
    MissesOnce(After(run, n), w);
    hide Inv;
    ResolveIs(After(run, n), w, i, After(run, n + 1));
    hide Next, ResolveStep;
    Resolves(After(run, n), w, i, After(run, n + 1));
  }
}
