/**
 Properties that compare different moments of one run: what stays settled, which instance
 a key names, and which runs leak no lock.
 */
module ProtocolRuns {
  import opened Messages
  import opened LockTables
  import opened SagaProtocol
  import opened ProtocolInvariant
  import opened ProtocolTheorems

  /** The state after the first `n` actions. */
  ghost function After(run: seq<Action>, n: nat): State
    requires n <= |run| && Exec(run).Some?
  {
    PrefixRuns(run, n);
    Exec(run[..n]).value
  }

  lemma {:induction false} PrefixRuns(run: seq<Action>, n: nat)
    requires n <= |run| && Exec(run).Some?
    ensures Exec(run[..n]).Some?
    decreases |run|
  {
    if n == |run| {
      assert run[..n] == run;
    } else {
      assert run[..|run| - 1][..n] == run[..n];
      PrefixRuns(run[..|run| - 1], n);
    }
  }

  lemma StepAt(run: seq<Action>, n: nat)
    requires n < |run| && Exec(run).Some?
    ensures Next(After(run, n), run[n]) == Some(After(run, n + 1))
    ensures Inv(After(run, n)) && Inv(After(run, n + 1))
  {
    PrefixRuns(run, n + 1);
    PrefixRuns(run, n);
    assert run[..n + 1][..n] == run[..n];
    RunsKeep(run[..n]);
    RunsKeep(run[..n + 1]);
  }

  lemma AfterAll(run: seq<Action>)
    requires Exec(run).Some?
    ensures After(run, |run|) == Exec(run).value && After(run, 0) == INITIAL
  {
    assert run[..|run|] == run && run[..0] == [];
  }

  /** Settled stays settled: neither recording nor completion is ever undone. */
  lemma {:induction false} SettledStays(run: seq<Action>, n: nat, key: SagaKey, message: Id)
    requires n <= |run| && Exec(run).Some? && Settled(After(run, n), key, message)
    ensures Settled(Exec(run).value, key, message)
    decreases |run| - n
  {
    if n == |run| {
      AfterAll(run);
    } else {
      StepAt(run, n);
      StepEvolves(After(run, n), run[n], After(run, n + 1));
      var i :| Exists(After(run, n), i) && After(run, n).keyOf[i] == key
               && (message in After(run, n).instances[i].processed || After(run, n).instances[i].isCompleted);
      assert Exists(After(run, n + 1), i);
      SettledStays(run, n + 1, key, message);
    }
  }

  /**
   Redelivery convergence: when a delivery of a message to a list of descriptors has returned normally, from then on
   every descriptor's saga has recorded the message or is completed, unless its handler failed in that delivery.
   */
  lemma RedeliveryConverges(run: seq<Action>, n: nat, context: MessageContext, descriptors: seq<SagaDescriptor>,
                            workers: seq<Id>)
    requires n <= |run| && Exec(run).Some? && |workers| == |descriptors|
    requires var s := After(run, n);
             forall j | 0 <= j < |workers| ::
               && workers[j] in s.workers && s.workers[workers[j]].context == context
               && s.workers[workers[j]].descriptor == descriptors[j]
               && s.workers[workers[j]].pc.Done? && ReturnsNormally(s.workers[workers[j]].pc.outcome)
    ensures forall j | 0 <= j < |workers| ::
              || Settled(Exec(run).value, KeyOf(descriptors[j], context.correlationId), context.messageId)
              || (After(run, n).workers[workers[j]].pc.outcome.Failed? &&
                  After(run, n).workers[workers[j]].pc.outcome.error.SagaException?)
  {
    forall j | 0 <= j < |workers| && !After(run, n).workers[workers[j]].pc.outcome.Failed?
      ensures Settled(Exec(run).value, KeyOf(descriptors[j], context.correlationId), context.messageId)
    {
      PrefixRuns(run, n);
      DeliveryConverges(run[..n], workers[j]);
      SettledStays(run, n, KeyOf(descriptors[j], context.correlationId), context.messageId);
    }
  }

  // ----- Which instance a key names -----

  ghost predicate Named(s: State, k: SagaKey, i: Id) {
    k in s.tables.byKey && s.tables.byKey[k].state == i
  }

  /** Only a grant changes who was ever granted a lock, and it makes the key name that instance. */
  ghost predicate GrantsOnly(s: State, s': State) {
    || s'.grantedTo == s.grantedTo
    || exists i :: i in s'.keyOf && s'.grantedTo == s.grantedTo + {i} && Named(s', s'.keyOf[i], i)
  }

  lemma ResolveGrants(s: State, w: Id, i: Id, s': State)
    requires w in s.workers && ResolveStep(s, w, i) == Some(s')
    ensures s'.grantedTo == s.grantedTo
  {
  }

  lemma ClearGrants(s: State, w: Id, s': State)
    requires w in s.workers && ClearStep(s, w) == Some(s')
    ensures s'.grantedTo == s.grantedTo
  {
  }

  lemma StepGrants(s: State, a: Action, s': State)
    requires Inv(s) && Next(s, a) == Some(s')
    ensures GrantsOnly(s, s')
  {
    hide Inv, GrantStep, ResolveStep, ClearStep;
    if !IsWorkerAction(a) {
      OutsideSame(s, a, s');
    } else if a.Grant? {
      GrantGrants(s, a.worker, a.lockId, s');
    } else if a.Resolve? {
      ResolveGrants(s, a.worker, a.instance, s');
    } else if a.ClearLockId? {
      ClearGrants(s, a.worker, s');
    } else {
      hide WorkerStep, Released, Updated, Moved;
      if IsRelease(a) {
        ReleaseReady(s, a.worker, s', a);
      } else {
        QuietReady(s, a.worker, s', a);
      }
      ReadyGrants(s, a.worker, s');
    }
  }

  lemma ReadyGrants(s: State, w: Id, s': State)
    requires Released(s, s', w) || Updated(s, s', w) || Moved(s, s', w)
    ensures s'.grantedTo == s.grantedTo
  {
    hide WorkerOk;
  }

  lemma GrantGrants(s: State, w: Id, l: Id, s': State)
    requires w in s.workers && GrantStep(s, w, l) == Some(s')
    ensures GrantsOnly(s, s')
  {
    var i := s.workers[w].pc.instance;
    assert s'.workers[w].pc.Storing? ==> Named(s', s'.keyOf[i], i);
  }

  /** Every instance that was granted its lock was named by its key at some moment. */
  lemma {:induction false} GrantedWasNamed(run: seq<Action>, n: nat, i: Id) returns (m: nat)
    requires n <= |run| && Exec(run).Some? && i in After(run, n).grantedTo
    ensures m <= n && i in Exec(run).value.keyOf && Named(After(run, m), Exec(run).value.keyOf[i], i)
  {
    AfterAll(run);
    if n == 0 {
      assert false;
    } else {
      StepAt(run, n - 1);
      StepGrants(After(run, n - 1), run[n - 1], After(run, n));
      if i in After(run, n - 1).grantedTo {
        m := GrantedWasNamed(run, n - 1, i);
      } else {
        m := n;
        KeysStay(run, n, i);
      }
    }
  }

  lemma {:induction false} KeysStay(run: seq<Action>, n: nat, i: Id)
    requires n <= |run| && Exec(run).Some? && i in After(run, n).keyOf
    ensures i in Exec(run).value.keyOf && Exec(run).value.keyOf[i] == After(run, n).keyOf[i]
    decreases |run| - n
  {
    if n == |run| {
      AfterAll(run);
    } else {
      StepAt(run, n);
      StepEvolves(After(run, n), run[n], After(run, n + 1));
      assert Exists(After(run, n), i) && Exists(After(run, n + 1), i);
      KeysStay(run, n + 1, i);
    }
  }

  lemma {:induction false} GrantsStay(run: seq<Action>, n: nat, i: Id)
    requires n <= |run| && Exec(run).Some? && i in After(run, n).grantedTo
    ensures i in Exec(run).value.grantedTo
    decreases |run| - n
  {
    if n == |run| {
      AfterAll(run);
    } else {
      StepAt(run, n);
      StepGrants(After(run, n), run[n], After(run, n + 1));
      GrantsStay(run, n + 1, i);
    }
  }

  /** At most one instance of the key ever obtained its lock. */
  ghost predicate SingleCreator(s: State, k: SagaKey) {
    forall i, j | i in s.grantedTo && j in s.grantedTo && i in s.keyOf && j in s.keyOf && s.keyOf[i] == k
      && s.keyOf[j] == k :: i == j
  }

  /** The key names one and the same instance whenever it names any. */
  ghost predicate KeyStable(run: seq<Action>, k: SagaKey)
    requires Exec(run).Some?
  {
    forall m: nat, n: nat, i, j | m <= |run| && n <= |run| && Named(After(run, m), k, i)
      && Named(After(run, n), k, j) :: i == j
  }

  /** A key is stable exactly in the runs where one created instance at most was granted the lock. */
  lemma KeyStability(run: seq<Action>, k: SagaKey)
    requires Exec(run).Some?
    ensures KeyStable(run, k) <==> SingleCreator(Exec(run).value, k)
  {
    var s := Exec(run).value;
    if KeyStable(run, k) {
      forall i, j | i in s.grantedTo && j in s.grantedTo && i in s.keyOf && j in s.keyOf && s.keyOf[i] == k
        && s.keyOf[j] == k
        ensures i == j
      {
        AfterAll(run);
        var m := GrantedWasNamed(run, |run|, i);
        var n := GrantedWasNamed(run, |run|, j);
      }
    }
    if SingleCreator(s, k) {
      forall m: nat, n: nat, i, j | m <= |run| && n <= |run| && Named(After(run, m), k, i) && Named(After(run, n), k, j)
        ensures i == j
      {
        NamedIsGranted(run, m, k, i);
        NamedIsGranted(run, n, k, j);
      }
    }
  }

  lemma NamedIsGranted(run: seq<Action>, n: nat, k: SagaKey, i: Id)
    requires n <= |run| && Exec(run).Some? && Named(After(run, n), k, i)
    ensures var s := Exec(run).value; i in s.grantedTo && i in s.keyOf && s.keyOf[i] == k
  {
    var s := After(run, n);
    PrefixRuns(run, n);
    RunsKeep(run[..n]);
    assert NamesGranted(s.tables, k, s.keyOf, s.grantedTo);
    KeysStay(run, n, i);
    GrantsStay(run, n, i);
  }

  /** With a single creator, at-most-once holds per correlation id and saga, not only per instance. */
  lemma AtMostOncePerKey(run: seq<Action>, k: SagaKey, j: nat, l: nat)
    requires Exec(run).Some? && SingleCreator(Exec(run).value, k)
    requires var s := Exec(run).value;
             && j < l < |s.commits| && s.commits[j].instance in s.keyOf && s.commits[l].instance in s.keyOf
             && s.keyOf[s.commits[j].instance] == k && s.keyOf[s.commits[l].instance] == k
    ensures Exec(run).value.commits[j].message != Exec(run).value.commits[l].message
  {
    var s := Exec(run).value;
    RunsKeep(run);
    assert s.commits[j] in s.commits && s.commits[l] in s.commits;
  }

  // ----- Leaked locks -----

  /** The worker's `LockId = string.Empty` does not erase the id of the instance's next holder. */
  ghost predicate ClearsOwn(s: State, a: Action) {
    a.ClearLockId? && a.worker in s.workers && s.workers[a.worker].pc.Clearing? ==>
      forall v | v in s.workers && Holding(s.workers[v].pc) && !s.workers[v].pc.Storing? ::
        s.workers[v].pc.instance != s.workers[a.worker].pc.instance
  }

  ghost predicate NeverErases(run: seq<Action>)
    requires Exec(run).Some?
  {
    forall n: nat | n < |run| :: ClearsOwn(After(run, n), run[n])
  }

  /** Every holder that has stored its lock id still finds it in the instance. */
  ghost predicate Exact(s: State) {
    forall w | w in s.workers :: ExactFor(s, s.workers[w].pc)
  }

  predicate ExactFor(s: State, pc: Pc) {
    Holding(pc) && !pc.Storing? ==>
      !pc.Leaked? && pc.instance in s.instances && s.instances[pc.instance].lockId == Guid(pc.lockId)
  }

  lemma ExactStep(s: State, a: Action, s': State)
    requires Inv(s) && Exact(s) && ClearsOwn(s, a) && Next(s, a) == Some(s')
    ensures Exact(s')
  {
    hide Inv, Next, Framed, ExactFor, ClearsOwn;
    if IsWorkerAction(a) {
      StepFrame(s, a, s');
      FrameMoves(s, s', a.worker);
      ExactOwn(s, a, s');
      forall v | v in s'.workers
        ensures ExactFor(s', s'.workers[v].pc)
      {
        if v != a.worker {
          ExactOther(s, a, s', v);
        }
      }
    } else {
      OutsideSame(s, a, s');
      OutsideExact(s, s');
    }
  }

  lemma FrameMoves(s: State, s': State, w: Id)
    requires Framed(s, s', w)
    ensures MovesOnly(s, s', w)
  {
  }

  lemma OutsideExact(s: State, s': State)
    requires Exact(s) && Outside(s, s')
    ensures Exact(s')
  {
    forall v | v in s'.workers
      ensures ExactFor(s', s'.workers[v].pc)
    {
      if v in s.workers {
        assert ExactFor(s, s.workers[v].pc);
      }
    }
  }

  /** After a release, the only thing left is to clear the LockId. */
  lemma ClearingOnlyClears(s: State, a: Action)
    requires IsWorkerAction(a) && Next(s, a).Some? && s.workers[a.worker].pc.Clearing?
    ensures a.ClearLockId?
  {
  }

  lemma ExactOther(s: State, a: Action, s': State, v: Id)
    requires Inv(s) && Exact(s) && ClearsOwn(s, a) && IsWorkerAction(a) && Next(s, a) == Some(s')
    requires Framed(s, s', a.worker)
    requires v in s.workers && v != a.worker
    ensures ExactFor(s', s'.workers[v].pc)
  {
    assert ExactFor(s, s.workers[v].pc);
    var pc := s.workers[a.worker].pc;
    hide Framed, ExactFor, Exact;
    if Holding(pc) {
      hide Inv, Next;
      MutualExclusion(s, a.worker);
    } else if pc.Clearing? {
      hide Inv;
      ClearingOnlyClears(s, a);
    }
    hide Inv, Next;
    ExactFramed(s, s', a.worker, v);
  }

  lemma ExactFramed(s: State, s': State, w: Id, v: Id)
    requires Framed(s, s', w) && v in s.workers && v != w && ExactFor(s, s.workers[v].pc)
    requires var pc, other := s.workers[w].pc, s.workers[v].pc;
             (Holding(pc) || pc.Clearing?) && Holding(other) && !other.Storing? ==> other.instance != pc.instance
    ensures v in s'.workers && ExactFor(s', s'.workers[v].pc)
  {
  }

  lemma ExactOwn(s: State, a: Action, s': State)
    requires Inv(s) && Exact(s) && IsWorkerAction(a) && Next(s, a) == Some(s')
    ensures a.worker in s'.workers && ExactFor(s', s'.workers[a.worker].pc)
  {
    assert ExactFor(s, s.workers[a.worker].pc);
    hide Inv, GrantStep, ResolveStep, ClearStep, ExactFor, Exact;
    if a.Grant? {
      GrantExact(s, a.worker, a.lockId, s');
    } else if a.Resolve? {
      ResolveExact(s, a.worker, a.instance, s');
    } else if a.ClearLockId? {
      ClearExact(s, a.worker, s');
    } else {
      hide WorkerStep, Released, Updated, Moved;
      if IsRelease(a) {
        ReleaseReady(s, a.worker, s', a);
      } else {
        QuietReady(s, a.worker, s', a);
      }
      ReadyExact(s, a.worker, s');
    }
  }

  lemma GrantExact(s: State, w: Id, l: Id, s': State)
    requires w in s.workers && GrantStep(s, w, l) == Some(s')
    ensures w in s'.workers && ExactFor(s', s'.workers[w].pc)
  {
    var i := s.workers[w].pc.instance;
    if TryLock(s.tables, i, i, s.keyOf[i], l).Granted? {
      assert w in s'.workers && s'.workers[w].pc.Storing?;
    } else {
      assert w in s'.workers && (s'.workers[w].pc.Done? || s'.workers[w].pc.Finding?);
    }
    hide GrantStep;
  }

  lemma ResolveExact(s: State, w: Id, i: Id, s': State)
    requires w in s.workers && ResolveStep(s, w, i) == Some(s')
    ensures w in s'.workers && ExactFor(s', s'.workers[w].pc)
  {
    if s.workers[w].IsInitiator() {
      assert w in s'.workers && s'.workers[w].pc.Found?;
    } else {
      assert w in s'.workers && s'.workers[w].pc.Done?;
    }
    hide ResolveStep;
  }

  lemma ClearExact(s: State, w: Id, s': State)
    requires w in s.workers && ClearStep(s, w) == Some(s')
    ensures w in s'.workers && ExactFor(s', s'.workers[w].pc)
  {
  }

  lemma ReadyExact(s: State, w: Id, s': State)
    requires Released(s, s', w) || Updated(s, s', w) || Moved(s, s', w)
    requires ExactFor(s, s.workers[w].pc)
    ensures w in s'.workers && ExactFor(s', s'.workers[w].pc)
  {
  }

  lemma NoneLeaked(s: State)
    requires Exact(s)
    ensures forall w | w in s.workers :: !s.workers[w].pc.Leaked?
  {
    assert forall w | w in s.workers :: ExactFor(s, s.workers[w].pc);
  }

  /** A lock is leaked only in runs where some worker's late `LockId = string.Empty` erased the next holder's id. */
  lemma {:induction false} NoLeaks(run: seq<Action>, n: nat)
    requires n <= |run| && Exec(run).Some? && NeverErases(run)
    ensures Exact(After(run, n))
    ensures forall w | w in After(run, n).workers :: !After(run, n).workers[w].pc.Leaked?
  {
    AfterAll(run);
    if n > 0 {
      NoLeaks(run, n - 1);
      StepAt(run, n - 1);
      hide After, Exec, Exact, Next;
      ExactStep(After(run, n - 1), run[n - 1], After(run, n));
    }
    NoneLeaked(After(run, n));
  }

  lemma LockedHasHolder(s: State, i: Id) returns (w: Id)
    requires Inv(s) && i in s.tables.byId && s.tables.byId[i].lockId.Some?
    ensures w in s.workers && Holding(s.workers[w].pc) && s.workers[w].pc.instance == i
  {
    assert IsOwned(i, s.tables.byId[i].lockId.value, s.workers, s.owner);
    w := s.owner[s.tables.byId[i].lockId.value];
  }

  /** So once every worker is done, no saga is left locked. */
  lemma NothingLeftLocked(run: seq<Action>)
    requires Exec(run).Some? && NeverErases(run)
    requires forall w | w in Exec(run).value.workers :: var pc := Exec(run).value.workers[w].pc; pc.Done? || pc.Leaked?
    ensures var t := Exec(run).value.tables;
            && (forall i | i in t.byId :: t.byId[i].lockId.None?)
            && (forall k | k in t.byKey :: t.byKey[k].lockId.None?)
  {
    var s := Exec(run).value;
    RunsKeep(run);
    AfterAll(run);
    NoLeaks(run, |run|);
    forall i | i in s.tables.byId
      ensures s.tables.byId[i].lockId.None?
    {
      if s.tables.byId[i].lockId.Some? {
        var w := LockedHasHolder(s, i);
      }
    }
    forall k | k in s.tables.byKey
      ensures s.tables.byKey[k].lockId.None?
    {
      assert NamesGranted(s.tables, k, s.keyOf, s.grantedTo);
    }
  }
}
