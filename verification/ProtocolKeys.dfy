/**
 At most once per saga key, exactly: which commits repeat a message that another instance of the
 key has committed, and which grants make a key name another instance.
 */
module ProtocolKeys {
  import opened Messages
  import opened LockTables
  import opened SagaProtocol
  import opened ProtocolInvariant
  import opened ProtocolTheorems
  import opened ProtocolRuns
  import opened ProtocolLosses

  /** What one step of a worker is. */
  ghost predicate StepKind(s: State, a: Action, s': State)
    requires IsWorkerAction(a)
  {
    var w := a.worker;
    && w in s.workers
    && (|| Released(s, s', w) || Updated(s, s', w) || Moved(s, s', w)
        || (a.Grant? && GrantStep(s, w, a.lockId) == Some(s'))
        || (a.Resolve? && ResolveStep(s, w, a.instance) == Some(s'))
        || (a.ClearLockId? && ClearStep(s, w) == Some(s')))
  }

  lemma KindOf(s: State, a: Action, s': State)
    requires Inv(s) && IsWorkerAction(a) && Next(s, a) == Some(s')
    ensures StepKind(s, a, s')
  {
    hide Inv, Released, Updated, Moved, GrantStep, ResolveStep, ClearStep;
    if !a.Grant? && !a.Resolve? && !a.ClearLockId? {
      hide WorkerStep;
      if IsRelease(a) {
        ReleaseReady(s, a.worker, s', a);
      } else {
        QuietReady(s, a.worker, s', a);
      }
    }
  }

  // ----- Commits -----

  /** An instance of the key has committed the message. */
  ghost predicate CommittedFor(s: State, k: SagaKey, m: Id) {
    exists c :: c in s.commits && IsOf(s, c, k) && c.message == m
  }

  predicate IsOf(s: State, c: Commit, k: SagaKey) {
    c.instance in s.keyOf && s.keyOf[c.instance] == k
  }

  /** Another instance of the key than `i` has. */
  ghost predicate CommittedElsewhere(s: State, i: Id, k: SagaKey, m: Id) {
    exists c :: c in s.commits && IsOf(s, c, k) && c.message == m && c.instance != i
  }

  /** `w` releases its lock and commits its message. */
  ghost predicate Commits(s: State, s': State, w: Id) {
    && w in s.workers && s.workers[w].pc.Releasing? && w in s'.workers && !Holding(s'.workers[w].pc)
    && s'.commits == s.commits + [Commit(s.workers[w].pc.instance, s.workers[w].context.messageId)]
  }

  lemma GrantCommits(s: State, w: Id, l: Id, s': State)
    requires w in s.workers && GrantStep(s, w, l) == Some(s')
    ensures s'.commits == s.commits
  {
  }

  lemma ResolveCommits(s: State, w: Id, i: Id, s': State)
    requires w in s.workers && ResolveStep(s, w, i) == Some(s')
    ensures s'.commits == s.commits
  {
  }

  lemma ClearCommits(s: State, w: Id, s': State)
    requires w in s.workers && ClearStep(s, w) == Some(s')
    ensures s'.commits == s.commits
  {
  }

  lemma ReadyCommits(s: State, w: Id, s': State)
    requires Released(s, s', w) || Updated(s, s', w) || Moved(s, s', w)
    ensures s'.commits == s.commits || Commits(s, s', w)
  {
    hide WorkerOk;
  }

  /** Commits change only by the release of a holder that commits. */
  lemma StepCommits(s: State, a: Action, s': State)
    requires Inv(s) && Next(s, a) == Some(s')
    ensures s'.commits == s.commits || (IsWorkerAction(a) && Commits(s, s', a.worker))
  {
    hide Inv, Next, Commits, Released, Updated, Moved, GrantStep, ResolveStep, ClearStep;
    if !IsWorkerAction(a) {
      OutsideSame(s, a, s');
    } else {
      KindOf(s, a, s');
      if Released(s, s', a.worker) || Updated(s, s', a.worker) || Moved(s, s', a.worker) {
        ReadyCommits(s, a.worker, s');
      } else if a.Grant? {
        GrantCommits(s, a.worker, a.lockId, s');
      } else if a.Resolve? {
        ResolveCommits(s, a.worker, a.instance, s');
      } else {
        ClearCommits(s, a.worker, s');
      }
    }
  }

  lemma EveryCommit(s: State, c: Commit)
    requires Inv(s) && c in s.commits
    ensures Exists(s, c.instance) && c.message in s.instances[c.instance].processed
  {
  }

  /** A commit stays of the key it was of. */
  lemma KeysStayOf(s: State, a: Action, s': State, c: Commit, k: SagaKey)
    requires Inv(s) && Next(s, a) == Some(s') && c in s.commits
    ensures IsOf(s', c, k) <==> IsOf(s, c, k)
  {
    hide Next;
    EveryCommit(s, c);
    StepEvolves(s, a, s');
    hide Inv;
    assert Exists(s, c.instance);
  }

  // ----- A holder, from its grant to its release -----

  ghost predicate HoldsFor(s: State, w: Id, k: SagaKey) {
    w in s.workers && Holding(s.workers[w].pc) && s.workers[w].Key() == k
  }

  /** While a worker holds a lock of the key, nobody commits anything for the key. */
  lemma HeldKey(s: State, a: Action, s': State, w: Id, k: SagaKey, m: Id)
    requires Inv(s) && Next(s, a) == Some(s') && HoldsFor(s, w, k) && HoldsFor(s', w, k)
    ensures CommittedFor(s', k, m) <==> CommittedFor(s, k, m)
  {
    hide Inv, Next;
    StepCommits(s, a, s');
    forall c | c in s.commits
      ensures IsOf(s', c, k) <==> IsOf(s, c, k)
    {
      KeysStayOf(s, a, s', c, k);
    }
    if s'.commits != s.commits {
      var v := a.worker;
      var c := s'.commits[|s.commits|];
      assert v != w;
      InstanceKey(s, a, s', v);
      if s.workers[v].Key() == k {
        OneHolder(s, v, w);
      }
      assert !IsOf(s', c, k);
      forall d | d in s'.commits && d != c
        ensures d in s.commits
      {
      }
    }
    hide IsOf, Commits, HoldsFor;
  }

  lemma InstanceKey(s: State, a: Action, s': State, v: Id)
    requires Inv(s) && Next(s, a) == Some(s') && v in s.workers && s.workers[v].pc.Releasing?
    ensures var i := s.workers[v].pc.instance; i in s'.keyOf && s'.keyOf[i] == s.workers[v].Key()
  {
    hide Next;
    assert WorkerOk(s, s.workers[v]);
    StepEvolves(s, a, s');
    hide Inv;
    assert Exists(s, s.workers[v].pc.instance);
  }

  /** Before the lock, between grant and release, after it. */
  function Phase(pc: Pc): nat {
    if Holding(pc) then 1 else if pc.Clearing? || pc.Done? then 2 else 0
  }

  lemma BackOffEnds(s: State, w: Id, guard: LockField, s': State)
    requires w in s.workers && BackOffStep(s, w, guard) == Some(s')
    ensures w in s'.workers && (s'.workers[w].pc.Done? || s'.workers[w].pc.Leaked?)
  {
    hide ReleaseOf;
  }

  lemma BackOffIs(s: State, a: Action, s': State)
    requires a.BackOff? && Next(s, a) == Some(s')
    ensures a.worker in s.workers && BackOffStep(s, a.worker, a.guard) == Some(s')
  {
    hide BackOffStep;
  }

  /** A release leads to the end of the worker's run. */
  lemma ReleaseEnds(s: State, a: Action, s': State)
    requires IsRelease(a) && Next(s, a) == Some(s')
    ensures a.worker in s'.workers && Phase(s'.workers[a.worker].pc) >= 1
  {
    hide Next;
    if a.BackOff? {
      BackOffIs(s, a, s');
      hide BackOffStep;
      BackOffEnds(s, a.worker, a.guard, s');
    } else {
      AllowsEnding(s, a);
    }
  }

  lemma OnlyReleases(s: State, a: Action, s': State)
    requires Inv(s) && IsWorkerAction(a) && Next(s, a) == Some(s') && a.worker in s.workers
    requires Holding(s.workers[a.worker].pc) && !IsRelease(a)
    ensures a.worker in s'.workers && Holding(s'.workers[a.worker].pc)
  {
    Allowed(s, a);
    hide Inv, WorkerStep, Updated, Moved;
    QuietReady(s, a.worker, s', a);
    QuietHolds(s, s', a.worker);
  }

  lemma QuietHolds(s: State, s': State, w: Id)
    requires Updated(s, s', w) || Moved(s, s', w)
    ensures w in s.workers && w in s'.workers && (Holding(s'.workers[w].pc) <==> Holding(s.workers[w].pc))
  {
    hide WorkerOk;
  }

  /** A worker never goes back to an earlier phase, and keeps its key. */
  lemma PhaseGrows(s: State, a: Action, s': State, w: Id)
    requires Inv(s) && Next(s, a) == Some(s') && w in s.workers
    ensures w in s'.workers && Phase(s'.workers[w].pc) >= Phase(s.workers[w].pc)
    ensures s'.workers[w].Key() == s.workers[w].Key() && s'.workers[w].context == s.workers[w].context
  {
    hide Inv, Next;
    if !IsWorkerAction(a) || a.worker != w {
      OtherWorker(s, a, s', w);
    } else {
      Allowed(s, a);
      StepFrame(s, a, s');
      if Holding(s.workers[w].pc) {
        if IsRelease(a) {
          ReleaseEnds(s, a, s');
        } else {
          OnlyReleases(s, a, s');
        }
      } else if a.ClearLockId? {
        ClearsDone(s, a, s');
      }
    }
  }

  lemma ClearsDone(s: State, a: Action, s': State)
    requires a.ClearLockId? && Next(s, a) == Some(s')
    ensures a.worker in s'.workers && s'.workers[a.worker].pc.Done?
  {
    hide FindStep, ResolveStep, CheckStep, GrantStep, StoreStep, RecheckStep, BackOffStep, PublishStep, CompleteStep,
      HandlerStep, RecordStep, AppendStep, ClearOutboxStep, AppendThrowsStep, CommitStep, RescueStep, CatchStep,
      RelayStep;
  }

  lemma {:induction false} PhaseBetween(run: seq<Action>, n: nat, m: nat, w: Id)
    requires n <= m <= |run| && Exec(run).Some? && w in After(run, n).workers
    ensures var s, s' := After(run, n), After(run, m);
            && w in s'.workers && Phase(s'.workers[w].pc) >= Phase(s.workers[w].pc)
            && s'.workers[w].Key() == s.workers[w].Key() && s'.workers[w].context == s.workers[w].context
  {
    hide After, Exec, Inv, Next, Phase;
    if n < m {
      PhaseBetween(run, n, m - 1, w);
      StepAt(run, m - 1);
      PhaseGrows(After(run, m - 1), run[m - 1], After(run, m), w);
    }
  }

  /** From one moment to another at which `w` holds its lock: what is committed for its key stays the same. */
  lemma {:induction false} CommittedStays(run: seq<Action>, n: nat, m: nat, w: Id, message: Id)
    requires n <= m <= |run| && Exec(run).Some? && w in After(run, n).workers && w in After(run, m).workers
    requires Holding(After(run, n).workers[w].pc) && Holding(After(run, m).workers[w].pc)
    ensures var k := After(run, n).workers[w].Key();
            && After(run, m).workers[w].Key() == k
            && (CommittedFor(After(run, m), k, message) <==> CommittedFor(After(run, n), k, message))
  {
    hide After, Exec, Inv, Next, CommittedFor;
    if n < m {
      var k := After(run, n).workers[w].Key();
      PhaseBetween(run, n, m - 1, w);
      PhaseBetween(run, m - 1, m, w);
      CommittedStays(run, n, m - 1, w, message);
      StepAt(run, m - 1);
      HeldKey(After(run, m - 1), run[m - 1], After(run, m), w, k, message);
    }
  }

  // ----- Which commits repeat a message -----

  lemma RecheckIs(s: State, a: Action)
    requires a.Recheck? && Next(s, a).Some?
    ensures a.worker in s.workers && s.workers[a.worker].pc.Rechecking?
  {
    Allowed(s, a);
    hide Next;
  }

  /**
   A commit repeats its message for the key if and only if another instance of the key had committed the message by the
   time this worker re-checked, holding its lock.
   */
  lemma RepeatsIff(run: seq<Action>, n: nat, m: nat, w: Id)
    requires n < m <= |run| && Exec(run).Some? && run[n] == Recheck(w)
    requires w in After(run, m).workers && After(run, m).workers[w].pc.Releasing?
    ensures var s, s' := After(run, n), After(run, m);
            && w in s.workers && s.workers[w].pc.Rechecking?
            && var k, i, message := s'.workers[w].Key(), s'.workers[w].pc.instance, s'.workers[w].context.messageId;
            && (CommittedFor(s', k, message) <==> CommittedElsewhere(s, i, k, message))
  {
    var s, s' := After(run, n), After(run, m);
    var k, i, message := s'.workers[w].Key(), s'.workers[w].pc.instance, s'.workers[w].context.messageId;
    StepAt(run, n);
    Reached(run, m);
    RecheckIs(s, run[n]);
    CommittedStays(run, n, m, w, message);
    CommitsOnly(run, n, m);
    hide After, Exec, Inv, Next;
    NotOwnBefore(s, s', w, k);
  }

  lemma Reached(run: seq<Action>, n: nat)
    requires n <= |run| && Exec(run).Some?
    ensures Inv(After(run, n))
  {
    PrefixRuns(run, n);
    RunsKeep(run[..n]);
  }

  lemma {:induction false} CommitsOnly(run: seq<Action>, n: nat, m: nat)
    requires n <= m <= |run| && Exec(run).Some?
    ensures After(run, n).commits <= After(run, m).commits
    ensures forall c, k | c in After(run, n).commits :: IsOf(After(run, m), c, k) <==> IsOf(After(run, n), c, k)
  {
    hide After, Exec, Inv, Next, IsOf, Commits;
    if n < m {
      CommitsOnly(run, n, m - 1);
      StepAt(run, m - 1);
      var s, s' := After(run, m - 1), After(run, m);
      CommitsGrow(s, run[m - 1], s');
      forall c, k | c in After(run, n).commits
        ensures IsOf(s', c, k) <==> IsOf(After(run, n), c, k)
      {
        KeysStayOf(s, run[m - 1], s', c, k);
      }
    }
  }

  /** A worker about to commit has not committed its message on its instance. */
  lemma NotOwnBefore(s: State, s': State, w: Id, k: SagaKey)
    requires Inv(s') && w in s'.workers && s'.workers[w].pc.Releasing? && s.commits <= s'.commits
    ensures var i, m := s'.workers[w].pc.instance, s'.workers[w].context.messageId;
            CommittedFor(s, k, m) <==> CommittedElsewhere(s, i, k, m)
  {
    assert WorkerOk(s', s'.workers[w]);
    hide Inv, IsOf;
    var i, m := s'.workers[w].pc.instance, s'.workers[w].context.messageId;
    forall c | c in s.commits && c.message == m
      ensures c.instance != i
    {
      assert c == Commit(c.instance, m) && c in s'.commits;
    }
  }

  // ----- Runs in which a message is committed twice for a key -----

  /** Past its re-check, and still in possession of the lock. */
  predicate IsChecked(pc: Pc) {
    Holding(pc) && !pc.Storing? && !pc.Rechecking?
  }

  lemma StoresOnly(s: State, a: Action, s': State)
    requires a.StoreLockId? && Next(s, a) == Some(s')
    ensures a.worker in s'.workers && !IsChecked(s'.workers[a.worker].pc)
  {
    hide FindStep, ResolveStep, CheckStep, GrantStep, RecheckStep, BackOffStep, PublishStep, CompleteStep, HandlerStep,
      RecordStep, AppendStep, ClearOutboxStep, AppendThrowsStep, CommitStep, CatchStep, RescueStep, ClearStep,
      RelayStep;
  }

  lemma GrantsOnlyStore(s: State, w: Id, l: Id, s': State)
    requires w in s.workers && GrantStep(s, w, l) == Some(s')
    ensures w in s'.workers && !IsChecked(s'.workers[w].pc)
  {
    var i := s.workers[w].pc.instance;
    if TryLock(s.tables, i, i, s.keyOf[i], l).Granted? {
      assert w in s'.workers && s'.workers[w].pc.Storing?;
    } else {
      assert w in s'.workers && (s'.workers[w].pc.Done? || s'.workers[w].pc.Finding?);
    }
    hide GrantStep;
  }

  lemma NotHolding(s: State, w: Id, s': State)
    requires Released(s, s', w) || ((Updated(s, s', w) || Moved(s, s', w)) && !Holding(s.workers[w].pc))
    ensures w in s'.workers && !Holding(s'.workers[w].pc)
  {
    hide WorkerOk;
  }

  lemma ResolvesOnly(s: State, w: Id, i: Id, s': State)
    requires w in s.workers && ResolveStep(s, w, i) == Some(s')
    ensures w in s'.workers && !Holding(s'.workers[w].pc)
  {
    if s.workers[w].IsInitiator() {
      assert w in s'.workers && s'.workers[w].pc.Found?;
    } else {
      assert w in s'.workers && s'.workers[w].pc.Done?;
    }
    hide ResolveStep;
  }

  /** Only a re-check leads a worker past its re-check. */
  lemma StepChecks(s: State, a: Action, s': State, w: Id)
    requires Inv(s) && Next(s, a) == Some(s') && w in s'.workers && IsChecked(s'.workers[w].pc)
    ensures a == Recheck(w) || (w in s.workers && IsChecked(s.workers[w].pc))
  {
    hide Inv, Next;
    if !IsWorkerAction(a) || a.worker != w {
      OtherWorker(s, a, s', w);
    } else {
      Allowed(s, a);
      if a.StoreLockId? {
        StoresOnly(s, a, s');
      } else if !a.Recheck? && !IsChecked(s.workers[w].pc) {
        KindOf(s, a, s');
        hide Released, Updated, Moved, GrantStep, ResolveStep, ClearStep;
        UncheckedStays(s, a, s');
      }
    }
  }

  lemma UncheckedStays(s: State, a: Action, s': State)
    requires IsWorkerAction(a) && StepKind(s, a, s') && Allows(a, s.workers[a.worker].pc)
    requires !IsChecked(s.workers[a.worker].pc) && !a.StoreLockId? && !a.Recheck?
    ensures a.worker in s'.workers && !IsChecked(s'.workers[a.worker].pc)
  {
    hide Released, Updated, Moved, GrantStep, ResolveStep, ClearStep;
    var w := a.worker;
    if Released(s, s', w) || Updated(s, s', w) || Moved(s, s', w) {
      NotHolding(s, w, s');
    } else if a.Grant? {
      GrantsOnlyStore(s, w, a.lockId, s');
    } else if a.Resolve? {
      ResolvesOnly(s, w, a.instance, s');
    } else {
      ClearsNothing(s, w, s');
    }
  }

  lemma ClearsNothing(s: State, w: Id, s': State)
    requires w in s.workers && ClearStep(s, w) == Some(s')
    ensures w in s'.workers && !Holding(s'.workers[w].pc)
  {
  }

  /** Whoever is past its re-check has re-checked. */
  lemma {:induction false} RecheckBefore(run: seq<Action>, m: nat, w: Id) returns (n: nat)
    requires m <= |run| && Exec(run).Some? && w in After(run, m).workers && IsChecked(After(run, m).workers[w].pc)
    ensures n < m && run[n] == Recheck(w)
  {
    AfterAll(run);
    if m == 0 {
      assert false;
    } else {
      StepAt(run, m - 1);
      hide Exec, Inv, Next, IsChecked;
      StepChecks(After(run, m - 1), run[m - 1], After(run, m), w);
      if run[m - 1] == Recheck(w) {
        n := m - 1;
      } else {
        n := RecheckBefore(run, m - 1, w);
      }
    }
  }

  /** Two commits of one message for the key. */
  ghost predicate Repeated(s: State, k: SagaKey) {
    exists j, l :: 0 <= j < l < |s.commits| && SameFor(s, s.commits[j], s.commits[l], k)
  }

  predicate SameFor(s: State, c: Commit, d: Commit, k: SagaKey) {
    IsOf(s, c, k) && IsOf(s, d, k) && c.message == d.message
  }

  /**
   Step `m` is the commit of a worker whose re-check, step `n`, came after another instance's commit of its message.
   */
  ghost predicate RepeatsAt(run: seq<Action>, n: nat, m: nat, k: SagaKey)
    requires Exec(run).Some?
  {
    && n < m < |run| && run[n].Recheck?
    && var w, s := run[n].worker, After(run, m);
    && IsWorkerAction(run[m]) && run[m].worker == w
    && Commits(s, After(run, m + 1), w) && s.workers[w].Key() == k
    && CommittedElsewhere(After(run, n), s.workers[w].pc.instance, k, s.workers[w].context.messageId)
  }

  /** One more commit repeats a message exactly when that message is committed for the key. */
  lemma StepRepeats(s: State, a: Action, s': State, k: SagaKey)
    requires Inv(s) && Next(s, a) == Some(s') && !Repeated(s, k)
    ensures Repeated(s', k) <==>
            && IsWorkerAction(a) && Commits(s, s', a.worker) && s.workers[a.worker].Key() == k
            && CommittedFor(s, k, s.workers[a.worker].context.messageId)
  {
    hide Next, Inv;
    StepCommits(s, a, s');
    forall c | c in s.commits
      ensures IsOf(s', c, k) <==> IsOf(s, c, k)
    {
      KeysStayOf(s, a, s', c, k);
    }
    if s'.commits == s.commits {
      hide IsOf;
      SameRepeated(s, s', k);
      NoCommit(s, s');
    } else {
      InstanceKey(s, a, s', a.worker);
      var d := s'.commits[|s.commits|];
      assert IsOf(s', d, k) <==> s.workers[a.worker].Key() == k;
      hide IsOf;
      OneMoreCommit(s, s', d, k);
    }
  }

  lemma NoCommit(s: State, s': State)
    requires s'.commits == s.commits
    ensures forall w :: !Commits(s, s', w)
  {
  }

  lemma SameRepeated(s: State, s': State, k: SagaKey)
    requires s'.commits == s.commits && forall c | c in s.commits :: IsOf(s', c, k) <==> IsOf(s, c, k)
    ensures Repeated(s', k) <==> Repeated(s, k)
  {
    hide IsOf;
    forall j, l | 0 <= j < l < |s.commits|
      ensures SameFor(s', s'.commits[j], s'.commits[l], k) <==> SameFor(s, s.commits[j], s.commits[l], k)
    {
    }
    hide SameFor;
  }

  lemma OneMoreCommit(s: State, s': State, d: Commit, k: SagaKey)
    requires s'.commits == s.commits + [d] && forall c | c in s.commits :: IsOf(s', c, k) <==> IsOf(s, c, k)
    requires !Repeated(s, k)
    ensures Repeated(s', k) <==> IsOf(s', d, k) && CommittedFor(s, k, d.message)
  {
    hide IsOf;
    if j, l :| 0 <= j < l < |s'.commits| && SameFor(s', s'.commits[j], s'.commits[l], k) {
      assert l < |s.commits| ==> SameFor(s, s.commits[j], s.commits[l], k);
      assert s'.commits[j] == s.commits[j] && s.commits[j] in s.commits;
    }
    if IsOf(s', d, k) && CommittedFor(s, k, d.message) {
      var c :| c in s.commits && IsOf(s, c, k) && c.message == d.message;
      var j :| 0 <= j < |s.commits| && s.commits[j] == c;
      assert SameFor(s', s'.commits[j], s'.commits[|s.commits|], k);
    }
  }

  /** Once a message is committed twice for the key, it is. */
  lemma StepStaysRepeated(s: State, a: Action, s': State, k: SagaKey)
    requires Inv(s) && Next(s, a) == Some(s') && Repeated(s, k)
    ensures Repeated(s', k)
  {
    hide Next, Inv, Commits;
    StepCommits(s, a, s');
    assert s.commits <= s'.commits by {
      CommitsGrow(s, a, s');
    }
    var j, l :| 0 <= j < l < |s.commits| && SameFor(s, s.commits[j], s.commits[l], k);
    KeysStayOf(s, a, s', s.commits[j], k);
    KeysStayOf(s, a, s', s.commits[l], k);
    hide IsOf;
    assert SameFor(s', s'.commits[j], s'.commits[l], k);
  }

  lemma CommitsGrow(s: State, a: Action, s': State)
    requires Inv(s) && Next(s, a) == Some(s')
    ensures s.commits <= s'.commits
  {
    hide Inv, Next;
    StepCommits(s, a, s');
  }

  lemma RepeatsNow(run: seq<Action>, m: nat, k: SagaKey) returns (n: nat)
    requires m < |run| && Exec(run).Some?
    requires var s := After(run, m);
             && IsWorkerAction(run[m]) && Commits(s, After(run, m + 1), run[m].worker)
             && s.workers[run[m].worker].Key() == k && CommittedFor(s, k, s.workers[run[m].worker].context.messageId)
    ensures RepeatsAt(run, n, m, k)
  {
    n := RecheckBefore(run, m, run[m].worker);
    hide After, Exec, CommittedFor, CommittedElsewhere;
    RepeatsIff(run, n, m, run[m].worker);
  }

  lemma WasRepeated(run: seq<Action>, n: nat, m: nat, k: SagaKey)
    requires Exec(run).Some? && RepeatsAt(run, n, m, k) && !Repeated(After(run, m), k)
    ensures Repeated(After(run, m + 1), k)
  {
    var w := run[n].worker;
    StepAt(run, m);
    hide After, Exec, Inv, Next, CommittedFor, CommittedElsewhere, Repeated;
    RepeatsIff(run, n, m, w);
    StepRepeats(After(run, m), run[m], After(run, m + 1), k);
  }

  /**
   At most once per key, exactly: a run commits some message twice for the key if and only if in some step a worker
   commits a message that another instance of the key had committed when this worker re-checked, holding its lock.
   */
  lemma {:induction false} RepeatedIff(run: seq<Action>, m: nat, k: SagaKey)
    requires m <= |run| && Exec(run).Some?
    ensures Repeated(After(run, m), k) <==> exists n: nat, j: nat :: j < m && RepeatsAt(run, n, j, k)
  {
    hide Exec, Inv, Next, After, RepeatsAt, Commits, CommittedFor, Repeated;
    if m == 0 {
      NoneYet(run, k);
    } else {
      RepeatedIff(run, m - 1, k);
      StepAt(run, m - 1);
      var s, a, s' := After(run, m - 1), run[m - 1], After(run, m);
      if Repeated(s, k) {
        StepStaysRepeated(s, a, s', k);
        var n: nat, j: nat :| j < m - 1 && RepeatsAt(run, n, j, k);
        assert j < m;
      } else {
        OneMoreRepeat(run, m, k, s, a, s');
      }
    }
  }

  lemma NoneYet(run: seq<Action>, k: SagaKey)
    requires Exec(run).Some?
    ensures !Repeated(After(run, 0), k)
  {
    AfterAll(run);
    hide Exec, After;
  }

  lemma OneMoreRepeat(run: seq<Action>, m: nat, k: SagaKey, s: State, a: Action, s': State)
    requires 0 < m <= |run| && Exec(run).Some? && Inv(s) && Next(s, a) == Some(s')
    requires s == After(run, m - 1) && a == run[m - 1] && s' == After(run, m) && !Repeated(s, k)
    requires forall n: nat, j: nat | j < m - 1 :: !RepeatsAt(run, n, j, k)
    ensures Repeated(s', k) <==> exists n: nat, j: nat :: j < m && RepeatsAt(run, n, j, k)
  {
    hide Exec, Inv, Next, After, RepeatsAt, Commits, CommittedFor, Repeated;
    if Repeated(s', k) {
      StepRepeats(s, a, s', k);
      var n := RepeatsNow(run, m - 1, k);
      assert m - 1 < m && RepeatsAt(run, n, m - 1, k);
    } else {
      forall n: nat, j: nat | j < m
        ensures !RepeatsAt(run, n, j, k)
      {
        if j == m - 1 && RepeatsAt(run, n, j, k) {
          WasRepeated(run, n, j, k);
        }
      }
    }
  }

  // ----- Which grants make a key name another instance -----

  /** A grant to another instance than the one that the key's unlocked entry names. */
  ghost predicate TakesOver(s: State, a: Action, k: SagaKey) {
    && a.Grant? && a.worker in s.workers && s.workers[a.worker].pc.Locking?
    && var i := s.workers[a.worker].pc.instance;
    && i in s.keyOf && s.keyOf[i] == k
    && k in s.tables.byKey && s.tables.byKey[k].lockId.None? && s.tables.byKey[k].state != i
  }

  lemma GrantIsStep(s: State, a: Action, s': State)
    requires a.Grant? && Next(s, a) == Some(s')
    ensures a.worker in s.workers && GrantStep(s, a.worker, a.lockId) == Some(s')
  {
    hide GrantStep;
  }

  /** What a grant does to the name of a key. */
  lemma GrantNames(s: State, w: Id, l: Id, s': State, k: SagaKey)
    requires TablesOk(s.tables, s.keyOf, s.grantedTo) && w in s.workers && GrantStep(s, w, l) == Some(s')
    ensures TakesOver(s, Grant(w, l), k) ==> Named(s', k, s.workers[w].pc.instance)
    ensures !TakesOver(s, Grant(w, l), k) ==> forall i :: Named(s, k, i) ==> Named(s', k, i)
  {
    var i := s.workers[w].pc.instance;
    if TryLock(s.tables, i, i, s.keyOf[i], l).Granted? {
      var entry := Entry(i, Some(l));
      assert s'.tables == Tables(s.tables.byId[i := entry], s.tables.byKey[s.keyOf[i] := entry]);
    } else {
      assert s'.tables == s.tables;
      assert !TakesOver(s, Grant(w, l), k);
    }
    hide GrantStep;
  }

  lemma ReleaseNames(s: State, w: Id, s': State, k: SagaKey, i: Id)
    requires Inv(s) && Released(s, s', w) && Named(s, k, i)
    ensures Named(s', k, i)
  {
    assert HoldsLock(s.tables.byId, w, s.workers[w].pc, s.owner);
    hide WorkerOk;
  }

  lemma ResolveNames(s: State, w: Id, i: Id, s': State)
    requires w in s.workers && ResolveStep(s, w, i) == Some(s')
    ensures s'.tables == s.tables
  {
    if s.workers[w].IsInitiator() {
      assert s'.tables == s.tables;
    } else {
      assert s'.tables == s.tables;
    }
    hide ResolveStep;
  }

  lemma ClearNames(s: State, w: Id, s': State)
    requires w in s.workers && ClearStep(s, w) == Some(s')
    ensures s'.tables == s.tables
  {
  }

  /** A key goes on naming the instance it names, unless a grant takes it over. */
  lemma StepNames(s: State, a: Action, s': State, k: SagaKey, i: Id)
    requires Inv(s) && Next(s, a) == Some(s') && Named(s, k, i) && !TakesOver(s, a, k)
    ensures Named(s', k, i)
  {
    hide Inv, Next, Named, TakesOver, Released, Updated, Moved, GrantStep, ResolveStep, ClearStep;
    if !IsWorkerAction(a) {
      OutsideSame(s, a, s');
      SameNames(s, s', k, i);
    } else if a.Grant? {
      GrantIsStep(s, a, s');
      assert TablesOk(s.tables, s.keyOf, s.grantedTo) by { TablesAre(s); }
      GrantNames(s, a.worker, a.lockId, s', k);
    } else {
      KindOf(s, a, s');
      if Released(s, s', a.worker) {
        ReleaseNames(s, a.worker, s', k, i);
      } else {
        if a.Resolve? && ResolveStep(s, a.worker, a.instance) == Some(s') {
          ResolveNames(s, a.worker, a.instance, s');
        } else if a.ClearLockId? && ClearStep(s, a.worker) == Some(s') {
          ClearNames(s, a.worker, s');
        } else {
          ReadyNames(s, a.worker, s');
        }
        SameNames(s, s', k, i);
      }
    }
  }

  lemma TablesAre(s: State)
    requires Inv(s)
    ensures TablesOk(s.tables, s.keyOf, s.grantedTo)
  {
  }

  lemma ReadyNames(s: State, w: Id, s': State)
    requires Updated(s, s', w) || Moved(s, s', w)
    ensures s'.tables == s.tables
  {
    hide WorkerOk;
  }

  lemma SameNames(s: State, s': State, k: SagaKey, i: Id)
    requires s'.tables == s.tables && Named(s, k, i)
    ensures Named(s', k, i)
  {
  }

  lemma {:induction false} NamesStay(run: seq<Action>, n: nat, m: nat, k: SagaKey, i: Id)
    requires n <= m <= |run| && Exec(run).Some? && Named(After(run, n), k, i)
    requires forall j | 0 <= j < |run| :: !TakesOver(After(run, j), run[j], k)
    ensures Named(After(run, m), k, i)
  {
    hide After, Exec, Inv, Next, Named, TakesOver;
    if n < m {
      NamesStay(run, n, m - 1, k, i);
      StepAt(run, m - 1);
      StepNames(After(run, m - 1), run[m - 1], After(run, m), k, i);
    }
  }

  /** A key names one and the same instance throughout a run if and only if no grant takes it over. */
  lemma KeyStableIff(run: seq<Action>, k: SagaKey)
    requires Exec(run).Some?
    ensures KeyStable(run, k) <==> forall j | 0 <= j < |run| :: !TakesOver(After(run, j), run[j], k)
  {
    hide Exec, After, TakesOver;
    if j :| 0 <= j < |run| && TakesOver(After(run, j), run[j], k) {
      StepAt(run, j);
      hide Next;
      TakenOver(After(run, j), run[j], After(run, j + 1), k);
    } else {
      forall m: nat, n: nat, i, j | m <= |run| && n <= |run| && Named(After(run, m), k, i) && Named(After(run, n), k, j)
        ensures i == j
      {
        if m <= n {
          NamesStay(run, m, n, k, i);
        } else {
          NamesStay(run, n, m, k, j);
        }
      }
    }
  }

  lemma TakenOver(s: State, a: Action, s': State, k: SagaKey)
    requires Inv(s) && Next(s, a) == Some(s') && TakesOver(s, a, k)
    ensures exists i, j :: i != j && Named(s, k, i) && Named(s', k, j)
  {
    GrantIsStep(s, a, s');
    hide Next, GrantStep;
    GrantNames(s, a.worker, a.lockId, s', k);
    hide Inv;
    assert Named(s, k, s.tables.byKey[k].state) && Named(s', k, s.workers[a.worker].pc.instance);
  }
}
