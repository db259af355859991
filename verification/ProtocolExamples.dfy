/**
 Undisturbed workers do their work; and concrete runs show where the protocol's guarantees end: two creators of one
 saga, a lock leaked by a late `LockId = string.Empty`, and output lost because an id is reused.
 */
module ProtocolExamples {
  import opened Messages
  import opened LockTables
  import opened SagaProtocol
  import opened ProtocolInvariant
  import Outbox = InMemoryOutbox

  const SAGA := SagaDescriptor("Saga", None, {"Start"})
  const KEY := KeyOf(SAGA, "corr")
  const START := MessageContext(7, "corr", "Start")

  lemma Step(run: seq<Action>, s: State, a: Action, s': State)
    requires Exec(run) == Some(s) && Next(s, a) == Some(s')
    ensures Exec(run + [a]) == Some(s')
  {
    assert (run + [a])[..|run|] == run;
  }

  // One lemma per action, so that a run unfolds only the functions of its own actions.

  lemma RunSpawn(run: seq<Action>, s: State, w: Id, c: MessageContext, s': State) returns (run': seq<Action>)
    requires Exec(run) == Some(s) && SpawnStep(s, w, c, SAGA) == Some(s')
    ensures Exec(run') == Some(s')
  {
    hide SpawnStep;
    Step(run, s, Spawn(w, c, SAGA), s');
    run' := run + [Spawn(w, c, SAGA)];
  }

  lemma RunFind(run: seq<Action>, s: State, w: Id, s': State) returns (run': seq<Action>)
    requires Exec(run) == Some(s) && w in s.workers && FindStep(s, w) == Some(s')
    ensures Exec(run') == Some(s')
  {
    hide FindStep;
    Step(run, s, Find(w), s');
    run' := run + [Find(w)];
  }

  lemma RunResolve(run: seq<Action>, s: State, w: Id, i: Id, s': State) returns (run': seq<Action>)
    requires Exec(run) == Some(s) && w in s.workers && ResolveStep(s, w, i) == Some(s')
    ensures Exec(run') == Some(s')
  {
    hide ResolveStep;
    Step(run, s, Resolve(w, i), s');
    run' := run + [Resolve(w, i)];
  }

  lemma RunCheck(run: seq<Action>, s: State, w: Id, s': State) returns (run': seq<Action>)
    requires Exec(run) == Some(s) && w in s.workers && CheckStep(s, w) == Some(s')
    ensures Exec(run') == Some(s')
  {
    hide CheckStep;
    Step(run, s, Check(w), s');
    run' := run + [Check(w)];
  }

  lemma RunGrant(run: seq<Action>, s: State, w: Id, l: Id, s': State) returns (run': seq<Action>)
    requires Exec(run) == Some(s) && w in s.workers && GrantStep(s, w, l) == Some(s')
    ensures Exec(run') == Some(s')
  {
    hide GrantStep;
    Step(run, s, Grant(w, l), s');
    run' := run + [Grant(w, l)];
  }

  lemma RunStore(run: seq<Action>, s: State, w: Id, s': State) returns (run': seq<Action>)
    requires Exec(run) == Some(s) && w in s.workers && StoreStep(s, w) == Some(s')
    ensures Exec(run') == Some(s')
  {
    hide StoreStep;
    Step(run, s, StoreLockId(w), s');
    run' := run + [StoreLockId(w)];
  }

  lemma RunRecheck(run: seq<Action>, s: State, w: Id, s': State) returns (run': seq<Action>)
    requires Exec(run) == Some(s) && w in s.workers && RecheckStep(s, w) == Some(s')
    ensures Exec(run') == Some(s')
  {
    hide RecheckStep;
    Step(run, s, Recheck(w), s');
    run' := run + [Recheck(w)];
  }

  lemma RunReturn(run: seq<Action>, s: State, w: Id, s': State) returns (run': seq<Action>)
    requires Exec(run) == Some(s) && w in s.workers && HandlerStep(s, w, None) == Some(s')
    ensures Exec(run') == Some(s')
  {
    hide HandlerStep;
    Step(run, s, HandlerReturns(w), s');
    run' := run + [HandlerReturns(w)];
  }

  lemma RunThrow(run: seq<Action>, s: State, w: Id, e: Error, s': State) returns (run': seq<Action>)
    requires Exec(run) == Some(s) && w in s.workers && HandlerStep(s, w, Some(e)) == Some(s')
    ensures Exec(run') == Some(s')
  {
    hide HandlerStep;
    Step(run, s, HandlerThrows(w, e), s');
    run' := run + [HandlerThrows(w, e)];
  }

  lemma RunRecord(run: seq<Action>, s: State, w: Id, s': State) returns (run': seq<Action>)
    requires Exec(run) == Some(s) && w in s.workers && RecordStep(s, w) == Some(s')
    ensures Exec(run') == Some(s')
  {
    hide RecordStep;
    Step(run, s, Record(w), s');
    run' := run + [Record(w)];
  }

  lemma RunAppend(run: seq<Action>, s: State, w: Id, s': State) returns (run': seq<Action>)
    requires Exec(run) == Some(s) && w in s.workers && AppendStep(s, w) == Some(s')
    ensures Exec(run') == Some(s')
  {
    hide AppendStep;
    Step(run, s, AppendNext(w), s');
    run' := run + [AppendNext(w)];
  }

  lemma RunEmpty(run: seq<Action>, s: State, w: Id, s': State) returns (run': seq<Action>)
    requires Exec(run) == Some(s) && w in s.workers && ClearOutboxStep(s, w) == Some(s')
    ensures Exec(run') == Some(s')
  {
    hide ClearOutboxStep;
    Step(run, s, ClearOutbox(w), s');
    run' := run + [ClearOutbox(w)];
  }

  lemma RunCommit(run: seq<Action>, s: State, w: Id, guard: LockField, s': State) returns (run': seq<Action>)
    requires Exec(run) == Some(s) && w in s.workers && CommitStep(s, w, guard) == Some(s')
    ensures Exec(run') == Some(s')
  {
    hide CommitStep;
    Step(run, s, CommitRelease(w, guard), s');
    run' := run + [CommitRelease(w, guard)];
  }

  lemma RunCatch(run: seq<Action>, s: State, w: Id, s': State) returns (run': seq<Action>)
    requires Exec(run) == Some(s) && w in s.workers && CatchStep(s, w) == Some(s')
    ensures Exec(run') == Some(s')
  {
    hide CatchStep;
    Step(run, s, CatchCheck(w), s');
    run' := run + [CatchCheck(w)];
  }

  lemma RunClear(run: seq<Action>, s: State, w: Id, s': State) returns (run': seq<Action>)
    requires Exec(run) == Some(s) && w in s.workers && ClearStep(s, w) == Some(s')
    ensures Exec(run') == Some(s')
  {
    hide ClearStep;
    Step(run, s, ClearLockId(w), s');
    run' := run + [ClearLockId(w)];
  }

  // ----- An undisturbed worker commits -----

  /** The state of an undisturbed worker once BeginProcessingAsync has returned. */
  function Begun(s: State, w: Id, i: Id, l: Id): State
    requires w in s.workers && i in s.instances && i in s.keyOf
  {
    var entry := Entry(i, Some(l));
    Move(Put(s, i, s.instances[i].(lockId := Guid(l))), w, Handling(i, l))
      .(tables := Tables(s.tables.byId[i := entry], s.tables.byKey[s.keyOf[i] := entry]), owner := s.owner[l := w],
        grantedTo := s.grantedTo + {i})
  }

  predicate Free(t: Tables<Id>, i: Id, k: SagaKey) {
    (i in t.byId ==> t.byId[i].lockId.None?) && (k in t.byKey ==> t.byKey[k].lockId.None?)
  }

  /** From the first check to the handler: the lock is granted, stored, and the re-check succeeds. */
  lemma BeginsAlone(run: seq<Action>, s: State, w: Id, l: Id) returns (run': seq<Action>)
    requires Exec(run) == Some(s) && w in s.workers && s.workers[w].pc.Locking? && l !in s.owner
    requires var i := s.workers[w].pc.instance;
             Exists(s, i) && CanProcess(s, i, s.workers[w]) && Free(s.tables, i, s.keyOf[i])
    ensures Exec(run') == Some(Begun(s, w, s.workers[w].pc.instance, l))
  {
    hide Exec;
    var i := s.workers[w].pc.instance;
    var s1 := GrantStep(s, w, l).value;
    run' := RunGrant(run, s, w, l, s1);
    var s2 := StoreStep(s1, w).value;
    run' := RunStore(run', s1, w, s2);
    var s3 := RecheckStep(s2, w).value;
    run' := RunRecheck(run', s2, w, s3);
    assert s3.workers == Begun(s, w, i, l).workers;
  }

  function Ids(batch: seq<Envelope>): set<Id> {
    set e | e in batch :: e.messageId
  }

  /** The worker `w`, about to append, has appended the first `n` envelopes of its instance. */
  function Appended(s: State, w: Id, n: nat): State
    requires w in s.workers && s.workers[w].pc.Appending? && s.workers[w].pc.instance in s.instances
    requires n <= |s.instances[s.workers[w].pc.instance].outbox|
  {
    var i, l := s.workers[w].pc.instance, s.workers[w].pc.lockId;
    var batch := s.instances[i].outbox[..n];
    Move(Put(s, i, s.instances[i].(appended := n)), w, Appending(i, l, n, false))
      .(pending := Outbox.Added(s.pending, batch), appendedIds := s.appendedIds + Ids(batch))
  }

  lemma {:induction false} AppendsAlone(run: seq<Action>, s: State, w: Id, n: nat) returns (run': seq<Action>)
    requires Exec(run) == Some(s) && w in s.workers && s.workers[w].pc.Appending?
    requires s.workers[w].pc.next == 0 && !s.workers[w].pc.stopped
    requires var i := s.workers[w].pc.instance;
             && Exists(s, i) && s.instances[i].appended == 0 && n <= |s.instances[i].outbox|
             && Outbox.AllNew(s.pending, s.instances[i].outbox, |s.instances[i].outbox|)
    ensures Exec(run') == Some(Appended(s, w, n))
  {
    if n == 0 {
      NothingAppended(s, w);
      run' := run;
    } else {
      run' := AppendsAlone(run, s, w, n - 1);
      AppendsOneMore(s, w, n);
      hide Exec, AppendStep, Appended;
      run' := RunAppend(run', Appended(s, w, n - 1), w, Appended(s, w, n));
    }
  }

  lemma NothingAppended(s: State, w: Id)
    requires w in s.workers && s.workers[w].pc.Appending? && s.workers[w].pc.next == 0 && !s.workers[w].pc.stopped
    requires s.workers[w].pc.instance in s.instances && s.instances[s.workers[w].pc.instance].appended == 0
    ensures Appended(s, w, 0) == s
  {
    var i := s.workers[w].pc.instance;
    assert s.instances[i].outbox[..0] == [];
    assert Appended(s, w, 0).instances == s.instances && Appended(s, w, 0).workers == s.workers;
  }

  lemma AppendsOneMore(s: State, w: Id, n: nat)
    requires w in s.workers && s.workers[w].pc.Appending? && Exists(s, s.workers[w].pc.instance)
    requires var q := s.instances[s.workers[w].pc.instance].outbox; 0 < n <= |q| && Outbox.AllNew(s.pending, q, |q|)
    ensures AppendStep(Appended(s, w, n - 1), w) == Some(Appended(s, w, n))
  {
    var i := s.workers[w].pc.instance;
    var q := s.instances[i].outbox;
    var t, t' := Appended(s, w, n - 1), Appended(s, w, n);
    OneMoreId(s.pending, s.appendedIds, q, n);
    hide Outbox.Added, Outbox.AllNew, Ids;
    var e := q[n - 1];
    SameAppended(s, w, n);
    hide Appended;
    AppendsNext(t, w, i, s.workers[w].pc.lockId, n, e);
  }

  lemma SameAppended(s: State, w: Id, n: nat)
    requires w in s.workers && s.workers[w].pc.Appending? && Exists(s, s.workers[w].pc.instance)
    requires 0 < n <= |s.instances[s.workers[w].pc.instance].outbox|
    ensures var i, t, t' := s.workers[w].pc.instance, Appended(s, w, n - 1), Appended(s, w, n);
            && w in t.workers && t.workers[w].pc == Appending(i, s.workers[w].pc.lockId, n - 1, false) && Exists(t, i)
            && t.instances[i].outbox == s.instances[i].outbox
            && t' == Move(Put(t, i, t.instances[i].(appended := n)), w, Appending(i, s.workers[w].pc.lockId, n, false))
                     .(pending := t'.pending, appendedIds := t'.appendedIds)
            && t.pending == Outbox.Added(s.pending, s.instances[i].outbox[..n - 1])
            && t'.pending == Outbox.Added(s.pending, s.instances[i].outbox[..n])
            && t.appendedIds == s.appendedIds + Ids(s.instances[i].outbox[..n - 1])
            && t'.appendedIds == s.appendedIds + Ids(s.instances[i].outbox[..n])
  {
    hide Outbox.Added, Ids;
    var i, t, t' := s.workers[w].pc.instance, Appended(s, w, n - 1), Appended(s, w, n);
    var next := Move(Put(t, i, t.instances[i].(appended := n)), w, Appending(i, s.workers[w].pc.lockId, n, false));
    assert t'.instances == next.instances && t'.workers == next.workers;
  }

  lemma AppendsNext(t: State, w: Id, i: Id, l: Id, n: nat, e: Envelope)
    requires w in t.workers && 0 < n && t.workers[w].pc == Appending(i, l, n - 1, false) && Exists(t, i)
    requires n <= |t.instances[i].outbox| && t.instances[i].outbox[n - 1] == e && e.messageId !in t.pending
    ensures AppendStep(t, w)
            == Some(Move(Put(t, i, t.instances[i].(appended := n)), w, Appending(i, l, n, false))
                    .(pending := t.pending[e.messageId := e], appendedIds := t.appendedIds + {e.messageId}))
  {
  }

  lemma OneMoreId(pending: map<Id, Envelope>, ids: set<Id>, q: seq<Envelope>, n: nat)
    requires 0 < n <= |q| && Outbox.AllNew(pending, q, |q|)
    ensures q[n - 1].messageId !in Outbox.Added(pending, q[..n - 1])
    ensures Outbox.Added(pending, q[..n]) == Outbox.Added(pending, q[..n - 1])[q[n - 1].messageId := q[n - 1]]
    ensures ids + Ids(q[..n]) == ids + Ids(q[..n - 1]) + {q[n - 1].messageId}
  {
    assert q[..n][..n - 1] == q[..n - 1] && q[..n] == q[..n - 1] + [q[n - 1]];
    Outbox.AddedIs(pending, q[..n - 1]);
  }

  /** The state of an undisturbed worker after the release of its commit. */
  function Ended(s: State, w: Id, i: Id): State
    requires w in s.workers && Exists(s, i)
  {
    var m := s.workers[w].context.messageId;
    var batch := s.instances[i].outbox;
    var after := s.instances[i].(processed := s.instances[i].processed + {m}, outbox := [], appended := 0);
    Move(Put(s, i, after), w, Clearing(i, Committed(i)))
      .(tables := Freed(s, i), commits := s.commits + [Commit(i, m)], delivered := s.delivered + s.workers[w].published,
        pending := Outbox.Added(s.pending, batch), appendedIds := s.appendedIds + Ids(batch))
  }

  /** An undisturbed holder whose instance's envelopes have new ids. */
  predicate CanCommit(s: State, w: Id, i: Id, l: Id) {
    && w in s.workers && s.workers[w].pc == Handling(i, l) && Exists(s, i)
    && s.workers[w].context.messageId !in s.instances[i].processed
    && Outbox.AllNew(s.pending, s.instances[i].outbox, |s.instances[i].outbox|)
    && s.instances[i].appended == 0 && s.instances[i].lockId == Guid(l)
    && i in s.tables.byId && s.tables.byId[i].lockId == Some(l)
  }

  /** The state in which it comes to append. */
  function Recorded(s: State, w: Id, i: Id, l: Id): State
    requires w in s.workers && i in s.instances
  {
    var m := s.workers[w].context.messageId;
    Move(Put(s, i, s.instances[i].(processed := s.instances[i].processed + {m})), w, Appending(i, l, 0, false))
  }

  lemma RecordsAlone(run: seq<Action>, s: State, w: Id, i: Id, l: Id) returns (run': seq<Action>)
    requires Exec(run) == Some(s) && CanCommit(s, w, i, l)
    ensures Exec(run') == Some(Recorded(s, w, i, l))
  {
    hide Exec;
    var s1 := HandlerStep(s, w, None).value;
    run' := RunReturn(run, s, w, s1);
    var s2 := RecordStep(s1, w).value;
    run' := RunRecord(run', s1, w, s2);
    assert s2.workers == Recorded(s, w, i, l).workers;
  }

  lemma FinishesAlone(run: seq<Action>, s: State, w: Id, i: Id, l: Id) returns (run': seq<Action>)
    requires CanCommit(s, w, i, l) && Exec(run) == Some(Appended(Recorded(s, w, i, l), w, |s.instances[i].outbox|))
    ensures Exec(run') == Some(Ended(s, w, i))
  {
    hide Exec;
    var q := s.instances[i].outbox;
    assert q[..|q|] == q;
    var s2 := Appended(Recorded(s, w, i, l), w, |q|);
    var s3 := ClearOutboxStep(s2, w).value;
    run' := RunEmpty(run, s2, w, s3);
    assert s3.instances == Ended(s, w, i).instances;
    var s4 := CommitStep(s3, w, Guid(l)).value;
    run' := RunCommit(run', s3, w, Guid(l), s4);
    assert s4.workers == Ended(s, w, i).workers;
  }

  /** From the handler to the release: the message is recorded, every envelope appended, both entries freed. */
  lemma CommitsAlone(run: seq<Action>, s: State, w: Id, i: Id, l: Id) returns (run': seq<Action>)
    requires Exec(run) == Some(s) && CanCommit(s, w, i, l)
    ensures Exec(run') == Some(Ended(s, w, i))
  {
    hide Exec;
    run' := RecordsAlone(run, s, w, i, l);
    run' := AppendsAlone(run', Recorded(s, w, i, l), w, |s.instances[i].outbox|);
    hide Appended, Recorded, Ended;
    run' := FinishesAlone(run', s, w, i, l);
  }

  // ----- Two creators -----

  const WORKER := Worker(START, SAGA, Finding(false), {})
  const FRESH := Instance(false, {}, [], Null, 0)

  /** Two workers found no instance, and each created its own. */
  const CREATED := INITIAL.(
    keyOf := map[10 := KEY, 11 := KEY],
    instances := map[10 := FRESH, 11 := FRESH],
    workers := map[0 := WORKER.(pc := Locking(false, 10)), 1 := WORKER.(pc := Locking(false, 11))])

  lemma BothCreate() returns (run: seq<Action>)
    ensures Exec(run) == Some(CREATED)
  {
    assert Exec([]) == Some(INITIAL);
    hide Exec;
    var s1 := SpawnStep(INITIAL, 0, START, SAGA).value;
    run := RunSpawn([], INITIAL, 0, START, s1);
    var s2 := SpawnStep(s1, 1, START, SAGA).value;
    run := RunSpawn(run, s1, 1, START, s2);
    var s3 := FindStep(s2, 0).value;
    run := RunFind(run, s2, 0, s3);
    var s4 := FindStep(s3, 1).value;
    run := RunFind(run, s3, 1, s4);
    assert s4 == INITIAL.(workers := map[0 := WORKER.(pc := Missing(false)), 1 := WORKER.(pc := Missing(false))]);
    run := BothResolve(run, s4);
  }

  lemma BothResolve(before: seq<Action>, s4: State) returns (run: seq<Action>)
    requires Exec(before) == Some(s4)
    requires s4 == INITIAL.(workers := map[0 := WORKER.(pc := Missing(false)), 1 := WORKER.(pc := Missing(false))])
    ensures Exec(run) == Some(CREATED)
  {
    hide Exec;
    var s5 := ResolveStep(s4, 0, 10).value;
    run := RunResolve(before, s4, 0, 10, s5);
    var s6 := ResolveStep(s5, 1, 11).value;
    run := RunResolve(run, s5, 1, 11, s6);
    assert s6.keyOf == CREATED.keyOf && s6.instances == CREATED.instances;
    var s7 := CheckStep(s6, 0).value;
    run := RunCheck(run, s6, 0, s7);
    var s8 := CheckStep(s7, 1).value;
    run := RunCheck(run, s7, 1, s8);
    assert s8.workers == CREATED.workers;
  }

  /** An undisturbed worker on a fresh instance, from the lock to the release. */
  lemma CommitsFresh(run: seq<Action>, s: State, w: Id, i: Id, l: Id) returns (run': seq<Action>)
    requires Exec(run) == Some(s) && w in s.workers && s.workers[w].pc == Locking(false, i) && l !in s.owner
    requires Exists(s, i) && s.instances[i] == FRESH && CanProcess(s, i, s.workers[w]) && Free(s.tables, i, s.keyOf[i])
    ensures Exec(run') == Some(Ended(Begun(s, w, i, l), w, i))
  {
    hide Exec, Ended;
    run' := BeginsAlone(run, s, w, l);
    run' := CommitsAlone(run', Begun(s, w, i, l), w, i, l);
  }

  /** The first of them has committed, and released its lock. */
  function FirstCommitted(): State {
    Ended(Begun(CREATED, 0, 10, 100), 0, 10)
  }

  lemma FirstCommits() returns (run: seq<Action>)
    ensures Exec(run) == Some(FirstCommitted())
  {
    run := BothCreate();
    hide Exec;
    run := CommitsFresh(run, CREATED, 0, 10, 100);
  }

  lemma FirstIs()
    ensures var s := FirstCommitted();
            && s.keyOf == CREATED.keyOf && s.commits == [Commit(10, 7)] && s.pending == map[]
            && s.instances.Keys == {10, 11} && s.instances[11] == FRESH
            && s.instances[10] == Instance(false, {7}, [], Guid(100), 0)
            && s.workers.Keys == {0, 1} && s.workers[1] == CREATED.workers[1]
            && s.tables == Tables(map[10 := Entry(10, None)], map[KEY := Entry(10, None)]) && s.owner == map[100 := 0]
  {
    var s := FirstCommitted();
    assert s.instances.Keys == {10, 11} && s.workers.Keys == {0, 1};
  }

  /** Without the single-creator condition, one message is committed twice for one key, on two instances. */
  lemma TwoCreators() returns (run: seq<Action>)
    ensures Exec(run).Some?
    ensures var s := Exec(run).value;
            s.commits == [Commit(10, 7), Commit(11, 7)] && 10 in s.keyOf && 11 in s.keyOf && s.keyOf[10] == s.keyOf[11]
  {
    run := FirstCommits();
    hide Exec;
    FirstIs();
    hide FirstCommitted;
    var s := FirstCommitted();
    run := CommitsFresh(run, s, 1, 11, 101);
  }

  // ----- A leaked lock -----

  const LATER := MessageContext(8, "corr", "Next")

  /** The first worker has released the lock but not yet cleared the LockId; the second holds it. */
  function HeldByNext(): State {
    var s := FirstCommitted();
    Begun(s.(workers := s.workers[2 := Worker(LATER, SAGA, Locking(false, 10), {})]), 2, 10, 101)
  }

  lemma NextHolds() returns (run: seq<Action>)
    ensures Exec(run) == Some(HeldByNext())
  {
    run := FirstCommits();
    hide Exec;
    FirstIs();
    hide FirstCommitted;
    var s2 := FirstCommitted();
    var worker := Worker(LATER, SAGA, Finding(false), {});
    var s3 := SpawnStep(s2, 2, LATER, SAGA).value;
    run := RunSpawn(run, s2, 2, LATER, s3);
    var s4 := FindStep(s3, 2).value;
    run := RunFind(run, s3, 2, s4);
    var s5 := CheckStep(s4, 2).value;
    run := RunCheck(run, s4, 2, s5);
    assert s5.workers == s2.workers[2 := worker.(pc := Locking(false, 10))];
    run := BeginsAlone(run, s5, 2, 101);
  }

  /** A late clear erases the next holder's id; when that holder's handler fails, the lock is never released. */
  lemma LeakedLock() returns (run: seq<Action>)
    ensures Exec(run).Some?
    ensures var s := Exec(run).value;
            && 2 in s.workers && s.workers[2].pc == Leaked(10, 101, Failed(SagaException(UserException(0))))
            && KEY in s.tables.byKey && s.tables.byKey[KEY].lockId == Some(101)
  {
    run := NextHolds();
    hide Exec;
    var s := HeldByNext();
    var e := SagaException(UserException(0));
    var s1 := Move(Put(s, 10, s.instances[10].(lockId := Empty)), 0, Done(Committed(10)));
    run := RunClear(run, s, 0, s1);
    var s2 := Move(s1, 2, Catching(10, 101, e));
    run := RunThrow(run, s1, 2, e, s2);
    run := RunCatch(run, s2, 2, Move(s2, 2, Leaked(10, 101, Failed(e))));
  }

  // ----- A duplicate id -----

  lemma RunBus(run: seq<Action>, s: State, e: Envelope, s': State) returns (run': seq<Action>)
    requires Exec(run) == Some(s) && BusStep(s, e) == Some(s')
    ensures Exec(run') == Some(s')
  {
    hide BusStep;
    Step(run, s, BusPublish(e), s');
    run' := run + [BusPublish(e)];
  }

  lemma RunPublish(run: seq<Action>, s: State, w: Id, e: Envelope, s': State) returns (run': seq<Action>)
    requires Exec(run) == Some(s) && w in s.workers && PublishStep(s, w, e) == Some(s')
    ensures Exec(run') == Some(s')
  {
    hide PublishStep;
    Step(run, s, Publish(w, e), s');
    run' := run + [Publish(w, e)];
  }

  /** What the bus publishes carries the id of the system as its sender. */
  const SYSTEM: Id := 1
  const BY_BUS := Envelope(50, "corr", SYSTEM, "Next")
  const REPEATED := Envelope(50, "corr", 10, "Next")
  const BEHIND := Envelope(51, "corr", 10, "Next")

  /** Worker `w` holds lock `l` on instance 10, whose outbox starts with an envelope that is pending already. */
  predicate RepeatsId(s: State, w: Id, l: Id) {
    && w in s.workers && s.workers[w].pc == Handling(10, l) && Exists(s, 10) && BEHIND in s.workers[w].published
    && s.instances[10].outbox == [REPEATED, BEHIND] && s.instances[10].lockId == Guid(l)
    && s.workers[w].context.messageId !in s.instances[10].processed
    && s.pending == map[50 := BY_BUS] && s.relayed == {}
    && 10 in s.tables.byId && s.tables.byId[10].lockId == Some(l)
  }

  predicate LostBehind(s: State) {
    && BEHIND in s.delivered && BEHIND !in s.pending.Values && BEHIND !in s.relayed
    && 10 in s.instances && s.instances[10].outbox == []
  }

  /** The commit ignores that the append stopped at the duplicate: what is behind it is lost, and the outbox emptied. */
  lemma LosesBehind(run: seq<Action>, s: State, w: Id, l: Id) returns (run': seq<Action>)
    requires Exec(run) == Some(s) && RepeatsId(s, w, l)
    ensures Exec(run').Some? && LostBehind(Exec(run').value)
  {
    hide Exec;
    var s1 := HandlerStep(s, w, None).value;
    run' := RunReturn(run, s, w, s1);
    var s2 := RecordStep(s1, w).value;
    run' := RunRecord(run', s1, w, s2);
    var s3 := AppendStep(s2, w).value;
    run' := RunAppend(run', s2, w, s3);
    var s4 := ClearOutboxStep(s3, w).value;
    run' := RunEmpty(run', s3, w, s4);
    run' := RunCommit(run', s4, w, Guid(l), CommitStep(s4, w, Guid(l)).value);
  }

  /** A reused id loses the envelope behind it, although the commit succeeds. */
  lemma DuplicateLosesOutput() returns (run: seq<Action>)
    ensures Exec(run).Some? && LostBehind(Exec(run).value)
  {
    run := BothCreate();
    hide Exec, LostBehind;
    var s0 := Begun(CREATED, 0, 10, 100);
    run := BeginsAlone(run, CREATED, 0, 100);
    var s1 := BusStep(s0, BY_BUS).value;
    run := RunBus(run, s0, BY_BUS, s1);
    var s2 := PublishStep(s1, 0, REPEATED).value;
    run := RunPublish(run, s1, 0, REPEATED, s2);
    var s3 := PublishStep(s2, 0, BEHIND).value;
    run := RunPublish(run, s2, 0, BEHIND, s3);
    assert s3.instances[10].outbox == [REPEATED, BEHIND];
    run := LosesBehind(run, s3, 0, 100);
  }

  // ----- A deletion that removes another message -----

  lemma RunRelay(run: seq<Action>, s: State, a: Action, s': State) returns (run': seq<Action>)
    requires Exec(run) == Some(s) && IsRelayAction(a) && RelayStep(s, a) == Some(s')
    ensures Exec(run') == Some(s')
  {
    hide RelayStep;
    Step(run, s, a, s');
    run' := run + [a];
  }

  const OTHER := Envelope(50, "other", SYSTEM, "Next")

  const APPENDED := BusStep(INITIAL, BY_BUS).value
  const READ := APPENDED.(relays := APPENDED.relays[0 := Sending([BY_BUS])])
  const READ_TWICE := READ.(relays := READ.relays[1 := Sending([BY_BUS])])
  const SENT :=
    READ_TWICE.(relays := READ_TWICE.relays[0 := Deleting([BY_BUS])], relayed := READ_TWICE.relayed + {BY_BUS})
  const DELETED := SENT.(relays := SENT.relays[0 := Sending([BY_BUS][1..])], pending := SENT.pending - {50})
  const SENT_TWICE :=
    DELETED.(relays := DELETED.relays[1 := Deleting([BY_BUS])], relayed := DELETED.relayed + {BY_BUS})

  lemma ReadsTwice() returns (run: seq<Action>)
    ensures Exec(run) == Some(READ_TWICE)
  {
    assert Exec([]) == Some(INITIAL);
    hide Exec;
    run := RunBus([], INITIAL, BY_BUS, APPENDED);
    run := RunRelay(run, APPENDED, ReadPending(0, [BY_BUS]), READ);
    run := RunRelay(run, READ, ReadPending(1, [BY_BUS]), READ_TWICE);
  }

  lemma SendsTwice() returns (run: seq<Action>)
    ensures Exec(run) == Some(SENT_TWICE)
  {
    run := ReadsTwice();
    hide Exec;
    run := RunRelay(run, READ_TWICE, RelayPublish(0), SENT);
    run := RunRelay(run, SENT, RelayDelete(0), DELETED);
    run := RunRelay(run, DELETED, RelayPublish(1), SENT_TWICE);
  }

  const REAPPENDED := SENT_TWICE.(issued := SENT_TWICE.issued[50 := OTHER], pending := SENT_TWICE.pending[50 := OTHER],
                                  appendedIds := SENT_TWICE.appendedIds + {50})

  lemma AppendsAgain() returns (run: seq<Action>)
    ensures Exec(run) == Some(REAPPENDED)
  {
    run := SendsTwice();
    hide Exec;
    assert 50 !in SENT_TWICE.pending;
    run := RunBus(run, SENT_TWICE, OTHER, REAPPENDED);
  }

  /**
   Two relays have read a message; one sends and deletes it, and another one with the same id is appended: the other
   relay's deletion removes it unsent.
   */
  lemma StaleDeleteLosesOutput() returns (run: seq<Action>)
    ensures Exec(run).Some?
    ensures var s := Exec(run).value;
            50 in s.issued && s.issued[50] == OTHER && OTHER !in s.pending.Values && OTHER !in s.relayed
  {
    run := AppendsAgain();
    hide Exec;
    var s := REAPPENDED;
    run :=
      RunRelay(run, s, RelayDelete(1),
               s.(pending := s.pending - {50}, relays := s.relays[1 := Sending([BY_BUS][1..])]));
  }
}
