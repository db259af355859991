/**
 Which saga a session works for, over every run: it opens what is stored for its key, creates an
 instance for an initiator only, and locks rows of its own saga only.
 */
module SqlSessions {
  import opened Messages
  import opened SqlProtocol
  import opened SqlInvariant
  import opened SqlTheorems
  import SqlHistory

  /** The row a session is about to lock is of its own saga. */
  predicate TargetOk(rows: map<Id, Row>, session: Session) {
    (session.pc.Checked? || session.pc.Stamped?) && session.pc.target.Some? ==>
      session.pc.target.value in rows && rows[session.pc.target.value].key == session.key
  }

  predicate LockKeyOk(s: State, l: Id)
    requires l in s.locks
  {
    && s.locks[l].row in s.rows && s.locks[l].session in s.sessions
    && s.rows[s.locks[l].row].key == s.sessions[s.locks[l].session].key
  }

  ghost predicate OwnSaga(s: State) {
    && (forall x | x in s.sessions :: TargetOk(s.rows, s.sessions[x]))
    && (forall l | l in s.locks :: LockKeyOk(s, l))
  }

  /** What is there already stays as it should be. */
  lemma OthersStay(s: State, s': State, x: Id)
    requires OwnSaga(s) && LocksPast(s, s')
    requires forall y | y in s'.sessions && y != x :: y in s.sessions && s'.sessions[y] == s.sessions[y]
    ensures forall y | y in s'.sessions && y != x :: TargetOk(s'.rows, s'.sessions[y])
    ensures forall l | l in s.locks :: LockKeyOk(s', l)
  {
    forall l | l in s.locks
      ensures LockKeyOk(s', l)
    {
      assert LockKeyOk(s, l);
    }
  }

  lemma ReadsOwn(s: State, x: Id, r: Option<Id>, s': State)
    requires x in s.sessions && SessionOk(s, x, s.sessions[x]) && ReadForLockStep(s, x, r) == Some(s')
    ensures x in s'.sessions && TargetOk(s'.rows, s'.sessions[x]) && s'.locks == s.locks
    ensures forall y | y in s'.sessions && y != x :: y in s.sessions && s'.sessions[y] == s.sessions[y]
  {
    hide Expired, HasLock;
  }

  lemma StampsOwn(s: State, x: Id, l: Id, s': State)
    requires x in s.sessions && TargetOk(s.rows, s.sessions[x]) && StampStep(s, x, l) == Some(s')
    ensures x in s'.sessions && TargetOk(s'.rows, s'.sessions[x]) && s'.locks == s.locks
    ensures forall y | y in s'.sessions && y != x :: y in s.sessions && s'.sessions[y] == s.sessions[y]
  {
  }

  lemma WritesOwn(s: State, x: Id, s': State)
    requires x in s.sessions && TargetOk(s.rows, s.sessions[x]) && WriteLockStep(s, x) == Some(s')
    ensures x in s'.sessions && TargetOk(s'.rows, s'.sessions[x])
    ensures forall y | y in s'.sessions && y != x :: y in s.sessions && s'.sessions[y] == s.sessions[y]
    ensures forall l | l in s'.locks && l !in s.locks :: LockKeyOk(s', l)
  {
    if CanWriteLock(s, x) {
      WriteLockGrants(s, x, s');
      hide WriteLockStep, CanWriteLock;
    } else {
      WriteLockFails(s, x, s');
      hide WriteLockStep, CanWriteLock;
    }
  }

  /** The steps that neither look for a row nor lock one. */
  lemma RestOwn(s: State, a: Action, s': State)
    requires Next(s, a) == Some(s') && (a.ReadRival? || a.Work? || a.ReadForRelease? || a.WriteRelease?)
    requires a.session in s.sessions && TargetOk(s.rows, s.sessions[a.session])
    ensures a.session in s'.sessions && TargetOk(s'.rows, s'.sessions[a.session]) && s'.locks == s.locks
    ensures forall y | y in s'.sessions && y != a.session :: y in s.sessions && s'.sessions[y] == s.sessions[y]
  {
    hide ReadForLockStep, StampStep, WriteLockStep, RivalOf, Persisted;
  }

  lemma OpensOwn(s: State, a: Action, s': State)
    requires a.Open? && Next(s, a) == Some(s')
    ensures a.session in s'.sessions && TargetOk(s'.rows, s'.sessions[a.session]) && s'.locks == s.locks
    ensures forall y | y in s'.sessions && y != a.session :: y in s.sessions && s'.sessions[y] == s.sessions[y]
  {
    hide SessionStep, HasKey, InUse;
  }

  lemma StepsAre(s: State, a: Action, s': State)
    requires Next(s, a) == Some(s') && !a.Tick? && !a.Open?
    ensures a.session in s.sessions
    ensures a.ReadForLock? ==> ReadForLockStep(s, a.session, a.row) == Some(s')
    ensures a.Stamp? ==> StampStep(s, a.session, a.lockId) == Some(s')
    ensures a.WriteLock? ==> WriteLockStep(s, a.session) == Some(s')
  {
    hide ReadForLockStep, StampStep, WriteLockStep, ReadRivalStep, WorkStep, ReadForReleaseStep, WriteReleaseStep;
  }

  lemma TickIs(s: State, a: Action, s': State)
    requires a.Tick? && Next(s, a) == Some(s')
    ensures s'.sessions == s.sessions && s'.locks == s.locks
  {
  }

  lemma StepOwn(s: State, a: Action, s': State)
    requires Inv(s) && Next(s, a) == Some(s') && OwnSaga(s)
    ensures OwnSaga(s')
  {
    hide Inv, Next, LocksPast, TargetOk, LockKeyOk;
    StepPast(s, a, s');
    if a.Tick? {
      TickIs(s, a, s');
      EverySessionStays(s, s');
    } else {
      if a.Open? {
        OpensOwn(s, a, s');
      } else {
        StepsAre(s, a, s');
        EverySession(s, a.session);
        hide SessionOk, ReadForLockStep, StampStep, WriteLockStep;
        if a.ReadForLock? {
          ReadsOwn(s, a.session, a.row, s');
        } else if a.Stamp? {
          StampsOwn(s, a.session, a.lockId, s');
        } else if a.WriteLock? {
          WritesOwn(s, a.session, s');
        } else {
          RestOwn(s, a, s');
        }
      }
      OthersStay(s, s', a.session);
    }
  }

  lemma EverySessionStays(s: State, s': State)
    requires OwnSaga(s) && LocksPast(s, s') && s'.sessions == s.sessions && s'.locks == s.locks
    ensures OwnSaga(s')
  {
    forall l | l in s.locks
      ensures LockKeyOk(s', l)
    {
      assert LockKeyOk(s, l);
    }
  }

  lemma {:induction false} RunOwn(d: nat, run: seq<Action>)
    requires Exec(d, run).Some?
    ensures OwnSaga(Exec(d, run).value)
  {
    if run != [] {
      RunOwn(d, run[..|run| - 1]);
      RunsKeep(d, run[..|run| - 1]);
      hide Inv, Next, OwnSaga;
      StepOwn(Exec(d, run[..|run| - 1]).value, run[|run| - 1], Exec(d, run).value);
    }
  }

  /** In any run every lock is on a row of the saga that its session is for, be it another instance's. */
  lemma LocksOwnSaga(d: nat, run: seq<Action>, l: Id)
    requires Exec(d, run).Some? && l in Exec(d, run).value.locks
    ensures var s := Exec(d, run).value;
            && s.locks[l].row in s.rows && s.locks[l].session in s.sessions
            && s.rows[s.locks[l].row].key == s.sessions[s.locks[l].session].key
  {
    RunOwn(d, run);
    hide Exec;
    assert LockKeyOk(Exec(d, run).value, l);
  }

  /**
   A delivery opens what is stored for its saga; where nothing is, it goes on with a new instance exactly for an
   initiator, and otherwise is refused.
   */
  lemma OpensAsFound(d: nat, run: seq<Action>, n: nat)
    requires n < |run| && Exec(d, run).Some? && run[n].Open?
    ensures var s, a := After(d, run, n), run[n];
            var key, s' := KeyOf(a.descriptor, a.context.correlationId), After(d, run, n + 1);
            && a.session in s'.sessions && s'.sessions[a.session].key == key
            && s'.sessions[a.session].instance == a.instance && s'.sessions[a.session].context == a.context
            && if exists r :: r in s.rows && s.rows[r].key == key then
                 && a.instance in s.rows && s.rows[a.instance].key == key
                 && s'.sessions[a.session].found == s.rows[a.instance].content
               else
                 && a.instance !in s.rows
                 && s'.sessions[a.session].pc == if a.context.messageType in a.descriptor.initiatorTypes then Opened
                                                 else Refused(ApplicationException)
  {
    StepAt(d, run, n);
    hide After, Exec, Inv;
    OpenIs(After(d, run, n), run[n], After(d, run, n + 1));
    hide Next;
    Opens(After(d, run, n), run[n].session, run[n].context, run[n].descriptor, run[n].instance, After(d, run, n + 1));
  }

  lemma OpenIs(s: State, a: Action, s': State)
    requires a.Open? && Next(s, a) == Some(s')
    ensures OpenStep(s, a.session, a.context, a.descriptor, a.instance) == Some(s')
  {
    hide OpenStep;
  }

  lemma Opens(s: State, x: Id, context: MessageContext, descriptor: SagaDescriptor, i: Id, s': State)
    requires OpenStep(s, x, context, descriptor, i) == Some(s')
    ensures var key := KeyOf(descriptor, context.correlationId);
            && x in s'.sessions && s'.sessions[x].key == key && s'.sessions[x].instance == i
            && s'.sessions[x].context == context
            && if exists r :: r in s.rows && s.rows[r].key == key then
                 i in s.rows && s.rows[i].key == key && s'.sessions[x].found == s.rows[i].content
               else
                 && i !in s.rows
                 && s'.sessions[x].pc == if context.messageType in descriptor.initiatorTypes then Opened
                                         else Refused(ApplicationException)
  {
  }

  // ----- What a handler leaves is what is persisted -----

  /** The session's handler has left `content`. */
  predicate Left(s: State, x: Id, content: Content) {
    && x in s.sessions && (s.sessions[x].pc.Worked? || s.sessions[x].pc.Matched? || s.sessions[x].pc.Released?)
    && s.sessions[x].work == content
  }

  /** What the handler made of the session's copy, given whether SetAsProcessed came after it. */
  function WorkOf(session: Session, recorded: bool, isCompleted: bool, data: Option<Id>): Content {
    Content(isCompleted, session.found.processed + (if recorded then {session.context.messageId} else {}), data)
  }

  lemma WorkLeaves(s: State, x: Id, recorded: bool, isCompleted: bool, data: Option<Id>, s': State)
    requires Next(s, Work(x, recorded, isCompleted, data)) == Some(s')
    ensures x in s.sessions && x in s'.sessions && SameSession(s.sessions[x], s'.sessions[x])
    ensures Left(s', x, WorkOf(s.sessions[x], recorded, isCompleted, data))
  {
    hide ReadForLockStep, StampStep, WriteLockStep, ReadRivalStep, ReadForReleaseStep, WriteReleaseStep;
  }

  lemma ReleaseLeft(s: State, a: Action, s': State, content: Content)
    requires (a.ReadForRelease? || a.WriteRelease?) && Next(s, a) == Some(s') && Left(s, a.session, content)
    ensures Left(s', a.session, content)
  {
    hide ReadForLockStep, StampStep, WriteLockStep, ReadRivalStep, WorkStep, Persisted;
  }

  /** Before its handler a session does nothing else. */
  lemma EarlyStep(s: State, a: Action, content: Content)
    requires a.ReadForLock? || a.Stamp? || a.WriteLock? || a.ReadRival? || a.Work?
    requires Left(s, a.session, content)
    ensures Next(s, a) == None
  {
    hide ReadForReleaseStep, WriteReleaseStep, Persisted, Matches, RivalOf, Indexed, Granted;
  }

  lemma StepLeft(s: State, a: Action, s': State, x: Id, content: Content)
    requires Next(s, a) == Some(s') && Left(s, x, content)
    ensures Left(s', x, content)
  {
    if a.Tick? {
      TickIs(s, a, s');
    } else if a.session != x {
      OtherSession(s, a, s', x);
    } else if a.Open? {
      hide SessionStep;
    } else if a.ReadForRelease? || a.WriteRelease? {
      hide Next, Left;
      ReleaseLeft(s, a, s', content);
    } else {
      hide Next, Left;
      EarlyStep(s, a, content);
    }
  }

  lemma OtherSession(s: State, a: Action, s': State, x: Id)
    requires Next(s, a) == Some(s') && !a.Tick? && a.session != x && x in s.sessions
    ensures x in s'.sessions && s'.sessions[x] == s.sessions[x]
  {
    if a.Open? {
      hide SessionStep, HasKey, InUse;
    } else {
      hide Next;
      SqlHistory.SessionGoes(s, a, s');
    }
  }

  lemma {:induction false} LeftBetween(d: nat, run: seq<Action>, n: nat, m: nat, x: Id, content: Content)
    requires n <= m <= |run| && Exec(d, run).Some? && Left(After(d, run, n), x, content)
    ensures Left(After(d, run, m), x, content)
  {
    hide After, Exec, Inv, Next, Left;
    if n < m {
      LeftBetween(d, run, n, m - 1, x, content);
      StepAt(d, run, m - 1);
      StepLeft(After(d, run, m - 1), run[m - 1], After(d, run, m), x, content);
    }
  }

  /**
   In any run a release that commits persists what the session's handler left: its completion flag, the messages found
   and its own if it was recorded, and, for a saga with a state type, its state bytes.
   */
  lemma PersistsWork(d: nat, run: seq<Action>, n: nat, m: nat, x: Id, recorded: bool, isCompleted: bool,
                     data: Option<Id>)
    requires n < m < |run| && Exec(d, run).Some?
    requires run[n] == Work(x, recorded, isCompleted, data) && run[m] == WriteRelease(x)
    requires After(d, run, m + 1).log != After(d, run, m).log
    ensures x in After(d, run, n).sessions
    ensures var session, rows, rows' := After(d, run, n).sessions[x], After(d, run, m).rows, After(d, run, m + 1).rows;
            var i := session.instance;
            && i in rows && i in rows'
            && rows'[i].content.isCompleted == isCompleted
            && rows'[i].content.processed
               == session.found.processed + (if recorded then {session.context.messageId} else {})
            && rows'[i].content.data == (if session.key.sagaStateType.Some? then data else rows[i].content.data)
  {
    StepAt(d, run, n);
    hide Exec, Inv, Next, Left, WorkOf, After;
    var s := After(d, run, n);
    WorkLeaves(s, x, recorded, isCompleted, data, After(d, run, n + 1));
    LeftBetween(d, run, n + 1, m, x, WorkOf(s.sessions[x], recorded, isCompleted, data));
    LeftIs(s, x, recorded, isCompleted, data, After(d, run, m));
    RunPast(d, run, n, m);
    CommitWrites(d, run, m, x);
  }

  /** ReleasesOwnRow, in the middle of a run. */
  lemma CommitWrites(d: nat, run: seq<Action>, m: nat, x: Id)
    requires m < |run| && Exec(d, run).Some? && run[m] == WriteRelease(x)
    requires After(d, run, m + 1).log != After(d, run, m).log && x in After(d, run, m).sessions
    ensures var session, rows, rows' := After(d, run, m).sessions[x], After(d, run, m).rows, After(d, run, m + 1).rows;
            var i := session.instance;
            && i in rows && i in rows'
            && rows'[i].content.isCompleted == session.work.isCompleted
            && rows'[i].content.processed == session.work.processed
            && rows'[i].content.data
               == (if session.key.sagaStateType.Some? then session.work.data else rows[i].content.data)
  {
    StepAt(d, run, m);
    PrefixRuns(d, run, m);
    hide Inv, Next;
    assert After(d, run, m) == Exec(d, run[..m]).value;
    hide After, Exec;
    ReleasesOwnRow(d, run[..m], x);
  }

  lemma LeftIs(s: State, x: Id, recorded: bool, isCompleted: bool, data: Option<Id>, t: State)
    requires x in s.sessions && Left(t, x, WorkOf(s.sessions[x], recorded, isCompleted, data))
    ensures x in t.sessions && t.sessions[x].work.isCompleted == isCompleted && t.sessions[x].work.data == data
    ensures t.sessions[x].work.processed
            == s.sessions[x].found.processed + (if recorded then {s.sessions[x].context.messageId} else {})
  {
  }
}
