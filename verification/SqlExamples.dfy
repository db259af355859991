/**
 Concrete runs of the SQL repository: one loses a committed message, one commits a message twice, and one locks another
 instance's row.
 */
module SqlExamples {
  import opened Messages
  import opened SqlProtocol

  const SAGA := SagaDescriptor("Saga", None, {"Start"})
  const KEY := KeyOf(SAGA, "corr")

  function Message(m: Id): MessageContext {
    MessageContext(m, "corr", if m == 1 then "Start" else "Next")
  }

  lemma Step(run: seq<Action>, s: State, a: Action, s': State) returns (run': seq<Action>)
    requires Exec(60, run) == Some(s) && Next(s, a) == Some(s')
    ensures Exec(60, run') == Some(s')
  {
    run' := run + [a];
    assert run'[..|run|] == run;
  }

  /** An undisturbed session has locked row `i`. */
  function LockedBy(s: State, x: Id, l: Id): State
    requires x in s.sessions && s.sessions[x].instance in s.rows
  {
    Granted(s.(stamps := s.stamps[l := x]), x, s.sessions[x].instance, l, s.now)
  }

  predicate FreeRow(s: State, x: Id) {
    && x in s.sessions && s.sessions[x].pc.Opened? && s.sessions[x].instance in s.rows
    && s.rows[s.sessions[x].instance].key == s.sessions[x].key && s.rows[s.sessions[x].instance].lockId.None?
  }

  lemma LocksAlone(run: seq<Action>, s: State, x: Id, l: Id) returns (run': seq<Action>)
    requires Exec(60, run) == Some(s) && FreeRow(s, x) && l !in s.stamps
    ensures Exec(60, run') == Some(LockedBy(s, x, l))
  {
    hide Exec;
    var i := s.sessions[x].instance;
    var s1 := Move(s, x, Checked(Some(i), None));
    run' := Step(run, s, ReadForLock(x, Some(i)), s1);
    var s2 := Move(s1, x, Stamped(Some(i), None, l, s.now)).(stamps := s.stamps[l := x]);
    run' := Step(run', s1, Stamp(x, l), s2);
    var s3 := WriteLockStep(s2, x).value;
    assert s3.sessions == LockedBy(s, x, l).sessions;
    run' := Step(run', s2, WriteLock(x), s3);
  }

  /** Its handler has succeeded, and its release has committed. */
  function ReleasedBy(s: State, x: Id, l: Id): State
    requires x in s.sessions && s.sessions[x].instance in s.rows
  {
    var session := s.sessions[x];
    var row := s.rows[session.instance];
    var after := Content(false, session.found.processed + {session.context.messageId}, row.content.data);
    s.(sessions := s.sessions[x := session.(pc := Released(l), work := after.(data := None))],
       rows := s.rows[session.instance := Row(row.key, after, None, None, row.version + 1)],
       log := s.log + [Commit(session.instance, x, row.content, after)])
  }

  lemma ReleasesAlone(run: seq<Action>, s: State, x: Id, l: Id) returns (run': seq<Action>)
    requires Exec(60, run) == Some(s) && x in s.sessions && s.sessions[x].pc == Locked(l)
    requires var i := s.sessions[x].instance; i in s.rows && s.rows[i].lockId == Some(l) && s.sessions[x].key == KEY
    ensures Exec(60, run') == Some(ReleasedBy(s, x, l))
  {
    hide Exec;
    var session := s.sessions[x];
    var s1 := WorkStep(s, x, true, false, None).value;
    run' := Step(run, s, Work(x, true, false, None), s1);
    var s2 := Move(s1, x, Matched(l));
    run' := Step(run', s1, ReadForRelease(x), s2);
    var s3 := WriteReleaseStep(s2, x).value;
    assert s3.sessions == ReleasedBy(s, x, l).sessions;
    run' := Step(run', s2, WriteRelease(x), s3);
  }

  /** FindAsync loaded row 1. */
  function OpenedOn(s: State, x: Id, m: Id): State
    requires 1 in s.rows
  {
    var row := s.rows[1];
    s.(sessions := s.sessions[x := Session(Message(m), KEY, 1, row.content, row.content, row.version, Opened)])
  }

  lemma OpensAlone(run: seq<Action>, s: State, x: Id, m: Id) returns (run': seq<Action>)
    requires Exec(60, run) == Some(s) && x !in s.sessions && 1 in s.rows && s.rows[1].key == KEY
    requires !s.rows[1].content.isCompleted && m !in s.rows[1].content.processed
    ensures Exec(60, run') == Some(OpenedOn(s, x, m))
  {
    hide Exec;
    run' := Step(run, s, Open(x, Message(m), SAGA, 1), OpenedOn(s, x, m));
  }

  /** An initiator's session `x` has inserted the row of its instance and locked it. */
  function CreatedBy(s: State, x: Id, l: Id): State
    requires x in s.sessions
  {
    var i := s.sessions[x].instance;
    LockedBy(s.(rows := s.rows[i := Row(s.sessions[x].key, NEW_CONTENT, None, None, 0)]), x, l)
  }

  lemma Creates(run: seq<Action>, s: State, x: Id, l: Id) returns (run': seq<Action>)
    requires Exec(60, run) == Some(s) && x in s.sessions && s.sessions[x].pc.Opened? && s.rows == map[]
    requires l !in s.stamps
    ensures Exec(60, run') == Some(CreatedBy(s, x, l))
  {
    hide Exec;
    var s2 := Move(s, x, Checked(None, None));
    run' := Step(run, s, ReadForLock(x, None), s2);
    var s3 := StampStep(s2, x, l).value;
    run' := Step(run', s2, Stamp(x, l), s3);
    var s4 := WriteLockStep(s3, x).value;
    run' := Step(run', s3, WriteLock(x), s4);
    assert s4.sessions == CreatedBy(s, x, l).sessions;
  }

  /** FindAsync found nothing, and the factory created instance `i`. */
  function Fresh(s: State, x: Id, i: Id): State {
    s.(sessions := s.sessions[x := Session(Message(1), KEY, i, NEW_CONTENT, NEW_CONTENT, 0, Opened)])
  }

  lemma OpensFresh(run: seq<Action>, s: State, x: Id, i: Id) returns (run': seq<Action>)
    requires Exec(60, run) == Some(s) && x !in s.sessions && s.rows == map[] && !InUse(s, i)
    ensures Exec(60, run') == Some(Fresh(s, x, i))
  {
    hide Exec;
    run' := Step(run, s, Open(x, Message(1), SAGA, i), Fresh(s, x, i));
  }

  /** The row an initiator inserted and locked. */
  function Created(): State {
    CreatedBy(Fresh(Initial(60), 0, 1), 0, 100)
  }

  lemma CreatesFirst() returns (run: seq<Action>)
    ensures Exec(60, run) == Some(Created())
  {
    assert Exec(60, []) == Some(Initial(60));
    hide Exec;
    run := OpensFresh([], Initial(60), 0, 1);
    run := Creates(run, Fresh(Initial(60), 0, 1), 0, 100);
  }

  lemma DeliversAlone(run: seq<Action>, s: State, x: Id, l: Id) returns (run': seq<Action>)
    requires Exec(60, run) == Some(s) && FreeRow(s, x) && s.sessions[x].key == KEY && l !in s.stamps
    ensures Exec(60, run') == Some(ReleasedBy(LockedBy(s, x, l), x, l))
  {
    hide Exec, ReleasedBy;
    run' := LocksAlone(run, s, x, l);
    run' := ReleasesAlone(run', LockedBy(s, x, l), x, l);
  }

  /** Sessions 1 and 2 loaded the row that session 0 left, and session 2 committed message 3. */
  function Overtaken(): State {
    var s := OpenedOn(OpenedOn(ReleasedBy(Created(), 0, 100), 1, 2), 2, 3);
    ReleasedBy(LockedBy(s, 2, 102), 2, 102)
  }

  lemma Overtakes() returns (run: seq<Action>)
    ensures Exec(60, run) == Some(Overtaken())
  {
    run := CreatesFirst();
    hide Exec;
    run := ReleasesAlone(run, Created(), 0, 100);
    var s := ReleasedBy(Created(), 0, 100);
    run := OpensAlone(run, s, 1, 2);
    run := OpensAlone(run, OpenedOn(s, 1, 2), 2, 3);
    run := DeliversAlone(run, OpenedOn(OpenedOn(s, 1, 2), 2, 3), 2, 102);
  }

  /** Then session 1 locks the row and writes its stale copy back. */
  function WrittenBack(): State {
    ReleasedBy(LockedBy(Overtaken(), 1, 101), 1, 101)
  }

  lemma WritesBack() returns (run: seq<Action>)
    ensures Exec(60, run) == Some(WrittenBack())
  {
    run := Overtakes();
    hide Exec;
    run := DeliversAlone(run, Overtaken(), 1, 101);
  }

  /**
   A lost update: session 1 loads the row, session 2 commits message 3 on it, then session 1 locks the row and writes
   its stale copy back. Message 3 is no longer recorded, and its redelivery (session 3) will be processed again.
   */
  lemma LostUpdate() returns (run: seq<Action>)
    ensures Exec(60, run).Some?
    ensures var s := Exec(60, run).value;
            && 1 in s.rows && s.rows[1].content.processed == {1, 2} && |s.log| == 3 && 3 in s.log[1].after.processed
            && s.log[1].row == 1 && 3 in s.sessions && s.sessions[3].context.messageId == 3
            && s.sessions[3].pc == Opened
  {
    run := WritesBack();
    hide Exec;
    run := OpensAlone(run, WrittenBack(), 3, 3);
  }

  // ----- A message committed twice -----

  /** Two deliveries of message 2 have loaded the row that session 0 left, and session 1 committed the message. */
  function CommittedOnce(): State {
    var s := OpenedOn(OpenedOn(ReleasedBy(Created(), 0, 100), 1, 2), 2, 2);
    ReleasedBy(LockedBy(s, 1, 101), 1, 101)
  }

  lemma CommitsOnce() returns (run: seq<Action>)
    ensures Exec(60, run) == Some(CommittedOnce())
  {
    run := CreatesFirst();
    hide Exec;
    run := ReleasesAlone(run, Created(), 0, 100);
    var s := ReleasedBy(Created(), 0, 100);
    run := OpensAlone(run, s, 1, 2);
    run := OpensAlone(run, OpenedOn(s, 1, 2), 2, 2);
    run := DeliversAlone(run, OpenedOn(OpenedOn(s, 1, 2), 2, 2), 1, 101);
  }

  /** Two deliveries of one message find the row, then lock it one after the other; both process and commit it. */
  lemma CommitsTwice() returns (run: seq<Action>)
    ensures Exec(60, run).Some?
    ensures var s := Exec(60, run).value;
            && |s.log| == 3 && s.log[1].row == 1 && s.log[2].row == 1 && s.log[1].session == 1 && s.log[2].session == 2
            && 1 in s.sessions && s.sessions[1].context.messageId == 2 && 2 in s.log[1].after.processed
            && 2 in s.sessions && s.sessions[2].context.messageId == 2 && 2 in s.log[2].after.processed
  {
    run := CommitsOnce();
    hide Exec;
    run := DeliversAlone(run, CommittedOnce(), 2, 102);
  }

  // ----- A foreign lock -----

  /** Two initiators found nothing; the one of instance 1 inserted, locked and released its row. */
  function Rivals(): State {
    ReleasedBy(CreatedBy(Fresh(Fresh(Initial(60), 9, 2), 0, 1), 0, 100), 0, 100)
  }

  lemma Races() returns (run: seq<Action>)
    ensures Exec(60, run) == Some(Rivals())
  {
    assert Exec(60, []) == Some(Initial(60));
    hide Exec;
    run := OpensFresh([], Initial(60), 9, 2);
    run := OpensFresh(run, Fresh(Initial(60), 9, 2), 0, 1);
    var s := Fresh(Fresh(Initial(60), 9, 2), 0, 1);
    run := Creates(run, s, 0, 100);
    run := ReleasesAlone(run, CreatedBy(s, 0, 100), 0, 100);
  }

  /** The other initiator's lock query matches the row of instance 1 by correlation id. */
  function LockedForeign(s: State, x: Id, l: Id): State
    requires x in s.sessions && 1 in s.rows
  {
    Granted(s.(stamps := s.stamps[l := x]), x, 1, l, s.now)
  }

  lemma LocksForeign(run: seq<Action>, s: State, x: Id, l: Id) returns (run': seq<Action>)
    requires Exec(60, run) == Some(s) && x in s.sessions && s.sessions[x].pc.Opened? && s.sessions[x].key == KEY
    requires 1 in s.rows && s.rows[1].key == KEY && s.rows[1].lockId.None? && l !in s.stamps
    ensures Exec(60, run') == Some(LockedForeign(s, x, l))
  {
    hide Exec;
    var s1 := Move(s, x, Checked(Some(1), None));
    run' := Step(run, s, ReadForLock(x, Some(1)), s1);
    var s2 := Move(s1, x, Stamped(Some(1), None, l, s.now)).(stamps := s.stamps[l := x]);
    run' := Step(run', s1, Stamp(x, l), s2);
    var s3 := WriteLockStep(s2, x).value;
    assert s3.sessions == LockedForeign(s, x, l).sessions;
    run' := Step(run', s2, WriteLock(x), s3);
  }

  /** It holds row 1, has done its work and read for its release, which throws; and the row refuses the next session. */
  lemma ForeignLock() returns (run: seq<Action>)
    ensures Exec(60, run).Some?
    ensures var s := Exec(60, run).value;
            && 9 in s.sessions && s.sessions[9].pc == Worked(109) && s.sessions[9].instance == 2 && 2 !in s.rows
            && 1 in s.rows && s.rows[1].lockId == Some(109) && |s.log| == 1
            && 1 in s.sessions && s.sessions[1].pc == Refused(LockException)
  {
    run := Races();
    hide Exec;
    var s := Rivals();
    run := LocksForeign(run, s, 9, 109);
    s := LockedForeign(s, 9, 109);
    run := ForeignWorks(run, s);
  }

  lemma ForeignWorks(run: seq<Action>, s: State) returns (run': seq<Action>)
    requires Exec(60, run) == Some(s) && s == LockedForeign(Rivals(), 9, 109)
    ensures Exec(60, run').Some?
    ensures var s' := Exec(60, run').value;
            && 9 in s'.sessions && s'.sessions[9].pc == Worked(109) && s'.sessions[9].instance == 2
            && s'.rows == s.rows && s'.log == s.log
            && 1 in s'.sessions && s'.sessions[1].pc == Refused(LockException)
  {
    hide Exec;
    var s1 := WorkStep(s, 9, true, false, None).value;
    run' := Step(run, s, Work(9, true, false, None), s1);
    run' := Step(run', s1, ReadForRelease(9), s1);
    run' := OpensAlone(run', s1, 1, 2);
    var s2 := OpenedOn(s1, 1, 2);
    run' := Step(run', s2, ReadForLock(1, Some(1)), Move(s2, 1, Refused(LockException)));
  }
}
