/**
 Serial history of SQL saga rows: when no release commits on a row between a session's Find
 and its Lock, the committed releases form a chain and no committed message is lost; without
 that, a release loses messages exactly when the private copy lacks what the lock found.
 */
module SqlHistory {
  import opened Messages
  import opened SqlProtocol
  import opened SqlInvariant
  import opened SqlTheorems

  /** No release has committed on the session's row between its Find and this lock. */
  predicate SerialLock(s: State, l: Id)
    requires l in s.locks
  {
    var x := s.locks[l].session;
    x in s.sessions && (s.locks[l].row == s.sessions[x].instance ==> s.locks[l].version == s.sessions[x].basis)
  }

  ghost predicate Serial(s: State) {
    forall l | l in s.locks :: SerialLock(s, l)
  }

  /** Commit `k` was computed from its predecessor on the row, and added at most the session's own message. */
  ghost predicate Chained(s: State, k: nat)
    requires k < |s.log|
  {
    var c := s.log[k];
    && c.session in s.sessions && c.row == s.sessions[c.session].instance
    && c.before == s.sessions[c.session].found && c.before == LastContent(s.log[..k], c.row)
    && Grew(c.before.processed, c.after.processed, s.sessions[c.session].context.messageId)
  }

  lemma SerialBefore(s: State, s': State)
    requires Inv(s) && LocksPast(s, s') && Serial(s')
    ensures Serial(s)
  {
    forall l | l in s.locks
      ensures SerialLock(s, l)
    {
      assert LockOk(s, l) && SerialLock(s', l);
    }
  }

  lemma SerialIs(s: State, l: Id)
    requires Serial(s) && l in s.locks
    ensures SerialLock(s, l)
  {
  }

  /** The release of a serial lock starts from what the session loaded. */
  lemma SerialRelease(s: State, x: Id, s': State)
    requires Inv(s) && Serial(s) && x in s.sessions && WriteReleaseStep(s, x) == Some(s') && s'.log != s.log
    ensures |s'.log| == |s.log| + 1 && s'.log[..|s.log|] == s.log && Chained(s', |s.log|)
  {
    var session := s.sessions[x];
    var i, l := session.instance, session.pc.lockId;
    hide Serial, LastContent;
    EverySession(s, x);
    EveryRow(s, i);
    LogFollows(s);
    hide Inv, Follows;
    SerialIs(s, l);
    assert s'.log[..|s.log|] == s.log;
  }

  lemma ChainStays(s: State, s': State, k: nat)
    requires k < |s.log| && Chained(s, k) && LocksPast(s, s')
    ensures k < |s'.log| && Chained(s', k)
  {
    hide LastContent;
    assert s'.log[k] == s.log[k] && s'.log[..k] == s.log[..k];
  }

  lemma StepChains(s: State, a: Action, s': State)
    requires Inv(s) && Next(s, a) == Some(s') && Serial(s)
    requires forall k: nat | k < |s.log| :: Chained(s, k)
    ensures forall k: nat | k < |s'.log| :: Chained(s', k)
  {
    hide Inv, Next, Chained, WriteReleaseStep, Serial;
    StepPast(s, a, s');
    forall k: nat | k < |s.log|
      ensures Chained(s', k)
    {
      ChainStays(s, s', k);
    }
    if s'.log != s.log {
      LogGrows(s, a, s');
      SerialRelease(s, a.session, s');
    }
  }

  lemma LogGrows(s: State, a: Action, s': State)
    requires Inv(s) && Next(s, a) == Some(s') && s'.log != s.log
    ensures a.WriteRelease? && a.session in s.sessions && WriteReleaseStep(s, a.session) == Some(s')
  {
    hide Inv, WriteReleaseStep;
    if !a.WriteLock? && !a.WriteRelease? {
      QuietPast(s, a, s');
    }
  }

  /** Over every serial run, each committed release continues the one before it on its row. */
  lemma {:induction false} SerialHistory(d: nat, run: seq<Action>)
    requires Exec(d, run).Some? && Serial(Exec(d, run).value)
    ensures forall k: nat | k < |Exec(d, run).value.log| :: Chained(Exec(d, run).value, k)
    decreases |run|
  {
    if run != [] {
      var before := run[..|run| - 1];
      var s, s' := Exec(d, before).value, Exec(d, run).value;
      RunsKeep(d, before);
      hide Chained, Serial, Inv, Next;
      StepPast(s, run[|run| - 1], s');
      SerialBefore(s, s');
      SerialHistory(d, before);
      StepChains(s, run[|run| - 1], s');
    }
  }

  /** A chain only ever adds messages. */
  lemma {:induction false} ChainGrows(log: seq<Commit>, k: nat)
    requires k < |log|
    requires forall j: nat | k < j < |log| ::
               log[j].before == LastContent(log[..j], log[j].row) && log[j].before.processed <= log[j].after.processed
    ensures log[k].after.processed <= LastContent(log, log[k].row).processed
    decreases |log|
  {
    if k < |log| - 1 {
      var before := log[..|log| - 1];
      forall j: nat | k < j < |before|
        ensures before[j].before == LastContent(before[..j], before[j].row)
      {
        assert before[..j] == log[..j];
      }
      ChainGrows(before, k);
    }
  }

  /** No committed message is lost: whatever a release persisted is still in its row at the end of every serial run. */
  lemma NoCommittedMessageLost(d: nat, run: seq<Action>, k: nat)
    requires Exec(d, run).Some? && Serial(Exec(d, run).value) && k < |Exec(d, run).value.log|
    ensures var s := Exec(d, run).value;
            s.log[k].row in s.rows && s.log[k].after.processed <= s.rows[s.log[k].row].content.processed
  {
    SerialHistory(d, run);
    RunsKeep(d, run);
    var s := Exec(d, run).value;
    forall j: nat | k < j < |s.log|
      ensures s.log[j].before == LastContent(s.log[..j], s.log[j].row)
      ensures s.log[j].before.processed <= s.log[j].after.processed
    {
      assert Chained(s, j);
    }
    ChainGrows(s.log, k);
  }

  /** A session skips exactly when what it found was completed, or had its message among the processed ones. */
  predicate Eligible(session: Session) {
    session.pc.Skipped? <==> session.found.isCompleted || session.context.messageId in session.found.processed
  }

  predicate EligibleOrNone(s: State, x: Id) {
    x in s.sessions ==> Eligible(s.sessions[x])
  }

  /** A session that has nothing more to do. */
  predicate IsFinal(pc: Pc) {
    pc.Skipped? || pc.Released? || pc.Refused?
  }

  /** A step of a session: it was not through, it keeps what it loaded, and no other session changes. */
  ghost predicate Goes(s: State, s': State, x: Id) {
    && x in s.sessions && x in s'.sessions && s'.sessions == s.sessions[x := s'.sessions[x]]
    && !IsFinal(s.sessions[x].pc) && !s'.sessions[x].pc.Skipped? && SameSession(s.sessions[x], s'.sessions[x])
  }

  lemma LockGoes(s: State, a: Action, s': State)
    requires (a.ReadForLock? || a.Stamp?) && Next(s, a) == Some(s')
    ensures Goes(s, s', a.session)
  {
    hide WriteLockStep, ReadRivalStep, WorkStep, ReadForReleaseStep, WriteReleaseStep, IsLocked, Matches;
  }

  lemma WriteGoes(s: State, x: Id, s': State)
    requires x in s.sessions && WriteLockStep(s, x) == Some(s')
    ensures Goes(s, s', x)
  {
    hide Indexed;
    if s'.sessions[x].pc.Locked? {
      assert s'.sessions[x] == s.sessions[x].(pc := s'.sessions[x].pc);
    }
  }

  lemma RivalGoes(s: State, x: Id, s': State)
    requires x in s.sessions && ReadRivalStep(s, x) == Some(s')
    ensures Goes(s, s', x)
  {
    hide RivalOf;
  }

  lemma WorkGoes(s: State, a: Action, s': State)
    requires (a.Work? || a.ReadForRelease? || a.WriteRelease?) && Next(s, a) == Some(s')
    ensures Goes(s, s', a.session)
  {
    hide ReadForLockStep, StampStep, WriteLockStep, ReadRivalStep, Persisted;
  }

  lemma SessionGoes(s: State, a: Action, s': State)
    requires !a.Tick? && !a.Open? && Next(s, a) == Some(s')
    ensures Goes(s, s', a.session)
  {
    hide Goes, ReadForLockStep, StampStep, WriteLockStep, ReadRivalStep, WorkStep, ReadForReleaseStep, WriteReleaseStep;
    if a.ReadForLock? || a.Stamp? {
      LockGoes(s, a, s');
    } else if a.WriteLock? {
      WriteGoes(s, a.session, s');
    } else if a.ReadRival? {
      RivalGoes(s, a.session, s');
    } else {
      WorkGoes(s, a, s');
    }
  }

  lemma OpenEligible(s: State, a: Action, s': State, x: Id)
    requires a.Open? && Next(s, a) == Some(s') && EligibleOrNone(s, x)
    ensures EligibleOrNone(s', x)
  {
    hide SessionStep, InUse, HasKey;
  }

  lemma StepEligible(s: State, a: Action, s': State, x: Id)
    requires Next(s, a) == Some(s') && EligibleOrNone(s, x)
    ensures EligibleOrNone(s', x)
  {
    hide SessionStep, OpenStep;
    if a.Open? {
      OpenEligible(s, a, s', x);
    } else if !a.Tick? {
      SessionGoes(s, a, s');
    }
  }

  lemma {:induction false} RunEligible(d: nat, run: seq<Action>, x: Id)
    requires Exec(d, run).Some?
    ensures EligibleOrNone(Exec(d, run).value, x)
  {
    if run != [] {
      RunEligible(d, run[..|run| - 1], x);
      hide Next, EligibleOrNone;
      StepEligible(Exec(d, run[..|run| - 1]).value, run[|run| - 1], Exec(d, run).value, x);
    }
  }

  /** In any run a delivery is skipped exactly when what it found was completed, or had recorded its message. */
  lemma SkipsIff(d: nat, run: seq<Action>, x: Id)
    requires Exec(d, run).Some? && x in Exec(d, run).value.sessions
    ensures var session := Exec(d, run).value.sessions[x];
            session.pc.Skipped? <==> session.found.isCompleted || session.context.messageId in session.found.processed
  {
    RunEligible(d, run, x);
    hide Exec;
  }

  /** A session that has committed is past every check. */
  predicate Released(s: State, x: Id) {
    x in s.sessions && s.sessions[x].pc.Released?
  }

  lemma StepReleased(s: State, a: Action, s': State, x: Id)
    requires Next(s, a) == Some(s') && Released(s, x)
    ensures Released(s', x)
  {
    hide SessionStep;
    if !a.Open? && !a.Tick? {
      hide Next;
      SessionGoes(s, a, s');
    }
  }

  lemma LogReleased(s: State, a: Action, s': State, k: nat)
    requires Inv(s) && Next(s, a) == Some(s') && k < |s'.log| && (k < |s.log| ==> Released(s, s.log[k].session))
    ensures Released(s', s'.log[k].session)
  {
    hide Inv, Next;
    if k < |s.log| {
      hide Released;
      StepPast(s, a, s');
      StepReleased(s, a, s', s.log[k].session);
    } else {
      LogGrows(s, a, s');
    }
  }

  lemma {:induction false} RunReleased(d: nat, run: seq<Action>, k: nat)
    requires Exec(d, run).Some? && k < |Exec(d, run).value.log|
    ensures Released(Exec(d, run).value, Exec(d, run).value.log[k].session)
  {
    if run != [] {
      var before := run[..|run| - 1];
      var s, s' := Exec(d, before).value, Exec(d, run).value;
      RunsKeep(d, before);
      if k < |s.log| {
        RunReleased(d, before, k);
      }
      hide Inv, Next, Exec;
      LogReleased(s, run[|run| - 1], s', k);
    }
  }

  /** At most once: in a serial run no session commits a message that an earlier commit on its row had recorded. */
  lemma SerialAtMostOnce(d: nat, run: seq<Action>, j: nat, k: nat)
    requires Exec(d, run).Some? && Serial(Exec(d, run).value)
    requires j < k < |Exec(d, run).value.log| && Exec(d, run).value.log[j].row == Exec(d, run).value.log[k].row
    ensures var s := Exec(d, run).value;
            s.log[k].session in s.sessions
              && s.sessions[s.log[k].session].context.messageId !in s.log[j].after.processed
  {
    var s := Exec(d, run).value;
    SerialHistory(d, run);
    RunReleased(d, run, k);
    RunEligible(d, run, s.log[k].session);
    assert Chained(s, k);
    hide Exec;
    forall i: nat | j < i < k
      ensures s.log[..k][i].before == LastContent(s.log[..k][..i], s.log[..k][i].row)
              && s.log[..k][i].before.processed <= s.log[..k][i].after.processed
    {
      assert Chained(s, i) && s.log[..k][..i] == s.log[..i];
    }
    ChainGrows(s.log[..k], j);
  }

  /** What a row holds is what its last commit left, if any. */
  lemma {:induction false} LastCommit(log: seq<Commit>, r: Id)
    ensures LastContent(log, r) == NEW_CONTENT
            || exists k: nat :: k < |log| && log[k].row == r && log[k].after == LastContent(log, r)
  {
    if log != [] && log[|log| - 1].row != r {
      LastCommit(log[..|log| - 1], r);
    }
  }

  /** The persisted set of processed messages only grows in a serial run. */
  lemma ProcessedOnlyGrows(d: nat, run: seq<Action>, n: nat, r: Id)
    requires n <= |run| && Exec(d, run).Some? && Serial(Exec(d, run).value) && r in After(d, run, n).rows
    ensures var s, s' := After(d, run, n), Exec(d, run).value;
            r in s'.rows && s.rows[r].content.processed <= s'.rows[r].content.processed
  {
    var s, s' := After(d, run, n), Exec(d, run).value;
    RunPast(d, run, n, |run|);
    AfterAll(d, run);
    PrefixRuns(d, run, n);
    RunsKeep(d, run[..n]);
    assert s.rows[r].content == LastContent(s.log, r);
    LastCommit(s.log, r);
    hide Inv, Serial, Exec;
    if s.rows[r].content != NEW_CONTENT {
      var k: nat :| k < |s.log| && s.log[k].row == r && s.log[k].after == LastContent(s.log, r);
      assert s'.log[k] == s.log[k];
      NoCommittedMessageLost(d, run, k);
    }
  }

  /**
   Serial or not: the release keeps every persisted message exactly when the session's set covers what the row held at
   the lock.
   */
  lemma KeepsMessagesIff(d: nat, run: seq<Action>, x: Id)
    requires Exec(d, run).Some? && x in Exec(d, run).value.sessions
    requires var s := Exec(d, run).value; Next(s, WriteRelease(x)).Some? && Next(s, WriteRelease(x)).value.log != s.log
    ensures var s := Exec(d, run).value;
            var s' := Next(s, WriteRelease(x)).value;
            var i, l := s.sessions[x].instance, s.sessions[x].pc.lockId;
            && i in s.rows && i in s'.rows && l in s.locks
            && (s.rows[i].content.processed <= s'.rows[i].content.processed
                <==> s.locks[l].content.processed <= s.sessions[x].work.processed)
  {
    ReleasesOwnRow(d, run, x);
  }

  // ----- Which commits repeat a message -----

  /** An earlier release on the row had recorded the message. */
  ghost predicate RecordedBefore(log: seq<Commit>, r: Id, m: Id) {
    exists j :: 0 <= j < |log| && log[j].row == r && m in log[j].after.processed
  }

  /** An earlier release on the row took the message out again. */
  ghost predicate Dropped(log: seq<Commit>, r: Id, m: Id) {
    exists j :: 0 <= j < |log| && log[j].row == r && m in log[j].before.processed && m !in log[j].after.processed
  }

  /** The commits of each row continue one another. */
  ghost predicate Follows(log: seq<Commit>) {
    forall j | 0 <= j < |log| :: log[j].before == LastContent(log[..j], log[j].row)
  }

  /** A recorded message is in the row's last content, or was taken out by some release. */
  lemma {:induction false} RecordedIff(log: seq<Commit>, r: Id, m: Id)
    requires Follows(log)
    ensures RecordedBefore(log, r, m) <==> m in LastContent(log, r).processed || Dropped(log, r, m)
  {
    if log != [] {
      var n := |log| - 1;
      var before, c := log[..n], log[n];
      forall j | 0 <= j < n
        ensures before[j].before == LastContent(before[..j], before[j].row)
      {
        assert before[..j] == log[..j];
      }
      RecordedIff(before, r, m);
      assert c.before == LastContent(before, c.row);
      OneMoreRecorded(log, r, m);
    }
  }

  lemma OneMoreRecorded(log: seq<Commit>, r: Id, m: Id)
    requires log != []
    ensures var before, c := log[..|log| - 1], log[|log| - 1];
            && (RecordedBefore(log, r, m) <==>
                  RecordedBefore(before, r, m) || (c.row == r && m in c.after.processed))
            && (Dropped(log, r, m) <==>
                  Dropped(before, r, m) || (c.row == r && m in c.before.processed && m !in c.after.processed))
  {
    var before := log[..|log| - 1];
    forall j | 0 <= j < |before|
      ensures log[j] == before[j]
    {
    }
  }

  lemma LogFollows(s: State)
    requires Inv(s)
    ensures Follows(s.log) && forall r | r in s.rows :: s.rows[r].content == LastContent(s.log, r)
  {
    hide TableOk, SpacedOk, SessionsOk, KeysOk, LastContent;
  }

  /**
   In any run, serial or not: a release that commits finds its message recorded by an earlier release of the row if and
   only if the row held it when this session locked it, so that a re-check of the locked row would have refused the
   message, or an earlier release had dropped it.
   */
  lemma RepeatsIff(d: nat, run: seq<Action>, x: Id)
    requires Exec(d, run).Some? && x in Exec(d, run).value.sessions
    requires var s := Exec(d, run).value; Next(s, WriteRelease(x)).Some? && Next(s, WriteRelease(x)).value.log != s.log
    ensures var s := Exec(d, run).value;
            var i, l, m := s.sessions[x].instance, s.sessions[x].pc.lockId, s.sessions[x].context.messageId;
            && l in s.locks
            && (RecordedBefore(s.log, i, m) <==> m in s.locks[l].content.processed || Dropped(s.log, i, m))
  {
    var s := Exec(d, run).value;
    ReleasesOwnRow(d, run, x);
    RunsKeep(d, run);
    LogFollows(s);
    hide Exec, Inv, Next, Follows, LastContent, RecordedBefore, Dropped;
    RecordedIff(s.log, s.sessions[x].instance, s.sessions[x].context.messageId);
  }
}
