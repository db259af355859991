/**
 Locks on another instance's row. The lock query also matches by correlation id, so a session
 whose own instance never got a row can lock its rival's: it never commits, and the row stays
 locked until the lock has expired and another session takes it over.
 */
module SqlForeignLocks {
  import opened Messages
  import opened SqlProtocol
  import opened SqlInvariant
  import opened SqlTheorems
  import opened SqlHistory

  /** The lock was written for a session of another instance than the row's. */
  predicate IsForeign(s: State, l: Id) {
    && l in s.locks && s.locks[l].session in s.sessions
    && s.locks[l].row != s.sessions[s.locks[l].session].instance
  }

  /** A session has one lock at most; with a foreign one it never finds its lock in its own row. */
  predicate OneLock(s: State, l: Id) {
    l in s.locks ==>
      && s.locks[l].session in s.sessions
      && var pc := s.sessions[s.locks[l].session].pc;
      && (pc.Locked? || pc.Worked? || pc.Matched? || pc.Released?) && pc.lockId == l
      && (IsForeign(s, l) ==> pc.Locked? || pc.Worked?)
  }

  lemma GrantOne(s: State, x: Id, r: Id, k: Id, t: Time, l: Id)
    requires x in s.sessions && r in s.rows && k !in s.locks && OneLock(s, l) && s.sessions[x].pc.Stamped?
    ensures OneLock(Granted(s, x, r, k, t), l)
  {
  }

  lemma WriteLockOne(s: State, x: Id, s': State, l: Id)
    requires x in s.sessions && SessionOk(s, x, s.sessions[x]) && WriteLockStep(s, x) == Some(s') && OneLock(s, l)
    ensures OneLock(s', l)
  {
    var pc := s.sessions[x].pc;
    if s'.sessions[x].pc.Refused? || s'.sessions[x].pc.Clashed? {
      assert s' == Move(s, x, s'.sessions[x].pc);
    } else if pc.target.None? {
      assert OneLock(Inserted(s, x), l);
      hide OneLock;
      GrantOne(Inserted(s, x), x, s.sessions[x].instance, pc.lockId, pc.time, l);
    } else {
      hide OneLock;
      GrantOne(s, x, pc.target.value, pc.lockId, pc.time, l);
    }
  }

  lemma WorkOne(s: State, x: Id, recorded: bool, isCompleted: bool, data: Option<Id>, s': State, l: Id)
    requires x in s.sessions && WorkStep(s, x, recorded, isCompleted, data) == Some(s') && OneLock(s, l)
    ensures OneLock(s', l)
  {
  }

  lemma ReadOne(s: State, x: Id, s': State, l: Id)
    requires x in s.sessions && ReadForReleaseStep(s, x) == Some(s') && OneLock(s, l)
    requires s.sessions[x].instance in s.rows ==> RowOk(s, s.sessions[x].instance)
    ensures OneLock(s', l)
  {
  }

  lemma WriteOne(s: State, x: Id, s': State, l: Id)
    requires x in s.sessions && WriteReleaseStep(s, x) == Some(s') && OneLock(s, l)
    ensures OneLock(s', l)
  {
    var pc := s'.sessions[x].pc;
    assert s'.locks == s.locks && s'.sessions == s.sessions[x := s.sessions[x].(pc := pc)];
    hide WriteReleaseStep;
  }

  lemma ReleaseOne(s: State, a: Action, s': State, l: Id)
    requires a.ReadForRelease? || a.WriteRelease? || a.Work?
    requires Inv(s) && a.session in s.sessions && SessionStep(s, a) == Some(s') && OneLock(s, l)
    ensures OneLock(s', l)
  {
    var i := s.sessions[a.session].instance;
    assert i in s.rows ==> RowOk(s, i);
    hide Inv, WriteLockStep, ReadForLockStep, StampStep, ReadRivalStep, WorkStep, ReadForReleaseStep, WriteReleaseStep,
      OneLock, RowOk;
    if a.Work? {
      WorkOne(s, a.session, a.recorded, a.isCompleted, a.data, s', l);
    } else if a.ReadForRelease? {
      ReadOne(s, a.session, s', l);
    } else {
      WriteOne(s, a.session, s', l);
    }
  }

  lemma EarlyOne(s: State, a: Action, s': State, l: Id)
    requires Next(s, a) == Some(s') && OneLock(s, l) && !a.WriteLock? && !a.ReadForRelease? && !a.WriteRelease?
    requires !a.Work?
    ensures OneLock(s', l)
  {
    hide WriteLockStep, ReadForReleaseStep, WriteReleaseStep, WorkStep, RivalOf, HasKey, InUse;
  }

  lemma StepOne(s: State, a: Action, s': State, l: Id)
    requires Inv(s) && Next(s, a) == Some(s') && OneLock(s, l)
    ensures OneLock(s', l)
  {
    if a.WriteLock? {
      assert SessionOk(s, a.session, s.sessions[a.session]);
      hide Inv, SessionOk, WriteLockStep, OneLock;
      WriteLockOne(s, a.session, s', l);
    } else if a.ReadForRelease? || a.WriteRelease? || a.Work? {
      hide Inv, OneLock, ReadForReleaseStep, WriteReleaseStep, WorkStep;
      ReleaseOne(s, a, s', l);
    } else {
      hide Inv, OneLock, Next;
      EarlyOne(s, a, s', l);
    }
  }

  lemma {:induction false} RunsOne(d: nat, run: seq<Action>, l: Id)
    requires Exec(d, run).Some?
    ensures OneLock(Exec(d, run).value, l)
  {
    if run != [] {
      var before := run[..|run| - 1];
      RunsOne(d, before, l);
      RunsKeep(d, before);
      hide Inv, Next, OneLock;
      StepOne(Exec(d, before).value, run[|run| - 1], Exec(d, run).value, l);
    }
  }

  /** A session that locked another instance's row never commits a release. */
  lemma ForeignNeverCommits(d: nat, run: seq<Action>, l: Id, k: nat)
    requires Exec(d, run).Some? && IsForeign(Exec(d, run).value, l) && k < |Exec(d, run).value.log|
    ensures Exec(d, run).value.log[k].session != Exec(d, run).value.locks[l].session
  {
    RunsOne(d, run, l);
    RunReleased(d, run, k);
  }

  // ----- The row stays locked -----

  /** The row's lock was taken over after it had expired. */
  ghost predicate TakenOver(s: State, l: Id)
    requires l in s.locks
  {
    exists k :: k in s.locks && s.locks[k].row == s.locks[l].row
      && s.locks[l].time + s.lockMaxDuration <= s.locks[k].time
  }

  lemma LockTakesOver(s: State, x: Id, s': State, l: Id)
    requires x in s.sessions && SessionOk(s, x, s.sessions[x]) && WriteLockStep(s, x) == Some(s') && Holds(s, l)
    ensures l in s'.locks && s'.locks[l] == s.locks[l] && s'.lockMaxDuration == s.lockMaxDuration
    ensures Holds(s', l) || TakenOver(s', l)
  {
    var pc := s.sessions[x].pc;
    if s'.sessions[x].pc.Locked? {
      var k := pc.lockId;
      assert k in s'.locks && k != l;
      if !Holds(s', l) {
        assert pc.target == Some(s.locks[l].row) && pc.original == Some(l);
        assert s'.locks[k].row == s.locks[l].row && s'.locks[k].time == pc.time;
      }
    }
  }

  lemma ReleaseKeepsForeign(s: State, x: Id, s': State, l: Id)
    requires x in s.sessions && SessionOk(s, x, s.sessions[x]) && WriteReleaseStep(s, x) == Some(s')
    requires Holds(s, l) && IsForeign(s, l) && OneLock(s, l)
    ensures Holds(s', l) && s'.locks == s.locks
  {
  }

  lemma StepForeign(s: State, a: Action, s': State, l: Id)
    requires Inv(s) && Next(s, a) == Some(s') && Holds(s, l) && IsForeign(s, l) && OneLock(s, l)
    ensures l in s'.locks && s'.locks[l] == s.locks[l] && s'.lockMaxDuration == s.lockMaxDuration
    ensures Holds(s', l) || TakenOver(s', l)
  {
    DurationKept(s, a, s');
    if a.WriteLock? {
      assert SessionOk(s, a.session, s.sessions[a.session]);
      hide Inv, SessionOk, WriteLockStep, OneLock, IsForeign, Holds, TakenOver;
      LockTakesOver(s, a.session, s', l);
    } else if a.WriteRelease? {
      assert SessionOk(s, a.session, s.sessions[a.session]);
      hide Inv, SessionOk, WriteReleaseStep, OneLock, IsForeign, TakenOver;
      ReleaseKeepsForeign(s, a.session, s', l);
    } else {
      hide Inv, Next, OneLock, IsForeign, TakenOver;
      QuietPast(s, a, s');
    }
  }

  lemma DurationKept(s: State, a: Action, s': State)
    requires Next(s, a) == Some(s')
    ensures s'.lockMaxDuration == s.lockMaxDuration
  {
    hide RivalOf, HasKey, InUse, Matches, IsLocked, Indexed;
  }

  lemma TakenOverStays(s: State, s': State, l: Id)
    requires l in s.locks && TakenOver(s, l) && LocksPast(s, s') && s'.lockMaxDuration == s.lockMaxDuration
    ensures l in s'.locks && TakenOver(s', l)
  {
    var k :| k in s.locks && s.locks[k].row == s.locks[l].row && s.locks[l].time + s.lockMaxDuration <= s.locks[k].time;
    assert s'.locks[k] == s.locks[k] && s'.locks[l] == s.locks[l];
  }

  lemma ForeignStays(s: State, s': State, l: Id)
    requires IsForeign(s, l) && LocksPast(s, s')
    ensures IsForeign(s', l)
  {
  }

  /** A row with a foreign lock stays locked with it until another session takes it over after it has expired. */
  lemma {:induction false} ForeignBlocks(d: nat, run: seq<Action>, n: nat, m: nat, l: Id)
    requires n <= m <= |run| && Exec(d, run).Some? && Holds(After(d, run, n), l) && IsForeign(After(d, run, n), l)
    ensures IsForeign(After(d, run, m), l) && (Holds(After(d, run, m), l) || TakenOver(After(d, run, m), l))
  {
    if n < m {
      ForeignBlocks(d, run, n, m - 1, l);
      StepAt(d, run, m - 1);
      PrefixRuns(d, run, m - 1);
      RunsOne(d, run[..m - 1], l);
      var s, a, s' := After(d, run, m - 1), run[m - 1], After(d, run, m);
      hide Exec, Inv, Next, Holds, TakenOver, OneLock, LocksPast, IsForeign, After;
      StepPast(s, a, s');
      ForeignStays(s, s', l);
      if Holds(s, l) {
        StepForeign(s, a, s', l);
      } else {
        DurationKept(s, a, s');
        TakenOverIn(s, l);
        TakenOverStays(s, s', l);
      }
    }
  }

  lemma TakenOverIn(s: State, l: Id)
    requires IsForeign(s, l)
    ensures l in s.locks
  {
  }
}
