/** What the SQL lock protocol guarantees over every run. */
module SqlTheorems {
  import opened Messages
  import opened SqlProtocol
  import opened SqlInvariant

  ghost function After(d: nat, run: seq<Action>, n: nat): State
    requires n <= |run| && Exec(d, run).Some?
  {
    PrefixRuns(d, run, n);
    Exec(d, run[..n]).value
  }

  lemma {:induction false} PrefixRuns(d: nat, run: seq<Action>, n: nat)
    requires n <= |run| && Exec(d, run).Some?
    ensures Exec(d, run[..n]).Some?
    decreases |run|
  {
    if n == |run| {
      assert run[..n] == run;
    } else {
      assert run[..|run| - 1][..n] == run[..n];
      PrefixRuns(d, run[..|run| - 1], n);
    }
  }

  lemma StepAt(d: nat, run: seq<Action>, n: nat)
    requires n < |run| && Exec(d, run).Some?
    ensures Next(After(d, run, n), run[n]) == Some(After(d, run, n + 1))
    ensures Inv(After(d, run, n)) && Inv(After(d, run, n + 1))
  {
    PrefixRuns(d, run, n + 1);
    PrefixRuns(d, run, n);
    assert run[..n + 1][..n] == run[..n];
    RunsKeep(d, run[..n]);
    RunsKeep(d, run[..n + 1]);
  }

  lemma AfterAll(d: nat, run: seq<Action>)
    requires Exec(d, run).Some?
    ensures After(d, run, |run|) == Exec(d, run).value && After(d, run, 0) == Initial(d)
  {
    assert run[..|run|] == run && run[..0] == [];
  }

  // ----- Locks are written once, and never come back -----

  predicate Holds(s: State, l: Id) {
    l in s.locks && s.locks[l].row in s.rows && s.rows[s.locks[l].row].lockId == Some(l)
  }

  /** A step keeps the record of every lock, and never brings back a lock that was released or stolen. */
  ghost predicate LocksPast(s: State, s': State) {
    && (forall l | l in s.locks :: l in s'.locks && s'.locks[l] == s.locks[l])
    && (forall l | l in s.locks && Holds(s', l) :: Holds(s, l))
    && (forall r | r in s.rows ::
        r in s'.rows && s'.rows[r].key == s.rows[r].key && s.rows[r].version <= s'.rows[r].version)
    && (forall x | x in s.sessions :: x in s'.sessions && SameSession(s.sessions[x], s'.sessions[x]))
    && s.log <= s'.log
  }

  predicate SameSession(x: Session, y: Session) {
    y.instance == x.instance && y.key == x.key && y.basis == x.basis && y.found == x.found && y.context == x.context
  }

  ghost predicate SessionsGo(s: State, s': State) {
    forall x | x in s.sessions :: x in s'.sessions && SameSession(s.sessions[x], s'.sessions[x])
  }

  lemma QuietPast(s: State, a: Action, s': State)
    requires Next(s, a) == Some(s') && !a.WriteLock? && !a.WriteRelease?
    ensures s'.rows == s.rows && s'.locks == s.locks && s'.log == s.log && SessionsGo(s, s')
  {
    hide WriteLockStep, WriteReleaseStep;
  }

  lemma GrantPast(s: State, x: Id, r: Id, l: Id, t: Time)
    requires x in s.sessions && r in s.rows && l !in s.locks
    ensures LocksPast(s, Granted(s, x, r, l, t))
  {
  }

  lemma WriteLockPast(s: State, x: Id, s': State)
    requires TableOk(s) && x in s.sessions && SessionOk(s, x, s.sessions[x]) && WriteLockStep(s, x) == Some(s')
    ensures LocksPast(s, s')
  {
    var session := s.sessions[x];
    var pc := session.pc;
    if CanWriteLock(s, x) {
      WriteLockGrants(s, x, s');
      hide WriteLockStep, LocksPast, CanWriteLock;
      if pc.target.None? {
        InsertPast(s, x);
        GrantPast(Inserted(s, x), x, session.instance, pc.lockId, pc.time);
        PastTransitive(s, Inserted(s, x), s');
      } else {
        GrantPast(s, x, pc.target.value, pc.lockId, pc.time);
      }
    } else {
      WriteLockFails(s, x, s');
      hide WriteLockStep, CanWriteLock;
    }
  }

  lemma InsertPast(s: State, x: Id)
    requires TableOk(s) && x in s.sessions && s.sessions[x].instance !in s.rows
    ensures LocksPast(s, Inserted(s, x))
  {
    forall l | l in s.locks
      ensures LockOk(s, l)
    {
    }
  }

  lemma WriteReleasePast(s: State, x: Id, s': State)
    requires x in s.sessions && WriteReleaseStep(s, x) == Some(s')
    ensures LocksPast(s, s')
  {
  }

  lemma StepPast(s: State, a: Action, s': State)
    requires Inv(s) && Next(s, a) == Some(s')
    ensures LocksPast(s, s')
  {
    if a.WriteLock? {
      assert SessionOk(s, a.session, s.sessions[a.session]);
      assert TableOk(s);
      hide Inv, TableOk, SessionOk, WriteLockStep, LocksPast;
      WriteLockPast(s, a.session, s');
    } else if a.WriteRelease? {
      hide Inv, WriteReleaseStep, LocksPast;
      WriteReleasePast(s, a.session, s');
    } else {
      hide Inv, Next;
      QuietPast(s, a, s');
    }
  }

  /** Between any two moments of a run. */
  lemma {:induction false} RunPast(d: nat, run: seq<Action>, n: nat, m: nat)
    requires n <= m <= |run| && Exec(d, run).Some?
    ensures LocksPast(After(d, run, n), After(d, run, m))
  {
    hide LocksPast, Next, Inv, Exec;
    if n < m {
      RunPast(d, run, n, m - 1);
      StepAt(d, run, m - 1);
      StepPast(After(d, run, m - 1), run[m - 1], After(d, run, m));
      PastTransitive(After(d, run, n), After(d, run, m - 1), After(d, run, m));
    } else {
      PastReflexive(After(d, run, n));
    }
  }

  lemma PastReflexive(s: State)
    ensures LocksPast(s, s)
  {
  }

  lemma PastTransitive(s: State, t: State, u: State)
    requires LocksPast(s, t) && LocksPast(t, u)
    ensures LocksPast(s, u)
  {
  }

  lemma HeldBetween(s: State, t: State, u: State, r: Id, l: Id)
    requires Inv(s) && Inv(t) && Inv(u) && LocksPast(s, t) && LocksPast(t, u)
    requires r in s.rows && s.rows[r].lockId == Some(l) && r in u.rows && u.rows[r].lockId == Some(l)
    ensures r in t.rows && t.rows[r].lockId == Some(l) && t.rows[r].content == s.rows[r].content
  {
    assert RowOk(s, r) && RowOk(t, r) && RowOk(u, r);
    hide Inv;
    assert Holds(u, l);
    assert Holds(t, l);
  }

  /**
   Isolation: when a row carries a lock at two moments, it carries it at every moment in between, and its
   completion flag, messages and state bytes do not change.
   */
  lemma Isolation(d: nat, run: seq<Action>, n: nat, k: nat, m: nat, r: Id, l: Id)
    requires n <= k <= m <= |run| && Exec(d, run).Some?
    requires r in After(d, run, n).rows && After(d, run, n).rows[r].lockId == Some(l)
    requires r in After(d, run, m).rows && After(d, run, m).rows[r].lockId == Some(l)
    ensures r in After(d, run, k).rows && After(d, run, k).rows[r].lockId == Some(l)
    ensures After(d, run, k).rows[r].content == After(d, run, n).rows[r].content
  {
    hide LocksPast, Inv, Exec;
    RunPast(d, run, n, k);
    RunPast(d, run, k, m);
    Reached(d, run, n);
    Reached(d, run, k);
    Reached(d, run, m);
    HeldBetween(After(d, run, n), After(d, run, k), After(d, run, m), r, l);
  }

  lemma Reached(d: nat, run: seq<Action>, n: nat)
    requires n <= |run| && Exec(d, run).Some?
    ensures Inv(After(d, run, n))
  {
    PrefixRuns(d, run, n);
    RunsKeep(d, run[..n]);
  }

  /** Fencing: a lock that was written and is no longer in its row never commits a release again. */
  lemma Fencing(d: nat, run: seq<Action>, n: nat, m: nat, l: Id)
    requires n <= m < |run| && Exec(d, run).Some? && l in After(d, run, n).locks && !Holds(After(d, run, n), l)
    requires run[m].WriteRelease?
    ensures var s, s' := After(d, run, m), After(d, run, m + 1);
            run[m].session in s.sessions && s.sessions[run[m].session].pc == Matched(l) ==>
              s'.log == s.log && s'.rows == s.rows
  {
    RunPast(d, run, n, m);
    StepAt(d, run, m);
    var s := After(d, run, m);
    hide Exec;
    FencedOff(s, run[m].session, l, After(d, run, m + 1));
  }

  lemma WriteReleaseIs(s: State, x: Id)
    ensures Next(s, WriteRelease(x)) == if x in s.sessions then WriteReleaseStep(s, x) else None
  {
    hide WriteReleaseStep;
  }

  lemma FencedOff(s: State, x: Id, l: Id, s': State)
    requires Inv(s) && l in s.locks && !Holds(s, l) && Next(s, WriteRelease(x)) == Some(s')
    ensures x in s.sessions && s.sessions[x].pc == Matched(l) ==> s'.log == s.log && s'.rows == s.rows
  {
    if x in s.sessions && s.sessions[x].pc == Matched(l) && s.sessions[x].instance in s.rows {
      assert RowOk(s, s.sessions[x].instance);
    }
    WriteReleaseIs(s, x);
    hide Inv, Next;
  }

  lemma ReleaseWrites(s: State, x: Id, s': State)
    requires x in s.sessions && WriteReleaseStep(s, x) == Some(s') && s'.log != s.log && SessionOk(s, x, s.sessions[x])
    requires s.sessions[x].instance in s.rows ==> RowOk(s, s.sessions[x].instance)
    ensures var i, l := s.sessions[x].instance, s.sessions[x].pc.lockId;
            && l in s.locks && s.locks[l].row == i && s.locks[l].session == x && i in s.rows
            && s.rows[i].content == s.locks[l].content
            && i in s'.rows && s'.rows == s.rows[i := s'.rows[i]] && s'.rows[i].lockId.None?
            && s'.rows[i].lockTime.None?
            && s'.rows[i].content.processed == s.sessions[x].work.processed
            && s'.rows[i].content.isCompleted == s.sessions[x].work.isCompleted
            && s'.rows[i].content.data
               == (if s.sessions[x].key.sagaStateType.Some? then s.sessions[x].work.data else s.rows[i].content.data)
  {
  }

  /**
   A release commits only on the session's own row, under the lock that was written on it, over what the row held then.
   */
  lemma ReleasesOwnRow(d: nat, run: seq<Action>, x: Id)
    requires Exec(d, run).Some? && x in Exec(d, run).value.sessions
    requires var s := Exec(d, run).value; Next(s, WriteRelease(x)).Some? && Next(s, WriteRelease(x)).value.log != s.log
    ensures var s := Exec(d, run).value;
            var s' := Next(s, WriteRelease(x)).value;
            var i, l := s.sessions[x].instance, s.sessions[x].pc.lockId;
            && l in s.locks && s.locks[l].row == i && s.locks[l].session == x && i in s.rows
            && s.rows[i].content == s.locks[l].content
            && i in s'.rows && s'.rows == s.rows[i := s'.rows[i]] && s'.rows[i].lockId.None?
            && s'.rows[i].lockTime.None?
            && s'.rows[i].content.processed == s.sessions[x].work.processed
            && s'.rows[i].content.isCompleted == s.sessions[x].work.isCompleted
            && s'.rows[i].content.data
               == (if s.sessions[x].key.sagaStateType.Some? then s.sessions[x].work.data else s.rows[i].content.data)
  {
    var s := Exec(d, run).value;
    RunsKeep(d, run);
    assert SessionOk(s, x, s.sessions[x]);
    if s.sessions[x].instance in s.rows {
      assert RowOk(s, s.sessions[x].instance);
    }
    WriteReleaseIs(s, x);
    hide Inv, Exec, Next, SessionOk, RowOk, WriteReleaseStep;
    ReleaseWrites(s, x, WriteReleaseStep(s, x).value);
  }

  // ----- Expiry -----

  /** LockId and LockTime are null together in every reachable row. */
  lemma NullTogether(d: nat, run: seq<Action>, r: Id)
    requires Exec(d, run).Some? && r in Exec(d, run).value.rows
    ensures Exec(d, run).value.rows[r].lockId.Some? <==> Exec(d, run).value.rows[r].lockTime.Some?
  {
    RunsKeep(d, run);
    assert RowOk(Exec(d, run).value, r);
  }

  /**
   Two locks of one row with no release between them are at least LockMaxDuration apart; so one at most is unexpired.
   */
  lemma ExpiryBound(d: nat, run: seq<Action>, l: Id, k: Id)
    requires Exec(d, run).Some?
    requires var s := Exec(d, run).value; l in s.locks && k in s.locks && l != k && SameSpan(s.locks[l], s.locks[k])
    ensures var s := Exec(d, run).value;
            && Apart(s.locks[l].time, s.locks[k].time, d)
            && !(s.locks[l].time > s.now - d && s.locks[k].time > s.now - d)
  {
    RunsKeep(d, run);
    DurationStays(d, run);
    var s := Exec(d, run).value;
    assert LockOk(s, l) && LockOk(s, k);
  }

  lemma StepDuration(s: State, a: Action, s': State)
    requires Next(s, a) == Some(s')
    ensures s'.lockMaxDuration == s.lockMaxDuration
  {
  }

  lemma {:induction false} DurationStays(d: nat, run: seq<Action>)
    requires Exec(d, run).Some?
    ensures Exec(d, run).value.lockMaxDuration == d
  {
    if run != [] {
      DurationStays(d, run[..|run| - 1]);
      hide Exec, Next;
      StepDuration(Exec(d, run[..|run| - 1]).value, run[|run| - 1], Exec(d, run).value);
    }
  }
}
