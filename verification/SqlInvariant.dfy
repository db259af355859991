/** The inductive invariant of the SQL lock protocol. */
module SqlInvariant {
  import opened Messages
  import opened SqlProtocol

  /**
   LockId and LockTime are null together, and a lock in a row is the lock that was written on it, over the same content.
   */
  ghost predicate RowOk(s: State, r: Id)
    requires r in s.rows
  {
    var row := s.rows[r];
    && (row.lockId.Some? <==> row.lockTime.Some?)
    && (row.lockId.Some? ==>
          && row.lockId.value in s.locks
          && s.locks[row.lockId.value]
             == Lock(r, s.locks[row.lockId.value].session, row.lockTime.value, row.version, row.content))
  }

  ghost predicate LockOk(s: State, l: Id)
    requires l in s.locks
  {
    var lock := s.locks[l];
    && l in s.stamps && s.stamps[l] == lock.session && lock.session in s.sessions
    && lock.row in s.rows && lock.version <= s.rows[lock.row].version && lock.time <= s.now
  }

  /** Locks of a row with no release between them are at least LockMaxDuration apart, and the row carries the latest. */
  ghost predicate SpacedOk(s: State) {
    && (forall l, k | l in s.locks && k in s.locks && l != k && SameSpan(s.locks[l], s.locks[k]) ::
          Apart(s.locks[l].time, s.locks[k].time, s.lockMaxDuration))
    && (forall l | l in s.locks && s.locks[l].row in s.rows && s.locks[l].version == s.rows[s.locks[l].row].version ::
        IsLatest(s, l))
  }

  predicate SameSpan(x: Lock, y: Lock) {
    x.row == y.row && x.version == y.version
  }

  predicate Apart(t: Time, u: Time, d: nat) {
    t + d <= u || u + d <= t
  }

  ghost predicate IsLatest(s: State, l: Id)
    requires l in s.locks && s.locks[l].row in s.rows
  {
    var row := s.rows[s.locks[l].row];
    row.lockId.Some? && row.lockTime.Some?
      && (row.lockId == Some(l) || s.locks[l].time + s.lockMaxDuration <= row.lockTime.value)
  }

  /** What a session loaded is what the row held at version `basis`. */
  predicate CopyOk(rows: map<Id, Row>, session: Session) {
    if session.instance in rows then
      var row := rows[session.instance];
      row.key == session.key && session.basis <= row.version
        && (session.basis == row.version ==> row.content == session.found)
    else session.basis == 0 && session.found == NEW_CONTENT
  }

  /** The lock `original` that was found on `target` had expired by `time`. */
  predicate Expired(s: State, target: Option<Id>, original: Option<Id>, time: Time) {
    && (original.Some? ==> target.Some?)
    && (original.Some? ==>
          original.value in s.locks && s.locks[original.value].row == target.value
          && s.locks[original.value].time + s.lockMaxDuration <= time)
  }

  predicate Grew(before: set<Id>, after: set<Id>, message: Id) {
    after == before || after == before + {message}
  }

  predicate HasLock(s: State, x: Id, l: Id) {
    l in s.locks && s.locks[l].session == x
  }

  predicate SessionOk(s: State, x: Id, session: Session) {
    CopyOk(s.rows, session) &&
    match session.pc
    case Checked(target, original) => Expired(s, target, original, s.now)
    case Stamped(target, original, l, time) =>
      Expired(s, target, original, time) && time <= s.now && l in s.stamps && s.stamps[l] == x && l !in s.locks
    case Locked(l) => HasLock(s, x, l)
    case Worked(l) => HasLock(s, x, l)
      && Grew(session.found.processed, session.work.processed, session.context.messageId)
    case Matched(l) => HasLock(s, x, l)
      && Grew(session.found.processed, session.work.processed, session.context.messageId)
    case Released(l) => HasLock(s, x, l)
    case _ => true
  }

  /** The unique index on (CorrelationId, SagaType). */
  ghost predicate KeysOk(rows: map<Id, Row>) {
    forall r, q | r in rows && q in rows && r != q ::
      rows[r].key.correlationId != rows[q].key.correlationId || rows[r].key.sagaType != rows[q].key.sagaType
  }

  /** What the commits in `log` left in row `r`, and how many there were. */
  function LastContent(log: seq<Commit>, r: Id): Content {
    if log == [] then NEW_CONTENT
    else if log[|log| - 1].row == r then log[|log| - 1].after
    else LastContent(log[..|log| - 1], r)
  }

  function Releases(log: seq<Commit>, r: Id): nat {
    if log == [] then 0 else Releases(log[..|log| - 1], r) + (if log[|log| - 1].row == r then 1 else 0)
  }

  /** The table is what the committed releases made it. */
  ghost predicate LogOk(s: State) {
    && (forall r | r in s.rows :: s.rows[r].content == LastContent(s.log, r) && s.rows[r].version == Releases(s.log, r))
    && (forall k | 0 <= k < |s.log| ::
        s.log[k].row in s.rows && s.log[k].before == LastContent(s.log[..k], s.log[k].row))
  }

  ghost predicate Inv(s: State) {
    TableOk(s) && SpacedOk(s) && SessionsOk(s) && KeysOk(s.rows) && LogOk(s)
  }

  ghost predicate TableOk(s: State) {
    (forall r | r in s.rows :: RowOk(s, r)) && (forall l | l in s.locks :: LockOk(s, l))
  }

  /** Every session is as it should be, and sessions of one instance are of one saga. */
  ghost predicate SessionsOk(s: State) {
    && (forall x | x in s.sessions :: SessionOk(s, x, s.sessions[x]))
    && (forall x, y | x in s.sessions && y in s.sessions && s.sessions[x].instance == s.sessions[y].instance ::
          s.sessions[x].key == s.sessions[y].key)
  }

  // ----- One session moves -----

  lemma EverySession(s: State, x: Id)
    requires Inv(s) && x in s.sessions
    ensures SessionOk(s, x, s.sessions[x])
  {
  }

  lemma EveryRow(s: State, r: Id)
    requires Inv(s) && r in s.rows
    ensures RowOk(s, r)
  {
  }

  lemma EveryLock(s: State, l: Id)
    requires Inv(s) && l in s.locks
    ensures LockOk(s, l)
  {
  }

  /** Only session `x` changes; what it loaded stays what it was. */
  ghost predicate MovesOnly(s: State, s': State, x: Id) {
    && x in s.sessions && x in s'.sessions && s'.sessions == s.sessions[x := s'.sessions[x]]
    && s'.sessions[x].instance == s.sessions[x].instance && s'.sessions[x].found == s.sessions[x].found
    && s'.sessions[x].basis == s.sessions[x].basis && s'.sessions[x].key == s.sessions[x].key
    && s'.sessions[x].context == s.sessions[x].context
  }

  /** Steps that change neither rows, locks nor log; the clock may go on. */
  ghost predicate SameTable(s: State, s': State) {
    && s'.rows == s.rows && s'.locks == s.locks && s'.log == s.log && s'.lockMaxDuration == s.lockMaxDuration
    && s.now <= s'.now
    && (forall l | l in s.stamps :: l in s'.stamps && s'.stamps[l] == s.stamps[l])
    && (forall x | x in s.sessions :: x in s'.sessions)
  }

  lemma SameTableKeeps(s: State, s': State)
    requires TableOk(s) && SpacedOk(s) && LogOk(s) && SameTable(s, s')
    ensures TableOk(s') && SpacedOk(s') && LogOk(s')
  {
    forall l | l in s'.locks
      ensures LockOk(s', l)
    {
      assert LockOk(s, l);
    }
    forall r | r in s'.rows
      ensures RowOk(s', r)
    {
      assert RowOk(s, r);
    }
    forall l | l in s.locks && s.locks[l].row in s.rows && s.locks[l].version == s.rows[s.locks[l].row].version
      ensures IsLatest(s', l)
    {
      assert IsLatest(s, l);
    }
  }

  lemma SessionStays(s: State, s': State, x: Id, session: Session)
    requires SessionOk(s, x, session) && SameTable(s, s')
    ensures SessionOk(s', x, session)
  {
  }

  lemma SessionsStay(s: State, s': State, x: Id)
    requires SessionsOk(s) && SameTable(s, s') && MovesOnly(s, s', x) && SessionOk(s', x, s'.sessions[x])
    ensures SessionsOk(s')
  {
    forall y | y in s'.sessions
      ensures SessionOk(s', y, s'.sessions[y])
    {
      if y != x {
        SessionStays(s, s', y, s.sessions[y]);
      }
    }
  }

  lemma QuietKeeps(s: State, s': State, x: Id)
    requires Inv(s) && MovesOnly(s, s', x) && SameTable(s, s') && SessionOk(s', x, s'.sessions[x])
    ensures Inv(s')
  {
    hide TableOk, SpacedOk, SessionsOk, LogOk, SessionOk;
    SameTableKeeps(s, s');
    SessionsStay(s, s', x);
  }

  lemma MoveKeeps(s: State, x: Id, pc: Pc)
    requires Inv(s) && x in s.sessions && SessionOk(s, x, s.sessions[x].(pc := pc))
    ensures Inv(Move(s, x, pc))
  {
    hide Inv, SessionOk;
    SessionStays(s, Move(s, x, pc), x, s.sessions[x].(pc := pc));
    QuietKeeps(s, Move(s, x, pc), x);
  }

  lemma ReadForLockKeeps(s: State, x: Id, r: Option<Id>, s': State)
    requires Inv(s) && x in s.sessions && ReadForLockStep(s, x, r) == Some(s')
    ensures Inv(s')
  {
    assert SessionOk(s, x, s.sessions[x]);
    if r.Some? {
      assert RowOk(s, r.value);
      ReadOk(s, x, r.value);
    }
    hide Inv, SessionOk;
    if r.Some? && IsLocked(s, s.rows[r.value]) {
      RefusedOk(s, x, Refused(LockException));
      MoveKeeps(s, x, Refused(LockException));
    } else {
      var original := if r.Some? then s.rows[r.value].lockId else None;
      CheckedOk(s, x, r, original);
      MoveKeeps(s, x, Checked(r, original));
    }
  }

  lemma ReadOk(s: State, x: Id, r: Id)
    requires r in s.rows && RowOk(s, r)
    ensures !IsLocked(s, s.rows[r]) ==> Expired(s, Some(r), s.rows[r].lockId, s.now)
  {
  }

  lemma CheckedOk(s: State, x: Id, target: Option<Id>, original: Option<Id>)
    requires x in s.sessions && SessionOk(s, x, s.sessions[x]) && Expired(s, target, original, s.now)
    ensures SessionOk(s, x, s.sessions[x].(pc := Checked(target, original)))
  {
  }

  lemma RefusedOk(s: State, x: Id, pc: Pc)
    requires x in s.sessions && SessionOk(s, x, s.sessions[x]) && (pc.Refused? || pc.Clashed?)
    ensures SessionOk(s, x, s.sessions[x].(pc := pc))
  {
  }

  lemma StampReady(s: State, x: Id, l: Id, s': State)
    requires x in s.sessions && SessionOk(s, x, s.sessions[x]) && l !in s.locks && StampStep(s, x, l) == Some(s')
    ensures MovesOnly(s, s', x) && SameTable(s, s') && SessionOk(s', x, s'.sessions[x])
  {
  }

  lemma StampKeeps(s: State, x: Id, l: Id, s': State)
    requires Inv(s) && x in s.sessions && StampStep(s, x, l) == Some(s')
    ensures Inv(s')
  {
    hide Inv;
    EverySession(s, x);
    if l in s.locks {
      EveryLock(s, l);
    }
    StampReady(s, x, l, s');
    hide StampStep, SameTable, SessionOk, MovesOnly;
    QuietKeeps(s, s', x);
  }

  lemma WorkReady(s: State, x: Id, recorded: bool, isCompleted: bool, data: Option<Id>, s': State)
    requires x in s.sessions && SessionOk(s, x, s.sessions[x])
    requires WorkStep(s, x, recorded, isCompleted, data) == Some(s')
    ensures MovesOnly(s, s', x) && SameTable(s, s') && SessionOk(s', x, s'.sessions[x])
  {
  }

  lemma WorkKeeps(s: State, x: Id, recorded: bool, isCompleted: bool, data: Option<Id>, s': State)
    requires Inv(s) && x in s.sessions && WorkStep(s, x, recorded, isCompleted, data) == Some(s')
    ensures Inv(s')
  {
    assert SessionOk(s, x, s.sessions[x]);
    hide Inv, SessionOk, SameTable;
    WorkReady(s, x, recorded, isCompleted, data, s');
    QuietKeeps(s, s', x);
  }

  lemma ReadForReleaseKeeps(s: State, x: Id, s': State)
    requires Inv(s) && x in s.sessions && ReadForReleaseStep(s, x) == Some(s')
    ensures Inv(s')
  {
    hide Inv, Move;
    EverySession(s, x);
    if s' != s {
      MoveKeeps(s, x, Matched(s.sessions[x].pc.lockId));
    }
  }

  // ----- A lock is written -----

  lemma GrantSpaced(s: State, x: Id, r: Id, l: Id, t: Time)
    requires SpacedOk(s) && x in s.sessions && r in s.rows && RowOk(s, r) && l !in s.locks
    requires s.rows[r].lockId.Some? ==> s.rows[r].lockTime.value + s.lockMaxDuration <= t
    ensures SpacedOk(Granted(s, x, r, l, t))
  {
    var s' := Granted(s, x, r, l, t);
    forall k | k in s.locks && s.locks[k].row == r && s.locks[k].version == s.rows[r].version
      ensures s.rows[r].lockId.Some? && s.locks[k].time + s.lockMaxDuration <= t
    {
      assert IsLatest(s, k);
    }
    forall k | k in s'.locks && s'.locks[k].row in s'.rows && s'.locks[k].version == s'.rows[s'.locks[k].row].version
      ensures IsLatest(s', k)
    {
      if k != l {
        assert IsLatest(s, k);
      }
    }
  }

  lemma GrantSessions(s: State, x: Id, r: Id, l: Id, t: Time, y: Id)
    requires x in s.sessions && r in s.rows && y in s.sessions && SessionOk(s, y, s.sessions[y]) && l !in s.locks
    requires l in s.stamps && s.stamps[l] == x
    ensures SessionOk(Granted(s, x, r, l, t), y, Granted(s, x, r, l, t).sessions[y])
  {
  }

  lemma GrantKeeps(s: State, x: Id, r: Id, l: Id, t: Time)
    requires Inv(s) && x in s.sessions && r in s.rows && l !in s.locks && l in s.stamps && s.stamps[l] == x
    requires t <= s.now
    requires s.rows[r].lockId.Some? ==> s.rows[r].lockTime.Some? && s.rows[r].lockTime.value + s.lockMaxDuration <= t
    ensures Inv(Granted(s, x, r, l, t))
  {
    assert RowOk(s, r);
    hide TableOk, SpacedOk, SessionsOk, LogOk, KeysOk, RowOk, Granted;
    GrantSpaced(s, x, r, l, t);
    GrantRows(s, x, r, l, t);
    GrantEvery(s, x, r, l, t);
    GrantLog(s, x, r, l, t);
  }

  lemma GrantLog(s: State, x: Id, r: Id, l: Id, t: Time)
    requires LogOk(s) && KeysOk(s.rows) && x in s.sessions && r in s.rows
    ensures LogOk(Granted(s, x, r, l, t)) && KeysOk(Granted(s, x, r, l, t).rows)
  {
  }

  lemma GrantEvery(s: State, x: Id, r: Id, l: Id, t: Time)
    requires SessionsOk(s) && x in s.sessions && r in s.rows && l !in s.locks && l in s.stamps && s.stamps[l] == x
    ensures SessionsOk(Granted(s, x, r, l, t))
  {
    var s' := Granted(s, x, r, l, t);
    forall y | y in s'.sessions
      ensures SessionOk(s', y, s'.sessions[y])
    {
      assert SessionOk(s, y, s.sessions[y]);
      GrantSessions(s, x, r, l, t, y);
    }
  }

  lemma GrantRows(s: State, x: Id, r: Id, l: Id, t: Time)
    requires TableOk(s)
    requires x in s.sessions && r in s.rows && l !in s.locks && l in s.stamps && s.stamps[l] == x && t <= s.now
    ensures TableOk(Granted(s, x, r, l, t))
  {
    var s' := Granted(s, x, r, l, t);
    forall k | k in s'.locks
      ensures LockOk(s', k)
    {
      assert k != l ==> LockOk(s, k);
    }
    forall q | q in s'.rows
      ensures RowOk(s', q)
    {
      assert RowOk(s, q);
    }
  }

  // ----- A row is inserted -----

  function Inserted(s: State, x: Id): State
    requires x in s.sessions
  {
    s.(rows := s.rows[s.sessions[x].instance := Row(s.sessions[x].key, NEW_CONTENT, None, None, 0)])
  }

  lemma InsertKeeps(s: State, x: Id)
    requires Inv(s) && x in s.sessions && s.sessions[x].instance !in s.rows && !Indexed(s.rows, s.sessions[x].key)
    ensures Inv(Inserted(s, x))
  {
    InsertTable(s, x);
    hide TableOk;
    InsertEvery(s, x);
    hide SessionsOk;
    InsertSpaced(s, x);
    hide SpacedOk;
    InsertLog(s, x);
    hide LogOk;
  }

  lemma InsertSpaced(s: State, x: Id)
    requires SpacedOk(s) && TableOk(s) && x in s.sessions && s.sessions[x].instance !in s.rows
    ensures SpacedOk(Inserted(s, x))
  {
    forall l | l in s.locks
      ensures s.locks[l].row in s.rows
    {
      assert LockOk(s, l);
    }
    forall l | l in s.locks && s.locks[l].version == s.rows[s.locks[l].row].version
      ensures IsLatest(Inserted(s, x), l)
    {
      assert IsLatest(s, l);
    }
  }

  lemma InsertEvery(s: State, x: Id)
    requires SessionsOk(s) && x in s.sessions && s.sessions[x].instance !in s.rows
    ensures SessionsOk(Inserted(s, x))
  {
    var s' := Inserted(s, x);
    forall y | y in s'.sessions
      ensures SessionOk(s', y, s'.sessions[y])
    {
      assert SessionOk(s, y, s.sessions[y]);
    }
  }

  lemma InsertTable(s: State, x: Id)
    requires TableOk(s) && x in s.sessions && s.sessions[x].instance !in s.rows
    ensures TableOk(Inserted(s, x))
  {
    var s' := Inserted(s, x);
    forall l | l in s'.locks
      ensures LockOk(s', l)
    {
      assert LockOk(s, l);
    }
    forall r | r in s'.rows
      ensures RowOk(s', r)
    {
      assert r in s.rows ==> RowOk(s, r);
    }
  }

  lemma InsertLog(s: State, x: Id)
    requires LogOk(s) && x in s.sessions && s.sessions[x].instance !in s.rows
    ensures LogOk(Inserted(s, x))
  {
    forall c | c in s.log
      ensures c.row in s.rows
    {
      var k :| 0 <= k < |s.log| && s.log[k] == c;
    }
    NeverReleased(s.log, s.sessions[x].instance);
  }

  lemma {:induction false} NeverReleased(log: seq<Commit>, r: Id)
    requires forall c | c in log :: c.row != r
    ensures LastContent(log, r) == NEW_CONTENT && Releases(log, r) == 0
  {
    if log != [] {
      NeverReleased(log[..|log| - 1], r);
    }
  }

  /** The write of LockAsyncCore goes through: nothing stands in the way of the insert, or the token is unchanged. */
  predicate CanWriteLock(s: State, x: Id)
    requires x in s.sessions && s.sessions[x].pc.Stamped?
  {
    match s.sessions[x].pc.target
    case None => s.sessions[x].instance !in s.rows && !Indexed(s.rows, s.sessions[x].key)
    case Some(r) => r in s.rows && s.rows[r].lockId == s.sessions[x].pc.original
  }

  /** The row it writes, in the table it writes it to. */
  function LockTarget(s: State, x: Id): Id
    requires x in s.sessions && s.sessions[x].pc.Stamped?
  {
    if s.sessions[x].pc.target.Some? then s.sessions[x].pc.target.value else s.sessions[x].instance
  }

  function LockTable(s: State, x: Id): State
    requires x in s.sessions && s.sessions[x].pc.Stamped?
  {
    if s.sessions[x].pc.target.Some? then s else Inserted(s, x)
  }

  lemma WriteLockGrants(s: State, x: Id, s': State)
    requires x in s.sessions && s.sessions[x].pc.Stamped? && CanWriteLock(s, x) && WriteLockStep(s, x) == Some(s')
    ensures LockTarget(s, x) in LockTable(s, x).rows
    ensures s' == Granted(LockTable(s, x), x, LockTarget(s, x), s.sessions[x].pc.lockId, s.sessions[x].pc.time)
  {
    hide Granted;
  }

  lemma WriteLockFails(s: State, x: Id, s': State)
    requires x in s.sessions && s.sessions[x].pc.Stamped? && !CanWriteLock(s, x) && WriteLockStep(s, x) == Some(s')
    ensures s' == Move(s, x, if s.sessions[x].pc.target.None? then Clashed else Refused(LockException))
  {
    hide Move;
  }

  lemma WriteLockKeeps(s: State, x: Id, s': State)
    requires Inv(s) && x in s.sessions && WriteLockStep(s, x) == Some(s')
    ensures Inv(s')
  {
    hide Inv, SessionOk, CanWriteLock, Granted;
    EverySession(s, x);
    var pc := s.sessions[x].pc;
    if CanWriteLock(s, x) {
      WriteLockGrants(s, x, s');
      hide WriteLockStep, LockTable, LockTarget;
      WrittenKeeps(s, x);
    } else {
      WriteLockFails(s, x, s');
      hide WriteLockStep;
      var after := if pc.target.None? then Clashed else Refused(LockException);
      RefusedOk(s, x, after);
      MoveKeeps(s, x, after);
    }
  }

  lemma WrittenKeeps(s: State, x: Id)
    requires Inv(s) && x in s.sessions && SessionOk(s, x, s.sessions[x]) && s.sessions[x].pc.Stamped?
    requires CanWriteLock(s, x)
    ensures LockTarget(s, x) in LockTable(s, x).rows
    ensures Inv(Granted(LockTable(s, x), x, LockTarget(s, x), s.sessions[x].pc.lockId, s.sessions[x].pc.time))
  {
    hide Inv, Granted;
    var pc := s.sessions[x].pc;
    if pc.target.None? {
      InsertKeeps(s, x);
      GrantKeeps(Inserted(s, x), x, s.sessions[x].instance, pc.lockId, pc.time);
    } else {
      EveryRow(s, pc.target.value);
      GrantKeeps(s, x, pc.target.value, pc.lockId, pc.time);
    }
  }

  lemma ReadRivalKeeps(s: State, x: Id, s': State)
    requires Inv(s) && x in s.sessions && ReadRivalStep(s, x) == Some(s')
    ensures Inv(s')
  {
    assert SessionOk(s, x, s.sessions[x]);
    hide Inv, SessionOk, RivalOf;
    RefusedOk(s, x, s'.sessions[x].pc);
    MoveKeeps(s, x, s'.sessions[x].pc);
  }

  // ----- A release is written -----

  function Wrote(s: State, x: Id, content: Content): State
    requires x in s.sessions && s.sessions[x].instance in s.rows && s.sessions[x].pc.Matched?
  {
    var i := s.sessions[x].instance;
    var row := s.rows[i];
    Move(s, x, Released(s.sessions[x].pc.lockId)).(
      rows := s.rows[i := Row(row.key, content, None, None, row.version + 1)],
      log := s.log + [Commit(i, x, row.content, content)])
  }

  lemma WroteTable(s: State, x: Id, content: Content)
    requires TableOk(s) && x in s.sessions && s.sessions[x].instance in s.rows && s.sessions[x].pc.Matched?
    ensures TableOk(Wrote(s, x, content))
  {
    var s' := Wrote(s, x, content);
    forall l | l in s'.locks
      ensures LockOk(s', l)
    {
      assert LockOk(s, l);
    }
    forall r | r in s'.rows
      ensures RowOk(s', r)
    {
      assert RowOk(s, r);
    }
  }

  lemma WroteSpaced(s: State, x: Id, content: Content)
    requires SpacedOk(s) && TableOk(s) && x in s.sessions && s.sessions[x].instance in s.rows
    requires s.sessions[x].pc.Matched?
    ensures SpacedOk(Wrote(s, x, content))
  {
    var s' := Wrote(s, x, content);
    forall l | l in s'.locks && s'.locks[l].row in s'.rows && s'.locks[l].version == s'.rows[s'.locks[l].row].version
      ensures IsLatest(s', l)
    {
      assert LockOk(s, l) && IsLatest(s, l);
    }
  }

  lemma WroteEvery(s: State, x: Id, content: Content)
    requires SessionsOk(s) && x in s.sessions && s.sessions[x].instance in s.rows && s.sessions[x].pc.Matched?
    ensures SessionsOk(Wrote(s, x, content))
  {
    var s' := Wrote(s, x, content);
    forall y | y in s'.sessions
      ensures SessionOk(s', y, s'.sessions[y])
    {
      assert SessionOk(s, y, s.sessions[y]);
    }
  }

  lemma WroteLog(s: State, x: Id, content: Content)
    requires LogOk(s) && x in s.sessions && s.sessions[x].instance in s.rows && s.sessions[x].pc.Matched?
    ensures LogOk(Wrote(s, x, content))
  {
    var s' := Wrote(s, x, content);
    assert s'.log[..|s.log|] == s.log;
    forall k | 0 <= k < |s'.log|
      ensures s'.log[k].row in s'.rows && s'.log[k].before == LastContent(s'.log[..k], s'.log[k].row)
    {
      assert s'.log[..k] == s.log[..k];
    }
  }

  /** The write of ReleaseAsyncCore goes through. */
  predicate CanWriteRelease(s: State, x: Id)
    requires x in s.sessions && s.sessions[x].pc.Matched?
  {
    s.sessions[x].instance in s.rows && s.rows[s.sessions[x].instance].lockId == Some(s.sessions[x].pc.lockId)
  }

  lemma WriteReleaseWrites(s: State, x: Id, s': State)
    requires x in s.sessions && s.sessions[x].pc.Matched? && WriteReleaseStep(s, x) == Some(s')
    ensures CanWriteRelease(s, x) ==> s' == Wrote(s, x, Persisted(s.rows[s.sessions[x].instance], s.sessions[x]))
    ensures !CanWriteRelease(s, x) ==> s' == Move(s, x, Worked(s.sessions[x].pc.lockId))
  {
    hide Persisted;
  }

  lemma WriteReleaseKeeps(s: State, x: Id, s': State)
    requires Inv(s) && x in s.sessions && WriteReleaseStep(s, x) == Some(s')
    ensures Inv(s')
  {
    hide Inv, SessionOk, Persisted, Move, Wrote;
    WriteReleaseWrites(s, x, s');
    if CanWriteRelease(s, x) {
      WroteKeeps(s, x, Persisted(s.rows[s.sessions[x].instance], s.sessions[x]));
    } else {
      EverySession(s, x);
      MatchedWorked(s, x);
      MoveKeeps(s, x, Worked(s.sessions[x].pc.lockId));
    }
  }

  lemma WroteKeeps(s: State, x: Id, content: Content)
    requires Inv(s) && x in s.sessions && s.sessions[x].instance in s.rows && s.sessions[x].pc.Matched?
    ensures Inv(Wrote(s, x, content))
  {
    hide TableOk, SpacedOk, SessionsOk, LogOk;
    WroteTable(s, x, content);
    WroteSpaced(s, x, content);
    WroteEvery(s, x, content);
    WroteLog(s, x, content);
  }

  lemma MatchedWorked(s: State, x: Id)
    requires x in s.sessions && SessionOk(s, x, s.sessions[x]) && s.sessions[x].pc.Matched?
    ensures SessionOk(s, x, s.sessions[x].(pc := Worked(s.sessions[x].pc.lockId)))
  {
  }

  // ----- A message arrives, or time passes -----

  lemma OpenFrame(s: State, x: Id, context: MessageContext, descriptor: SagaDescriptor, i: Id, s': State)
    requires OpenStep(s, x, context, descriptor, i) == Some(s')
    ensures SameTable(s, s') && x !in s.sessions && x in s'.sessions && s'.sessions == s.sessions[x := s'.sessions[x]]
  {
  }

  lemma OpenReady(s: State, x: Id, context: MessageContext, descriptor: SagaDescriptor, i: Id, s': State)
    requires SessionsOk(s) && OpenStep(s, x, context, descriptor, i) == Some(s')
    ensures SessionOk(s', x, s'.sessions[x])
    ensures forall y | y in s.sessions && s.sessions[y].instance == i :: s.sessions[y].key == s'.sessions[x].key
    ensures s'.sessions[x].instance == i
  {
    forall y | y in s.sessions && s.sessions[y].instance == i
      ensures s.sessions[y].key == s'.sessions[x].key
    {
      assert SessionOk(s, y, s.sessions[y]);
    }
  }

  lemma OpenKeeps(s: State, x: Id, context: MessageContext, descriptor: SagaDescriptor, i: Id, s': State)
    requires Inv(s) && OpenStep(s, x, context, descriptor, i) == Some(s')
    ensures Inv(s')
  {
    OpenFrame(s, x, context, descriptor, i, s');
    assert KeysOk(s'.rows);
    hide TableOk, SpacedOk, SessionsOk, LogOk, SameTable, KeysOk, OpenStep;
    OpenEvery(s, x, context, descriptor, i, s');
    SameTableKeeps(s, s');
  }

  lemma OpenEvery(s: State, x: Id, context: MessageContext, descriptor: SagaDescriptor, i: Id, s': State)
    requires SessionsOk(s) && OpenStep(s, x, context, descriptor, i) == Some(s')
    ensures SessionsOk(s')
  {
    OpenFrame(s, x, context, descriptor, i, s');
    OpenReady(s, x, context, descriptor, i, s');
    hide OpenStep, SameTable, SessionOk;
    forall y | y in s.sessions
      ensures SessionOk(s', y, s.sessions[y])
    {
      SessionStays(s, s', y, s.sessions[y]);
    }
  }

  lemma TickKeeps(s: State, t: Time)
    requires Inv(s) && s.now <= t
    ensures Inv(s.(now := t))
  {
    var s' := s.(now := t);
    forall y | y in s.sessions
      ensures SessionOk(s', y, s.sessions[y])
    {
      SessionStays(s, s', y, s.sessions[y]);
    }
    hide TableOk, SpacedOk, LogOk, SessionOk;
    SameTableKeeps(s, s');
  }

  lemma NextKeeps(s: State, a: Action, s': State)
    requires Inv(s) && Next(s, a) == Some(s')
    ensures Inv(s')
  {
    hide Inv;
    match a {
      case Tick(t) => TickKeeps(s, t);
      case Open(x, context, descriptor, i) => OpenKeeps(s, x, context, descriptor, i, s');
      case ReadForLock(x, r) => ReadForLockKeeps(s, x, r, s');
      case Stamp(x, l) => StampKeeps(s, x, l, s');
      case WriteLock(x) => WriteLockKeeps(s, x, s');
      case ReadRival(x) => ReadRivalKeeps(s, x, s');
      case Work(x, recorded, isCompleted, data) => WorkKeeps(s, x, recorded, isCompleted, data, s');
      case ReadForRelease(x) => ReadForReleaseKeeps(s, x, s');
      case WriteRelease(x) => WriteReleaseKeeps(s, x, s');
    }
  }

  lemma {:induction false} RunsKeep(d: nat, run: seq<Action>)
    requires Exec(d, run).Some?
    ensures Inv(Exec(d, run).value)
  {
    if run != [] {
      RunsKeep(d, run[..|run| - 1]);
      NextKeeps(Exec(d, run[..|run| - 1]).value, run[|run| - 1], Exec(d, run).value);
    }
  }
}
