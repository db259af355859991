/**
 The SQL saga repository as a transition system: sessions with private copies, a table whose
 LockId column is a concurrency token, unique indexes, and locks that expire.

 LockAsyncCore and ReleaseAsyncCore are each a read followed by a conditional write, and
 any number of sessions interleave these steps while the clock goes on. A run is a sequence
 of actions.
 */
module SqlProtocol {
  import opened Messages

  type Time = int

  /** What a release persists. `data` stands for the serialised state bytes. */
  datatype Content = Content(isCompleted: bool, processed: set<Id>, data: Option<Id>)

  const NEW_CONTENT := Content(false, {}, None)

  /** A row of SagaStates. `version` is history: how many releases have committed on it. */
  datatype Row = Row(key: SagaKey, content: Content, lockId: Option<Id>, lockTime: Option<Time>, version: nat)

  datatype Pc =
    | Skipped
    | Opened
    | Checked(target: Option<Id>, original: Option<Id>)
    | Stamped(target: Option<Id>, original: Option<Id>, lockId: Id, time: Time)
    | Clashed
    | Locked(lockId: Id)
    | Worked(lockId: Id)
    | Matched(lockId: Id)
    | Released(lockId: Id)
    | Refused(error: Error)

  /**
   One delivery of a message: the private instance `found` that FindAsync loaded (or the factory created), and the
   content `work` its handler leaves. `basis` is history: the row's version when it was loaded.
   */
  datatype Session = Session(context: MessageContext, key: SagaKey, instance: Id, found: Content, work: Content,
                             basis: nat, pc: Pc)

  /** History of a lock that was written: on which row, for which session, when, and what the row held. */
  datatype Lock = Lock(row: Id, session: Id, time: Time, version: nat, content: Content)

  /** History of a release that committed. */
  datatype Commit = Commit(row: Id, session: Id, before: Content, after: Content)

  datatype State = State(
    lockMaxDuration: nat,
    now: Time,
    rows: map<Id, Row>,
    sessions: map<Id, Session>,
    stamps: map<Id, Id>,     // history: which session issued a lock id
    locks: map<Id, Lock>,
    log: seq<Commit>)

  function Initial(lockMaxDuration: nat): State {
    State(lockMaxDuration, 0, map[], map[], map[], map[], [])
  }

  datatype Action =
    | Tick(time: Time)
    | Open(session: Id, context: MessageContext, descriptor: SagaDescriptor, instance: Id)
    | ReadForLock(session: Id, row: Option<Id>)
    | Stamp(session: Id, lockId: Id)
    | WriteLock(session: Id)
    | ReadRival(session: Id)
    | Work(session: Id, recorded: bool, isCompleted: bool, data: Option<Id>)
    | ReadForRelease(session: Id)
    | WriteRelease(session: Id)

  function Move(s: State, x: Id, pc: Pc): State
    requires x in s.sessions
  {
    s.(sessions := s.sessions[x := s.sessions[x].(pc := pc)])
  }

  predicate HasKey(rows: map<Id, Row>, key: SagaKey) {
    exists r :: r in rows && rows[r].key == key
  }

  /** A new instance id is a fresh GUID. */
  predicate InUse(s: State, i: Id) {
    exists x :: x in s.sessions && s.sessions[x].instance == i
  }

  /** FindAsync and, after a miss, the instance factory; the session goes on only if it can process the message. */
  function OpenStep(s: State, x: Id, context: MessageContext, descriptor: SagaDescriptor, i: Id): Option<State> {
    var key := KeyOf(descriptor, context.correlationId);
    if x in s.sessions then None
    else if i in s.rows && s.rows[i].key == key then
      var row := s.rows[i];
      var pc := if row.content.isCompleted || context.messageId in row.content.processed then Skipped else Opened;
      Some(s.(sessions := s.sessions[x := Session(context, key, i, row.content, row.content, row.version, pc)]))
    else if i in s.rows || InUse(s, i) || HasKey(s.rows, key) then None
    else
      var pc := if context.messageType in descriptor.initiatorTypes then Opened else Refused(ApplicationException);
      Some(s.(sessions := s.sessions[x := Session(context, key, i, NEW_CONTENT, NEW_CONTENT, 0, pc)]))
  }

  /** The query of LockAsyncCore: by instance id or by correlation id, with the saga's types. */
  predicate Matches(row: Row, r: Id, session: Session) {
    && (r == session.instance || row.key.correlationId == session.key.correlationId)
    && row.key.sagaType == session.key.sagaType && row.key.sagaStateType == session.key.sagaStateType
  }

  predicate IsLocked(s: State, row: Row) {
    row.lockId.Some? && row.lockTime.Some? && row.lockTime.value > s.now - s.lockMaxDuration
  }

  function ReadForLockStep(s: State, x: Id, r: Option<Id>): Option<State>
    requires x in s.sessions
  {
    var session := s.sessions[x];
    if !session.pc.Opened? then None
    else
      match r
      case None =>
        if exists r' :: r' in s.rows && Matches(s.rows[r'], r', session) then None
        else Some(Move(s, x, Checked(None, None)))
      case Some(r) =>
        if r !in s.rows || !Matches(s.rows[r], r, session) then None
        else if IsLocked(s, s.rows[r]) then Some(Move(s, x, Refused(LockException)))
        else Some(Move(s, x, Checked(Some(r), s.rows[r].lockId)))
  }

  /** The new LockTime and LockId, before SaveChangesAsync. */
  function StampStep(s: State, x: Id, l: Id): Option<State>
    requires x in s.sessions
  {
    var pc := s.sessions[x].pc;
    if !pc.Checked? || l in s.stamps then None
    else Some(Move(s, x, Stamped(pc.target, pc.original, l, s.now)).(stamps := s.stamps[l := x]))
  }

  /** The unique index on (CorrelationId, SagaType). */
  predicate Indexed(rows: map<Id, Row>, key: SagaKey) {
    exists r :: r in rows && rows[r].key.correlationId == key.correlationId && rows[r].key.sagaType == key.sagaType
  }

  predicate RivalOf(rows: map<Id, Row>, session: Session) {
    exists r :: r in rows && rows[r].key == session.key && r != session.instance
  }

  /** SaveChangesAsync of LockAsyncCore: an insert, or an update on condition that LockId is still what was read. */
  function WriteLockStep(s: State, x: Id): Option<State>
    requires x in s.sessions
  {
    var session := s.sessions[x];
    var pc := session.pc;
    if !pc.Stamped? then None
    else
      match pc.target
      case None =>
        var i := session.instance;
        if i in s.rows || Indexed(s.rows, session.key) then Some(Move(s, x, Clashed))
        else
          Some(Granted(s.(rows := s.rows[i := Row(session.key, NEW_CONTENT, None, None, 0)]), x, i, pc.lockId, pc.time))
      case Some(r) =>
        if r in s.rows && s.rows[r].lockId == pc.original then Some(Granted(s, x, r, pc.lockId, pc.time))
        else Some(Move(s, x, Refused(LockException)))
  }

  /** After an insert that failed, another read tells a rival of the same saga from any other failure. */
  function ReadRivalStep(s: State, x: Id): Option<State>
    requires x in s.sessions
  {
    var session := s.sessions[x];
    if !session.pc.Clashed? then None
    else Some(Move(s, x, Refused(if RivalOf(s.rows, session) then OptimisticLockException else DbUpdateException)))
  }

  function Granted(s: State, x: Id, r: Id, l: Id, t: Time): State
    requires x in s.sessions && r in s.rows
  {
    var row := s.rows[r];
    Move(s, x, Locked(l)).(
      rows := s.rows[r := row.(lockId := Some(l), lockTime := Some(t))],
      locks := s.locks[l := Lock(r, x, t, row.version, row.content)])
  }

  /** The handler, and SetAsProcessed when it succeeds; the private copy only. */
  function WorkStep(s: State, x: Id, recorded: bool, isCompleted: bool, data: Option<Id>): Option<State>
    requires x in s.sessions
  {
    var session := s.sessions[x];
    if !session.pc.Locked? then None
    else
      var processed :=
        if recorded then session.found.processed + {session.context.messageId} else session.found.processed;
      Some(s.(sessions := s.sessions[x := session.(pc := Worked(session.pc.lockId),
                                                   work := Content(isCompleted, processed, data))]))
  }

  /** The read of ReleaseAsyncCore, by instance id; a mismatch throws and leaves the session free to try again. */
  function ReadForReleaseStep(s: State, x: Id): Option<State>
    requires x in s.sessions
  {
    var session := s.sessions[x];
    if !session.pc.Worked? then None
    else if session.instance in s.rows && s.rows[session.instance].lockId == Some(session.pc.lockId) then
      Some(Move(s, x, Matched(session.pc.lockId)))
    else Some(s)
  }

  /** The state bytes are written only for sagas that have a state type. */
  function Persisted(row: Row, session: Session): Content {
    session.work.(data := if session.key.sagaStateType.Some? then session.work.data else row.content.data)
  }

  /** SaveChangesAsync of ReleaseAsyncCore, on condition that LockId is still the session's. */
  function WriteReleaseStep(s: State, x: Id): Option<State>
    requires x in s.sessions
  {
    var session := s.sessions[x];
    if !session.pc.Matched? then None
    else
      var i := session.instance;
      if i in s.rows && s.rows[i].lockId == Some(session.pc.lockId) then
        var row := s.rows[i];
        Some(Move(s, x, Released(session.pc.lockId)).(
             rows := s.rows[i := Row(row.key, Persisted(row, session), None, None, row.version + 1)],
             log := s.log + [Commit(i, x, row.content, Persisted(row, session))]))
      else Some(Move(s, x, Worked(session.pc.lockId)))
  }

  function SessionStep(s: State, a: Action): Option<State>
    requires !a.Tick? && !a.Open? && a.session in s.sessions
  {
    match a
    case ReadForLock(x, r) => ReadForLockStep(s, x, r)
    case Stamp(x, l) => StampStep(s, x, l)
    case WriteLock(x) => WriteLockStep(s, x)
    case ReadRival(x) => ReadRivalStep(s, x)
    case Work(x, recorded, isCompleted, data) => WorkStep(s, x, recorded, isCompleted, data)
    case ReadForRelease(x) => ReadForReleaseStep(s, x)
    case WriteRelease(x) => WriteReleaseStep(s, x)
  }

  /** The state after action `a`, or None when `a` is not enabled. The clock never goes back. */
  function Next(s: State, a: Action): Option<State> {
    if a.Tick? then (if a.time < s.now then None else Some(s.(now := a.time)))
    else if a.Open? then OpenStep(s, a.session, a.context, a.descriptor, a.instance)
    else if a.session in s.sessions then SessionStep(s, a)
    else None
  }

  function Exec(lockMaxDuration: nat, run: seq<Action>): Option<State> {
    if run == [] then Some(Initial(lockMaxDuration))
    else
      match Exec(lockMaxDuration, run[..|run| - 1])
      case None => None
      case Some(s) => Next(s, run[|run| - 1])
  }
}
