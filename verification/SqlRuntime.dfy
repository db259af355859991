/**
 The SQL saga repository as classes: LockAsyncCore and ReleaseAsyncCore work on a tracked
 entity and save it, and their effect on the table is that of the protocol's steps.

 What other sessions do between the read and the save is a parameter (`others`, the table
 they leave), as are the clock and fresh GUIDs.
 */
module SqlRuntime {
  import opened Messages
  import opened SagaRuntime
  import opened SqlProtocol

  /** A row, as an entity that the context tracks. */
  class SagaState {
    const instanceId: Id
    const key: SagaKey
    var stateData: Option<Id>
    var isCompleted: bool
    var processedMessages: set<Id>
    var lockId: Option<Id>
    var lockTime: Option<Time>

    constructor (instanceId: Id, key: SagaKey, isCompleted: bool)
      ensures this.instanceId == instanceId && this.key == key && Content() == NEW_CONTENT.(isCompleted := isCompleted)
      ensures lockId == None && lockTime == None
    {
      this.instanceId, this.key, this.isCompleted := instanceId, key, isCompleted;
      stateData, processedMessages, lockId, lockTime := None, {}, None, None;
    }

    constructor Load(instanceId: Id, row: Row)
      ensures this.instanceId == instanceId && key == row.key && Content() == row.content
      ensures lockId == row.lockId && lockTime == row.lockTime
    {
      this.instanceId, key := instanceId, row.key;
      isCompleted, processedMessages, stateData := row.content.isCompleted, row.content.processed, row.content.data;
      lockId, lockTime := row.lockId, row.lockTime;
    }

    function Content(): Content
      reads this
    {
      SqlProtocol.Content(isCompleted, processedMessages, stateData)
    }
  }

  /** A changed column is written; one that is as it was loaded keeps what the table has. */
  function Column<T(==)>(loaded: T, current: T, stored: T): T {
    if current == loaded then stored else current
  }

  class SagaDbContext {
    var rows: map<Id, Row>

    constructor (rows: map<Id, Row>)
      ensures this.rows == rows
    {
      this.rows := rows;
    }

    /** The entity of some row that the lock query matches. */
    method FindForLock(state: SagaInstance) returns (entity: SagaState?)
      ensures entity == null <==> !exists r :: r in rows && Matches(rows[r], r, SessionOf(state))
      ensures entity != null ==> fresh(entity) && entity.instanceId in rows && Loaded(entity, rows[entity.instanceId])
                                 && Matches(rows[entity.instanceId], entity.instanceId, SessionOf(state))
    {
      if r :| r in rows && Matches(rows[r], r, SessionOf(state)) {
        entity := new SagaState.Load(r, rows[r]);
      } else {
        entity := null;
      }
    }

    /** SaveChangesAsync for an added entity: the primary key and the unique index decide. */
    method Insert(entity: SagaState) returns (error: Option<Error>)
      modifies this
      ensures if entity.instanceId in old(rows) || Indexed(old(rows), entity.key) then
                error == Some(DbUpdateException) && rows == old(rows)
              else
                && error.None?
                && rows == old(rows)[entity.instanceId :=
                                       Row(entity.key, entity.Content(), entity.lockId, entity.lockTime, 0)]
    {
      if entity.instanceId in rows || exists r :: r in rows && SameIndex(rows[r].key, entity.key) {
        return Some(DbUpdateException);
      }
      rows := rows[entity.instanceId := Row(entity.key, entity.Content(), entity.lockId, entity.lockTime, 0)];
      return None;
    }

    /** SaveChangesAsync for a changed entity, `loaded` as it was read: the concurrency token decides. */
    method Update(entity: SagaState, loaded: Row) returns (error: Option<Error>)
      modifies this
      ensures if entity.instanceId in old(rows) && old(rows)[entity.instanceId].lockId == loaded.lockId then
                && error.None?
                && rows == old(rows)[entity.instanceId := Merged(entity, loaded, old(rows)[entity.instanceId])]
              else error == Some(DbUpdateConcurrencyException) && rows == old(rows)
      ensures error.None? ==>
                var saved, stored := rows[entity.instanceId], old(rows)[entity.instanceId];
                && saved.lockId == entity.lockId && saved.lockTime == entity.lockTime && saved.key == stored.key
                && saved.content.isCompleted
                   == (if entity.isCompleted != loaded.content.isCompleted then entity.isCompleted
                       else stored.content.isCompleted)
                && saved.content.processed
                   == (if entity.processedMessages != loaded.content.processed then entity.processedMessages
                       else stored.content.processed)
                && saved.content.data
                   == (if entity.stateData != loaded.content.data then entity.stateData else stored.content.data)
    {
      if entity.instanceId !in rows || rows[entity.instanceId].lockId != loaded.lockId {
        return Some(DbUpdateConcurrencyException);
      }
      rows := rows[entity.instanceId := Merged(entity, loaded, rows[entity.instanceId])];
      return None;
    }
  }

  predicate SameIndex(k: SagaKey, l: SagaKey) {
    k.correlationId == l.correlationId && k.sagaType == l.sagaType
  }

  function MergedContent(loaded: Content, current: Content, stored: Content): Content {
    Content(Column(loaded.isCompleted, current.isCompleted, stored.isCompleted),
            Column(loaded.processed, current.processed, stored.processed),
            Column(loaded.data, current.data, stored.data))
  }

  /** The lock columns are always written, and always together. */
  function Merged(entity: SagaState, loaded: Row, stored: Row): Row
    reads entity
  {
    Row(stored.key,
        MergedContent(loaded.content, entity.Content(), stored.content),
        entity.lockId, entity.lockTime,
        stored.version + (if entity.lockId.None? then 1 else 0))
  }

  predicate Loaded(entity: SagaState, row: Row)
    reads entity
  {
    entity.key == row.key && entity.Content() == row.content && entity.lockId == row.lockId
      && entity.lockTime == row.lockTime
  }

  /** The query of LockAsyncCore: the instance itself, or any with its correlation id; of its saga in either case. */
  predicate Queried(key: SagaKey, r: Id, state: SagaInstance) {
    && (r == state.instanceId || key.correlationId == state.correlationId)
    && key.sagaType == state.descriptor.sagaType && key.sagaStateType == state.descriptor.sagaStateType
  }

  /** The session of the protocol whose private copy is `state`. */
  function SessionOf(state: SagaInstance): Session {
    var context := MessageContext(state.triggerMessageId, state.correlationId, "");
    Session(context, state.Key(), state.instanceId, NEW_CONTENT, NEW_CONTENT, 0, Opened)
  }

  // ----- What the writes do to the table -----

  /** The write of LockAsyncCore on the table `rows`. */
  function LockWrite(rows: map<Id, Row>, key: SagaKey, i: Id, isCompleted: bool, target: Option<Id>,
                     original: Option<Id>, l: Id, t: Time)
    : Result<map<Id, Row>>
  {
    match target
    case None =>
      if i in rows || Indexed(rows, key) then Failure(DbUpdateException)
      else Success(rows[i := Row(key, NEW_CONTENT.(isCompleted := isCompleted), Some(l), Some(t), 0)])
    case Some(r) =>
      if r in rows && rows[r].lockId == original
        then Success(rows[r := rows[r].(lockId := Some(l), lockTime := Some(t))])
      else Failure(LockException)
  }

  /** The protocol's step is that write: LockAsyncCore returns the lock id exactly when the step grants it. */
  lemma WriteLockIs(s: State, x: Id)
    requires x in s.sessions && s.sessions[x].pc.Stamped?
    ensures var session := s.sessions[x];
            var pc := session.pc;
            var s' := WriteLockStep(s, x).value;
            WriteLockStep(s, x).Some? && x in s'.sessions &&
            match LockWrite(s.rows, session.key, session.instance, false, pc.target, pc.original, pc.lockId, pc.time)
            case Success(rows) => s'.rows == rows && s'.sessions[x].pc == Locked(pc.lockId)
            case Failure(e) =>
              s'.rows == s.rows && s'.sessions[x].pc == if e == DbUpdateException then Clashed else Refused(e)
  {
  }

  /** What a failed insert makes of the table it reads next. */
  function RivalError(rows: map<Id, Row>, key: SagaKey, i: Id): Error {
    if exists r :: r in rows && rows[r].key == key && r != i then OptimisticLockException else DbUpdateException
  }

  lemma ReadRivalIs(s: State, x: Id)
    requires x in s.sessions && s.sessions[x].pc.Clashed?
    ensures var session := s.sessions[x];
            ReadRivalStep(s, x) == Some(Move(s, x, Refused(RivalError(s.rows, session.key, session.instance))))
  {
  }

  /** The write of ReleaseAsyncCore: the whole content, and a free row. */
  function ReleaseWrite(rows: map<Id, Row>, i: Id, l: Option<Id>, content: Content): Option<map<Id, Row>> {
    if i in rows && rows[i].lockId == l then Some(rows[i := Row(rows[i].key, content, None, None, rows[i].version + 1)])
    else None
  }

  /** What the protocol's release persists is what ReleaseAsyncCore saves of the session's instance. */
  lemma PersistedIsSaved(row: Row, session: Session, state: SagaInstance)
    requires IsCopy(session, state)
    ensures Persisted(row, session) == Saved(state, session.work.data, row.content.data)
  {
  }

  /** `state` is the session's private instance, as its handler left it. */
  predicate IsCopy(session: Session, state: SagaInstance)
    reads state
  {
    && state.instanceId == session.instance && state.Key() == session.key
    && state.isCompleted == session.work.isCompleted && state.processedMessages == session.work.processed
  }

  /** The protocol's step is that write, of what ReleaseAsyncCore saves of the session's instance. */
  lemma WriteReleaseIs(s: State, x: Id, state: SagaInstance)
    requires x in s.sessions && s.sessions[x].pc.Matched? && IsCopy(s.sessions[x], state)
    ensures var session := s.sessions[x];
            var i := session.instance;
            var s' := WriteReleaseStep(s, x).value;
            WriteReleaseStep(s, x).Some? && x in s'.sessions &&
            match ReleaseWrite(s.rows, i, Some(session.pc.lockId),
                               if i in s.rows then Saved(state, session.work.data, s.rows[i].content.data)
                               else NEW_CONTENT)
            case Some(rows) => s'.rows == rows && s'.sessions[x].pc.Released?
            case None => s'.rows == s.rows && s'.sessions[x].pc.Worked?
  {
    if s.sessions[x].instance in s.rows {
      PersistedIsSaved(s.rows[s.sessions[x].instance], s.sessions[x], state);
    }
    hide Persisted, Saved;
  }

  /** The protocol's read before it matches exactly where ReleaseAsyncCore goes on. */
  lemma ReadForReleaseIs(s: State, x: Id)
    requires x in s.sessions && s.sessions[x].pc.Worked?
    ensures var i, l := s.sessions[x].instance, s.sessions[x].pc.lockId;
            ReadForReleaseStep(s, x)
            == Some(if i in s.rows && SameLock(s.rows[i].lockId, Guid(l)) then Move(s, x, Matched(l)) else s)
  {
  }

  /** The protocol's read for a lock refuses exactly where LockAsyncCore does. */
  lemma ReadForLockIs(s: State, x: Id, r: Id)
    requires x in s.sessions && s.sessions[x].pc.Opened? && r in s.rows && Matches(s.rows[r], r, s.sessions[x])
    ensures ReadForLockStep(s, x, Some(r)) == Some(Move(s, x, Refused(LockException)))
            <==> Unexpired(s.rows[r], s.now, s.lockMaxDuration)
    ensures ReadForLockStep(s, x, Some(r)) == Some(Move(s, x, Checked(Some(r), s.rows[r].lockId)))
            <==> !Unexpired(s.rows[r], s.now, s.lockMaxDuration)
  {
    var checked := Checked(Some(r), s.rows[r].lockId);
    assert Move(s, x, Refused(LockException)).sessions[x].pc != Move(s, x, checked).sessions[x].pc;
  }

  class SqlSagaStateRepository {
    const dbContext: SagaDbContext
    const lockMaxDuration: nat

    constructor (dbContext: SagaDbContext, lockMaxDuration: nat)
      ensures this.dbContext == dbContext && this.lockMaxDuration == lockMaxDuration
    {
      this.dbContext, this.lockMaxDuration := dbContext, lockMaxDuration;
    }

    /** `target` is the row that the query returned, and `later` the table after an insert that failed. */
    method LockAsyncCore(state: SagaInstance, now: Time, stamp: Time, guid: Id, others: map<Id, Row>,
                         later: map<Id, Row>)
      returns (r: Result<Id>, ghost target: Option<Id>)
      modifies dbContext
      ensures match target
              case None => !exists q :: q in old(dbContext.rows) && Queried(old(dbContext.rows)[q].key, q, state)
              case Some(q) => q in old(dbContext.rows) && Queried(old(dbContext.rows)[q].key, q, state)
      // a lock younger than lockMaxDuration refuses and is not touched
      ensures var read := old(dbContext.rows);
              target.Some? && read[target.value].lockId.Some? && read[target.value].lockTime.Some?
              && now < read[target.value].lockTime.value + lockMaxDuration ==>
                r == Failure(LockException) && dbContext.rows == read
      // an older one never does, where nobody else comes between the read and the save
      ensures var read := old(dbContext.rows);
              target.Some? && others == read
              && (read[target.value].lockId.None? || read[target.value].lockTime.None?
                  || read[target.value].lockTime.value + lockMaxDuration <= now) ==>
                r == Success(guid)
      // a lock that is taken over is at least lockMaxDuration older than the one that is written
      ensures var read := old(dbContext.rows);
              r.Success? && target.Some? ==>
                var row := target.value;
                && row in dbContext.rows && dbContext.rows[row].lockId == Some(guid)
                && dbContext.rows[row].lockTime == Some(stamp)
                && (read[row].lockId.Some? && read[row].lockTime.Some? && now <= stamp ==>
                      read[row].lockTime.value + lockMaxDuration <= stamp)
      ensures var read := old(dbContext.rows);
              if target.Some? && Unexpired(read[target.value], now, lockMaxDuration) then
                r == Failure(LockException) && dbContext.rows == read
              else
                var original := if target.Some? then read[target.value].lockId else None;
                match LockWrite(others, state.Key(), state.instanceId, state.isCompleted, target, original, guid, stamp)
                case Success(rows) => r == Success(guid) && dbContext.rows == rows
                case Failure(e) =>
                  if e == DbUpdateException then
                    r == Failure(RivalError(later, state.Key(), state.instanceId)) && dbContext.rows == later
                  else r == Failure(e) && dbContext.rows == others
    {
      var error: Option<Error>;
      var entity := dbContext.FindForLock(state);
      if entity == null {
        target := None;
        var added := new SagaState(state.instanceId, state.Key(), state.isCompleted);
        added.lockTime := Some(stamp);
        added.lockId := Some(guid);
        dbContext.rows := others;
        error := dbContext.Insert(added);
      } else {
        target := Some(entity.instanceId);
        var loaded := dbContext.rows[entity.instanceId];
        if entity.lockId.Some? && entity.lockTime.Some? && entity.lockTime.value > now - lockMaxDuration {
          return Failure(LockException), target;
        }
        entity.lockTime := Some(stamp);
        entity.lockId := Some(guid);
        dbContext.rows := others;
        error := dbContext.Update(entity, loaded);
      }
      if error == Some(DbUpdateConcurrencyException) {
        return Failure(LockException), target;
      }
      if error == Some(DbUpdateException) {
        dbContext.rows := later;
        if exists q :: q in dbContext.rows && dbContext.rows[q].key == state.Key() && q != state.instanceId {
          return Failure(OptimisticLockException), target;
        }
        return Failure(DbUpdateException), target;
      }
      return Success(guid), target;
    }

    /**
     `data` is the serialised state. While a row carries the lock that was read its content stays
     (SqlTheorems.Isolation), and then the save is the protocol's write.
     */
    method ReleaseAsyncCore(state: SagaInstance, data: Option<Id>, others: map<Id, Row>) returns (error: Option<Error>)
      modifies dbContext
      // only the holder's own GUID releases a locked row; an erased LockId releases none
      ensures error.None? ==>
                && state.instanceId in old(dbContext.rows)
                && match state.lockId
                   case Guid(l) => old(dbContext.rows)[state.instanceId].lockId == Some(l)
                   case Null => old(dbContext.rows)[state.instanceId].lockId.None?
                   case Empty => false
      ensures var read, i := old(dbContext.rows), state.instanceId;
              if i !in read then error == Some(ArgumentException) && dbContext.rows == read
              else if !SameLock(read[i].lockId, state.lockId)
                then error == Some(LockException) && dbContext.rows == read
              else if i !in others || others[i].lockId != read[i].lockId then
                error == Some(DbUpdateConcurrencyException) && dbContext.rows == others
              else
                && error.None? && i in dbContext.rows && dbContext.rows == others[i := dbContext.rows[i]]
                && dbContext.rows[i].lockId.None? && dbContext.rows[i].lockTime.None?
                && dbContext.rows[i] == Row(others[i].key,
                                            MergedContent(read[i].content, Saved(state, data, read[i].content.data),
                                                          others[i].content),
                                            None, None, others[i].version + 1)
                && (others[i].content == read[i].content ==>
                      ReleaseWrite(others, i, read[i].lockId, Saved(state, data, read[i].content.data))
                        == Some(dbContext.rows))
    {
      if state.instanceId !in dbContext.rows {
        return Some(ArgumentException);
      }
      var loaded := dbContext.rows[state.instanceId];
      var entity := new SagaState.Load(state.instanceId, loaded);
      if !SameLock(entity.lockId, state.lockId) {
        return Some(LockException);
      }
      entity.lockTime := None;
      entity.lockId := None;
      entity.isCompleted := state.isCompleted;
      CopyMessages(state, entity);
      if state.descriptor.sagaStateType.Some? {
        entity.stateData := data;
      }
      dbContext.rows := others;
      error := dbContext.Update(entity, loaded);
    }

    /** The processed messages of the entity are cleared and filled again. */
    method CopyMessages(state: SagaInstance, entity: SagaState)
      modifies entity`processedMessages
      ensures entity.processedMessages == state.processedMessages
    {
      entity.processedMessages := {};
      var rest := state.processedMessages;
      while rest != {}
        invariant rest <= state.processedMessages && entity.processedMessages == state.processedMessages - rest
        decreases |rest|
      {
        var message :| message in rest;
        entity.processedMessages := entity.processedMessages + {message};
        rest := rest - {message};
      }
    }
  }

  /** What a release saves of an instance. */
  function Saved(state: SagaInstance, data: Option<Id>, before: Option<Id>): Content
    reads state
  {
    Content(state.isCompleted, state.processedMessages, if state.descriptor.sagaStateType.Some? then data else before)
  }

  predicate Unexpired(row: Row, now: Time, lockMaxDuration: nat) {
    row.lockId.Some? && row.lockTime.Some? && row.lockTime.value > now - lockMaxDuration
  }

  /** The comparison of an instance's LockId with the column: null equals null, and the empty string equals neither. */
  predicate SameLock(column: Option<Id>, lockId: LockField) {
    match lockId
    case Null => column.None?
    case Empty => false
    case Guid(l) => column == Some(l)
  }
}
