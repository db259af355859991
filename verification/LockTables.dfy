/**
 The two lock tables of the in-memory saga repository, as values.

 `T` is whatever the tables refer to: heap objects in the class
 `InMemorySagaStateRepository`, instance ids in the concurrent protocol.
 */
module LockTables {
  import opened Messages

  datatype Entry<+T> = Entry(state: T, lockId: Option<Id>)

  datatype Tables<T> = Tables(byId: map<Id, Entry<T>>, byKey: map<SagaKey, Entry<T>>)

  datatype LockResult<T> = Granted(tables: Tables<T>) | AlreadyLocked | Conflict

  /** The critical section of LockAsync. */
  function TryLock<T>(t: Tables<T>, state: T, instanceId: Id, key: SagaKey, lockId: Id): LockResult<T> {
    if instanceId in t.byId && t.byId[instanceId].lockId.Some? then AlreadyLocked
    else if key in t.byKey && t.byKey[key].lockId.Some? then Conflict
    else
      var entry := Entry(state, Some(lockId));
      Granted(Tables(t.byId[instanceId := entry], t.byKey[key := entry]))
  }

  /**
   The critical section of ReleaseAsync; None is the LockException. The code reads the
   instance's LockId twice, to guard the check and in the comparison, and the instance
   is not protected by the repository's lock: `guard` and `compared` are the two reads.
   */
  function TryRelease<T>(t: Tables<T>, state: T, instanceId: Id, key: SagaKey, guard: LockField, compared: LockField)
    : Option<Tables<T>>
  {
    if guard.Guid? && instanceId in t.byId && t.byId[instanceId].lockId.Some?
      && compared != Guid(t.byId[instanceId].lockId.value)
    then None
    else
      var entry := Entry(state, None);
      Some(Tables(t.byId[instanceId := entry], t.byKey[key := entry]))
  }
}
