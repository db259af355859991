/**
 EnsureTopologyAsync and DeleteAsync as a transition system: double-checked locking with one
 semaphore per key, any number of callers of either, and declarations that may fail. DeleteAsync
 ends with two steps: it forgets that the key is initialized, then discards its semaphore.
 */
module TopologyProtocol {
  import opened Messages

  type Key = string

  /** The exchanges, queues and bindings that one topology consists of. */
  const DECLARATIONS := 9

  datatype Pc =
    | Checking
    | Getting
    | Waiting(semaphore: Id)
    | Rechecking(semaphore: Id)
    | Declaring(semaphore: Id, done: nat)
    | Marking(semaphore: Id)
    | Releasing(semaphore: Id, failure: Option<Error>)
    | Forgetting
    | Discarding
    | Returned
    | Deleted
    | Threw(error: Error)

  datatype Caller = Caller(key: Key, pc: Pc)

  /**
   `semaphores` and `initialized` are the two static dictionaries, `holders` the semaphores ever created.
   History: the key each semaphore was created for, who completely declared a topology since it was last forgotten,
   which were ever declared, and whose semaphore was discarded while a caller was using it.
   */
  datatype State = State(
    semaphores: map<Key, Id>,
    holders: map<Id, Option<Id>>,
    initialized: set<Key>,
    callers: map<Id, Caller>,
    madeFor: map<Id, Key>,
    completed: map<Key, seq<Id>>,
    everDeclared: set<Key>,
    broken: set<Key>)

  const INITIAL := State(map[], map[], {}, map[], map[], map[], {}, {})

  datatype Action =
    | Call(caller: Id, key: Key)
    | Check(caller: Id)
    | Get(caller: Id, semaphore: Id)
    | Wait(caller: Id)
    | Recheck(caller: Id)
    | Declare(caller: Id)
    | Fail(caller: Id, error: Error)
    | Mark(caller: Id)
    | Release(caller: Id)
    | CallDelete(caller: Id, key: Key)
    | Forget(caller: Id)
    | Discard(caller: Id)

  function Move(s: State, c: Id, pc: Pc): State
    requires c in s.callers
  {
    s.(callers := s.callers[c := s.callers[c].(pc := pc)])
  }

  function Completed(s: State, key: Key): seq<Id> {
    if key in s.completed then s.completed[key] else []
  }

  function CheckStep(s: State, c: Id): Option<State>
    requires c in s.callers
  {
    if !s.callers[c].pc.Checking? then None
    else Some(Move(s, c, if s.callers[c].key in s.initialized then Returned else Getting))
  }

  /** GetOrAdd: the stored semaphore, or the new one. */
  function GetStep(s: State, c: Id, m: Id): Option<State>
    requires c in s.callers
  {
    var key := s.callers[c].key;
    if !s.callers[c].pc.Getting? then None
    else if key in s.semaphores then Some(Move(s, c, Waiting(s.semaphores[key])))
    else if m in s.holders || m in s.madeFor then None
    else
      Some(Move(s, c, Waiting(m)).(semaphores := s.semaphores[key := m], holders := s.holders[m := None],
                                   madeFor := s.madeFor[m := key]))
  }

  function WaitStep(s: State, c: Id): Option<State>
    requires c in s.callers
  {
    var pc := s.callers[c].pc;
    if !pc.Waiting? || pc.semaphore !in s.holders || s.holders[pc.semaphore].Some? then None
    else Some(Move(s, c, Rechecking(pc.semaphore)).(holders := s.holders[pc.semaphore := Some(c)]))
  }

  function RecheckStep(s: State, c: Id): Option<State>
    requires c in s.callers
  {
    var pc := s.callers[c].pc;
    if !pc.Rechecking? then None
    else if s.callers[c].key in s.initialized then Some(Move(s, c, Releasing(pc.semaphore, None)))
    else Some(Move(s, c, Declaring(pc.semaphore, 0)))
  }

  function DeclareStep(s: State, c: Id): Option<State>
    requires c in s.callers
  {
    var pc := s.callers[c].pc;
    var key := s.callers[c].key;
    if !pc.Declaring? then None
    else if pc.done + 1 < DECLARATIONS then Some(Move(s, c, Declaring(pc.semaphore, pc.done + 1)))
    else Some(Move(s, c, Marking(pc.semaphore))
              .(completed := s.completed[key := Completed(s, key) + [c]], everDeclared := s.everDeclared + {key}))
  }

  /** A declaration throws, or the wait is cancelled. */
  function FailStep(s: State, c: Id, e: Error): Option<State>
    requires c in s.callers
  {
    var pc := s.callers[c].pc;
    if pc.Declaring? then Some(Move(s, c, Releasing(pc.semaphore, Some(e))))
    else if pc.Waiting? then Some(Move(s, c, Threw(e)))
    else None
  }

  function MarkStep(s: State, c: Id): Option<State>
    requires c in s.callers
  {
    var pc := s.callers[c].pc;
    if !pc.Marking? then None
    else Some(Move(s, c, Releasing(pc.semaphore, None)).(initialized := s.initialized + {s.callers[c].key}))
  }

  function ReleaseStep(s: State, c: Id): Option<State>
    requires c in s.callers
  {
    var pc := s.callers[c].pc;
    if !pc.Releasing? then None
    else
      var after := if pc.failure.None? then Returned else Threw(pc.failure.value);
      Some(Move(s, c, after).(holders := s.holders[pc.semaphore := None]))
  }

  /** `_initialized.TryRemove`. */
  function ForgetStep(s: State, c: Id): Option<State>
    requires c in s.callers
  {
    var key := s.callers[c].key;
    if !s.callers[c].pc.Forgetting? then None
    else
      Some(Move(s, c, Discarding).(initialized := s.initialized - {key},
                                   completed := if key in s.initialized then s.completed - {key} else s.completed))
  }

  /** The caller may still use its semaphore to declare. */
  predicate Active(pc: Pc) {
    pc.Waiting? || Working(pc)
  }

  predicate Working(pc: Pc) {
    pc.Rechecking? || pc.Declaring? || pc.Marking?
  }

  predicate SomeoneActive(s: State, key: Key) {
    exists c :: c in s.callers && s.callers[c].key == key && Active(s.callers[c].pc)
  }

  /** `_semaphores.TryRemove`. */
  function DiscardStep(s: State, c: Id): Option<State>
    requires c in s.callers
  {
    var key := s.callers[c].key;
    if !s.callers[c].pc.Discarding? then None
    else
      Some(Move(s, c, Deleted).(semaphores := s.semaphores - {key},
                                 broken := if SomeoneActive(s, key) then s.broken + {key} else s.broken))
  }

  function Next(s: State, a: Action): Option<State> {
    if a.Call? || a.CallDelete? then
      var pc := if a.Call? then Checking else Forgetting;
      if a.caller in s.callers then None else Some(s.(callers := s.callers[a.caller := Caller(a.key, pc)]))
    else if a.caller !in s.callers then None
    else
      match a
      case Check(c) => CheckStep(s, c)
      case Get(c, m) => GetStep(s, c, m)
      case Wait(c) => WaitStep(s, c)
      case Recheck(c) => RecheckStep(s, c)
      case Declare(c) => DeclareStep(s, c)
      case Fail(c, e) => FailStep(s, c, e)
      case Mark(c) => MarkStep(s, c)
      case Release(c) => ReleaseStep(s, c)
      case Forget(c) => ForgetStep(s, c)
      case Discard(c) => DiscardStep(s, c)
  }

  function Exec(run: seq<Action>): Option<State> {
    if run == [] then Some(INITIAL)
    else
      match Exec(run[..|run| - 1])
      case None => None
      case Some(s) => Next(s, run[|run| - 1])
  }

  // ----- Invariant -----

  predicate Inside(pc: Pc) {
    Working(pc) || pc.Releasing?
  }

  predicate HasSemaphore(pc: Pc) {
    pc.Waiting? || Inside(pc)
  }

  /** A caller's semaphore is of its key, and the caller holds it exactly while it is inside. */
  predicate HoldsOk(s: State, c: Id)
    requires c in s.callers
  {
    var caller := s.callers[c];
    HasSemaphore(caller.pc) ==>
      && caller.pc.semaphore in s.holders && caller.pc.semaphore in s.madeFor
      && s.madeFor[caller.pc.semaphore] == caller.key
      && (Inside(caller.pc) <==> s.holders[caller.pc.semaphore] == Some(c))
  }

  /** Who holds a semaphore is a caller inside with it. */
  predicate HolderOk(s: State, m: Id)
    requires m in s.holders
  {
    && m in s.madeFor
    && (s.holders[m].Some? ==>
          var c := s.holders[m].value; c in s.callers && Inside(s.callers[c].pc) && s.callers[c].pc.semaphore == m)
  }

  /** Unless a semaphore of the key was discarded in use: whoever may still declare uses the key's one semaphore. */
  predicate KeyOk(s: State, c: Id)
    requires c in s.callers
  {
    var caller := s.callers[c];
    caller.key !in s.broken ==>
      && (Active(caller.pc) ==> caller.key in s.semaphores && s.semaphores[caller.key] == caller.pc.semaphore)
      && (caller.pc.Declaring? ==> caller.key !in s.initialized && Completed(s, caller.key) == [])
      && (caller.pc.Marking? ==> caller.key !in s.initialized && Completed(s, caller.key) == [c])
  }

  /** Nobody is through with a topology that was never declared. */
  predicate EverOk(s: State, c: Id)
    requires c in s.callers
  {
    var pc := s.callers[c].pc;
    pc.Returned? || pc.Marking? || (pc.Releasing? && pc.failure.None?) ==> s.callers[c].key in s.everDeclared
  }

  predicate CountOk(s: State, key: Key) {
    key !in s.broken ==>
      var who := Completed(s, key);
      && (key in s.initialized ==> |who| == 1)
      && |who| <= 1
      && (who != [] && key !in s.initialized ==>
            who[0] in s.callers && s.callers[who[0]].key == key && s.callers[who[0]].pc.Marking?)
  }

  predicate SemaphoreOk(s: State, key: Key) {
    key in s.semaphores ==>
      s.semaphores[key] in s.holders && s.semaphores[key] in s.madeFor && s.madeFor[s.semaphores[key]] == key
  }

  ghost predicate SemaphoresOk(s: State) {
    (forall m | m in s.holders :: HolderOk(s, m)) && (forall key | key in s.semaphores :: SemaphoreOk(s, key))
  }

  ghost predicate CallersOk(s: State) {
    forall c | c in s.callers :: HoldsOk(s, c) && KeyOk(s, c) && EverOk(s, c)
  }

  ghost predicate CountsOk(s: State) {
    forall key :: CountOk(s, key) && (key in s.initialized ==> key in s.everDeclared)
  }

  ghost predicate Inv(s: State) {
    CallersOk(s) && SemaphoresOk(s) && CountsOk(s)
  }

  lemma Exclusive(s: State, c: Id, d: Id)
    requires CallersOk(s) && c in s.callers && d in s.callers && s.callers[c].key == s.callers[d].key
    requires s.callers[c].key !in s.broken && Working(s.callers[c].pc) && Working(s.callers[d].pc)
    ensures c == d
  {
    assert HoldsOk(s, c) && HoldsOk(s, d) && KeyOk(s, c) && KeyOk(s, d);
  }

  /** At the re-check: no completed declaration if the key is not marked as initialized. */
  lemma NotYet(s: State, c: Id)
    requires Inv(s) && c in s.callers && s.callers[c].pc.Rechecking?
    requires s.callers[c].key !in s.initialized && s.callers[c].key !in s.broken
    ensures Completed(s, s.callers[c].key) == []
  {
    var who := Completed(s, s.callers[c].key);
    assert CountOk(s, s.callers[c].key);
    if who != [] {
      Exclusive(s, c, who[0]);
    }
  }

  predicate IsArrival(a: Action) {
    a.Call? || a.CallDelete?
  }

  /** The actions that lead a caller to its declarations. */
  predicate IsEntry(a: Action) {
    IsArrival(a) || a.Check? || a.Get? || a.Wait? || a.Recheck?
  }

  /** A caller other than the one that moves keeps its semaphore. */
  lemma OtherHolds(s: State, a: Action, s': State, d: Id)
    requires Next(s, a) == Some(s') && d in s.callers && a.caller != d && HoldsOk(s, d)
    requires !IsArrival(a) ==> a.caller in s.callers && HoldsOk(s, a.caller)
    ensures d in s'.callers && s'.callers[d] == s.callers[d] && HoldsOk(s', d)
  {
    hide SomeoneActive;
    if IsEntry(a) {
      hide DeclareStep, FailStep, MarkStep, ReleaseStep, ForgetStep, DiscardStep;
      assert d in s'.callers && s'.callers[d] == s.callers[d] && HoldsOk(s', d);
    } else {
      hide CheckStep, GetStep, WaitStep, RecheckStep;
      assert d in s'.callers && s'.callers[d] == s.callers[d] && HoldsOk(s', d);
    }
    hide Next;
  }

  /** The caller that moves is not at work for the same key. */
  lemma OtherKey(s: State, a: Action, s': State, d: Id)
    requires Next(s, a) == Some(s') && d in s.callers && a.caller != d && d in s'.callers
    requires s'.callers[d] == s.callers[d] && KeyOk(s, d)
    requires !IsArrival(a) ==> a.caller in s.callers
    requires !IsArrival(a) && s.callers[a.caller].key == s.callers[d].key && s.callers[d].key !in s.broken ==>
               !(Working(s.callers[a.caller].pc) && Working(s.callers[d].pc))
    ensures KeyOk(s', d)
  {
    if IsEntry(a) {
      hide DeclareStep, FailStep, MarkStep, ReleaseStep, ForgetStep, DiscardStep;
      assert KeyOk(s', d);
    } else {
      hide CheckStep, GetStep, WaitStep, RecheckStep;
      assert KeyOk(s', d);
    }
    hide Next;
  }

  lemma OtherEver(s: State, a: Action, s': State, d: Id)
    requires Next(s, a) == Some(s') && d in s.callers && d in s'.callers && s'.callers[d] == s.callers[d]
    requires EverOk(s, d)
    ensures EverOk(s', d)
  {
    hide SomeoneActive;
  }

  /** The caller that moves. */
  lemma ActorHolds(s: State, a: Action, s': State)
    requires !IsArrival(a) && a.caller in s.callers && Next(s, a) == Some(s')
    requires HoldsOk(s, a.caller) && SemaphoreOk(s, s.callers[a.caller].key)
    requires s.callers[a.caller].key in s.semaphores ==> HolderOk(s, s.semaphores[s.callers[a.caller].key])
    ensures HoldsOk(s', a.caller)
  {
    hide SomeoneActive;
  }

  lemma ActorKey(s: State, a: Action, s': State)
    requires !IsArrival(a) && a.caller in s.callers && Next(s, a) == Some(s') && KeyOk(s, a.caller)
    requires a.Recheck? && s.callers[a.caller].key !in s.initialized && s.callers[a.caller].key !in s.broken ==>
               Completed(s, s.callers[a.caller].key) == []
    ensures KeyOk(s', a.caller)
  {
    hide SomeoneActive;
  }

  lemma ActorEver(s: State, a: Action, s': State)
    requires !IsArrival(a) && a.caller in s.callers && Next(s, a) == Some(s') && EverOk(s, a.caller)
    requires s.callers[a.caller].key in s.initialized ==> s.callers[a.caller].key in s.everDeclared
    ensures EverOk(s', a.caller)
  {
    hide SomeoneActive, Completed;
  }

  lemma ActorStays(s: State, a: Action, s': State)
    requires Inv(s) && !IsArrival(a) && a.caller in s.callers && Next(s, a) == Some(s')
    ensures HoldsOk(s', a.caller) && KeyOk(s', a.caller) && EverOk(s', a.caller)
  {
    var c := a.caller;
    var key := s.callers[c].key;
    assert HoldsOk(s, c) && KeyOk(s, c) && EverOk(s, c) && SemaphoreOk(s, key) && CountOk(s, key);
    assert key in s.semaphores ==> HolderOk(s, s.semaphores[key]);
    if a.Recheck? && s.callers[c].pc.Rechecking? && key !in s.initialized && key !in s.broken {
      NotYet(s, c);
    }
    hide CallersOk, SemaphoresOk, HoldsOk, KeyOk, EverOk, HolderOk, SemaphoreOk, CountOk;
    ActorHolds(s, a, s');
    RecheckOnly(s, a);
    ActorKey(s, a, s');
    ActorEver(s, a, s');
  }

  lemma RecheckOnly(s: State, a: Action)
    requires a.caller in s.callers && Next(s, a).Some?
    ensures a.Recheck? ==> s.callers[a.caller].pc.Rechecking?
  {
    hide SomeoneActive;
  }

  lemma NewCaller(s: State, a: Action, s': State)
    requires IsArrival(a) && Next(s, a) == Some(s')
    ensures a.caller in s'.callers && HoldsOk(s', a.caller) && KeyOk(s', a.caller) && EverOk(s', a.caller)
  {
  }

  lemma OthersStay(s: State, a: Action, s': State, d: Id)
    requires Inv(s) && Next(s, a) == Some(s') && d in s.callers && a.caller != d
    ensures d in s'.callers && HoldsOk(s', d) && KeyOk(s', d) && EverOk(s', d)
  {
    assert HoldsOk(s, d) && KeyOk(s, d) && EverOk(s, d);
    if !IsArrival(a) {
      var c := a.caller;
      ActorExists(s, a);
      assert HoldsOk(s, c);
      if s.callers[c].key == s.callers[d].key && s.callers[d].key !in s.broken && Working(s.callers[c].pc)
        && Working(s.callers[d].pc) {
        Exclusive(s, c, d);
      }
    }
    hide Inv, Next, KeyOk, HoldsOk, EverOk;
    OtherHolds(s, a, s', d);
    OtherKey(s, a, s', d);
    OtherEver(s, a, s', d);
  }

  lemma ActorExists(s: State, a: Action)
    requires !IsArrival(a) && Next(s, a).Some?
    ensures a.caller in s.callers
  {
  }

  lemma ActorIs(s: State, a: Action)
    requires Next(s, a).Some?
    ensures a.caller in s.callers <==> !IsArrival(a)
  {
    hide SomeoneActive, CheckStep, GetStep, WaitStep, RecheckStep, DeclareStep, FailStep, MarkStep, ReleaseStep,
      ForgetStep, DiscardStep;
  }

  lemma SameCallers(s: State, a: Action, s': State)
    requires Next(s, a) == Some(s')
    ensures s'.callers.Keys == s.callers.Keys + {a.caller} && (a.caller in s.callers <==> !IsArrival(a))
  {
    ActorIs(s, a);
    hide SomeoneActive, Completed;
  }

  lemma StepCallers(s: State, a: Action, s': State)
    requires Inv(s) && Next(s, a) == Some(s')
    ensures CallersOk(s')
  {
    SameCallers(s, a, s');
    hide Next, Inv, HoldsOk, KeyOk, EverOk;
    forall d | d in s'.callers
      ensures HoldsOk(s', d) && KeyOk(s', d) && EverOk(s', d)
    {
      if d != a.caller {
        OthersStay(s, a, s', d);
      } else if IsArrival(a) {
        NewCaller(s, a, s');
      } else {
        ActorStays(s, a, s');
      }
    }
  }

  lemma CountStaysAtEntry(s: State, a: Action, s': State, key: Key)
    requires IsEntry(a) && Next(s, a) == Some(s') && CountOk(s, key)
    requires !IsArrival(a) ==> a.caller in s.callers
    ensures CountOk(s', key)
  {
    hide SomeoneActive, DeclareStep, FailStep, MarkStep, ReleaseStep, ForgetStep, DiscardStep;
  }

  lemma CountStaysLater(s: State, a: Action, s': State, key: Key)
    requires !IsEntry(a) && a.caller in s.callers && KeyOk(s, a.caller) && Next(s, a) == Some(s') && CountOk(s, key)
    ensures CountOk(s', key)
  {
    hide SomeoneActive, CheckStep, GetStep, WaitStep, RecheckStep;
  }

  lemma CountStays(s: State, a: Action, s': State, key: Key)
    requires Next(s, a) == Some(s') && CountOk(s, key)
    requires !IsArrival(a) ==> a.caller in s.callers && KeyOk(s, a.caller)
    ensures CountOk(s', key)
  {
    hide Next, CountOk, KeyOk;
    if IsEntry(a) {
      CountStaysAtEntry(s, a, s', key);
    } else {
      CountStaysLater(s, a, s', key);
    }
  }

  lemma EverStays(s: State, a: Action, s': State, key: Key)
    requires Next(s, a) == Some(s') && (key in s.initialized ==> key in s.everDeclared)
    requires !IsArrival(a) ==> a.caller in s.callers && EverOk(s, a.caller)
    ensures key in s'.initialized ==> key in s'.everDeclared
  {
    hide SomeoneActive, Completed;
  }

  lemma StepCounts(s: State, a: Action, s': State)
    requires Inv(s) && Next(s, a) == Some(s')
    ensures CountsOk(s')
  {
    SameCallers(s, a, s');
    forall key
      ensures CountOk(s', key) && (key in s'.initialized ==> key in s'.everDeclared)
    {
      assert CountOk(s, key);
      if !IsArrival(a) {
        assert KeyOk(s, a.caller) && EverOk(s, a.caller);
      }
      hide CallersOk, SemaphoresOk, Next, KeyOk, EverOk, CountOk;
      CountStays(s, a, s', key);
      EverStays(s, a, s', key);
    }
  }

  lemma HolderStays(s: State, a: Action, s': State, m: Id)
    requires Next(s, a) == Some(s') && m in s'.holders && (m in s.holders ==> HolderOk(s, m))
    requires !IsArrival(a) ==> a.caller in s.callers && HoldsOk(s, a.caller)
    ensures HolderOk(s', m)
  {
    hide SomeoneActive;
    if IsEntry(a) {
      hide DeclareStep, FailStep, MarkStep, ReleaseStep, ForgetStep, DiscardStep;
      assert HolderOk(s', m);
    } else {
      hide CheckStep, GetStep, WaitStep, RecheckStep;
      assert HolderOk(s', m);
    }
    hide Next;
  }

  lemma SemaphoreStays(s: State, a: Action, s': State, key: Key)
    requires Next(s, a) == Some(s') && SemaphoreOk(s, key)
    ensures SemaphoreOk(s', key)
  {
    hide SomeoneActive;
    if IsEntry(a) {
      hide DeclareStep, FailStep, MarkStep, ReleaseStep, ForgetStep, DiscardStep;
      assert SemaphoreOk(s', key);
    } else {
      hide CheckStep, GetStep, WaitStep, RecheckStep;
      assert SemaphoreOk(s', key);
    }
    hide Next;
  }

  lemma StepSemaphores(s: State, a: Action, s': State)
    requires Inv(s) && Next(s, a) == Some(s')
    ensures SemaphoresOk(s')
  {
    SameCallers(s, a, s');
    forall m | m in s'.holders
      ensures HolderOk(s', m)
    {
      assert m in s.holders ==> HolderOk(s, m);
      if !IsArrival(a) {
        assert HoldsOk(s, a.caller);
      }
      hide Inv, Next;
      HolderStays(s, a, s', m);
    }
    forall key | key in s'.semaphores
      ensures SemaphoreOk(s', key)
    {
      assert SemaphoreOk(s, key);
      hide Inv, Next;
      SemaphoreStays(s, a, s', key);
    }
  }

  lemma StepKeeps(s: State, a: Action, s': State)
    requires Inv(s) && Next(s, a) == Some(s')
    ensures Inv(s')
  {
    hide CallersOk, SemaphoresOk, CountsOk, Next;
    StepCallers(s, a, s');
    StepCounts(s, a, s');
    StepSemaphores(s, a, s');
  }

  lemma {:induction false} RunsKeep(run: seq<Action>)
    requires Exec(run).Some?
    ensures Inv(Exec(run).value)
  {
    if run != [] {
      RunsKeep(run[..|run| - 1]);
      hide Inv, Next;
      StepKeeps(Exec(run[..|run| - 1]).value, run[|run| - 1], Exec(run).value);
    }
  }
}
