/**
 Topologies are created once, whatever declarations fail; and exactly which deletions break that.
 */
module TopologyTheorems {
  import opened Messages
  import opened TopologyProtocol

  predicate Declares(s: State, c: Id, key: Key) {
    c in s.callers && s.callers[c].key == key && (s.callers[c].pc.Declaring? || s.callers[c].pc.Marking?)
  }

  /** At most one caller declares the topology. */
  ghost predicate OneDeclares(s: State, key: Key) {
    forall c, d | Declares(s, c, key) && Declares(s, d, key) :: c == d
  }

  /**
   Created once: unless a semaphore of the key was discarded while a caller was using it, at most one caller declares
   the topology at any time, and at most one declaration has completed since it was last forgotten.
   */
  lemma DeclaredOnce(run: seq<Action>, key: Key)
    requires Exec(run).Some? && key !in Exec(run).value.broken
    ensures OneDeclares(Exec(run).value, key) && |Completed(Exec(run).value, key)| <= 1
  {
    RunsKeep(run);
    var s := Exec(run).value;
    assert CountOk(s, key);
    forall c, d | Declares(s, c, key) && Declares(s, d, key)
      ensures c == d
    {
      Exclusive(s, c, d);
    }
  }

  /** In every run, with any deletions: a caller returns normally only after the topology was completely declared. */
  lemma ReturnsDeclared(run: seq<Action>, c: Id)
    requires Exec(run).Some? && c in Exec(run).value.callers && Exec(run).value.callers[c].pc.Returned?
    ensures Exec(run).value.callers[c].key in Exec(run).value.everDeclared
  {
    RunsKeep(run);
    assert EverOk(Exec(run).value, c);
  }

  /** A topology is recorded as declared in the one step that completes its ninth declaration. */
  lemma DeclaredByStep(s: State, a: Action, s': State, key: Key)
    requires Next(s, a) == Some(s')
    ensures key in s'.everDeclared && key !in s.everDeclared <==>
            && key !in s.everDeclared && a.Declare? && a.caller in s.callers && s.callers[a.caller].key == key
            && s.callers[a.caller].pc.Declaring? && s.callers[a.caller].pc.done + 1 >= DECLARATIONS
  {
    hide SomeoneActive;
  }

  /** The caller is past its first check, and on its way to the semaphore or inside. */
  predicate Missed(s: State, c: Id) {
    c in s.callers && (s.callers[c].pc.Getting? || HasSemaphore(s.callers[c].pc))
  }

  lemma StepMissed(s: State, a: Action, s': State, c: Id)
    requires Next(s, a) == Some(s') && Missed(s', c)
    ensures c in s.callers
    ensures Missed(s, c) || (a == Check(c) && s.callers[c].key !in s.initialized)
  {
    hide SomeoneActive;
  }

  /** The first check: whoever comes to the semaphore had found the topology not initialized. */
  lemma {:induction false} MissedBefore(run: seq<Action>, c: Id) returns (j: nat)
    requires Exec(run).Some? && Missed(Exec(run).value, c)
    ensures j < |run| && run[j] == Check(c) && Exec(run[..j]).Some?
    ensures var s := Exec(run[..j]).value; c in s.callers && s.callers[c].key !in s.initialized
  {
    var before := run[..|run| - 1];
    j := |before|;
    StepMissed(Exec(before).value, run[j], Exec(run).value, c);
    hide Next, Missed;
    if Missed(Exec(before).value, c) {
      j := MissedBefore(before, c);
      assert before[..j] == run[..j];
    }
  }

  // ----- DeleteAsync -----

  lemma Go(run: seq<Action>, s: State, a: Action, s': State) returns (run': seq<Action>)
    requires Exec(run) == Some(s) && Next(s, a) == Some(s')
    ensures run' == run + [a] && Exec(run') == Some(s')
  {
    run' := run + [a];
    assert run'[..|run|] == run;
  }

  /** The steps that discard a semaphore of the key; a caller never changes its key. */
  predicate Discards(s: State, a: Action, key: Key) {
    a.Discard? && a.caller in s.callers && s.callers[a.caller].key == key
  }

  /** `more`, run after `run`, discards no semaphore of the key. */
  ghost predicate KeepsSemaphore(run: seq<Action>, more: seq<Action>, key: Key)
    requires Exec(run + more).Some?
  {
    forall a | a in more :: !Discards(Exec(run + more).value, a, key)
  }

  lemma StepBreaks(s: State, a: Action, s': State, key: Key)
    requires Next(s, a) == Some(s')
    ensures key in s'.broken <==> key in s.broken || (Discards(s, a, key) && SomeoneActive(s, key))
  {
    hide SomeoneActive;
  }

  lemma KeyStaysAtEntry(s: State, a: Action, s': State, c: Id)
    requires IsEntry(a) && Next(s, a) == Some(s') && c in s.callers
    ensures c in s'.callers && s'.callers[c].key == s.callers[c].key
  {
    hide DeclareStep, FailStep, MarkStep, ReleaseStep, ForgetStep, DiscardStep;
  }

  lemma KeyStays(s: State, a: Action, s': State, c: Id)
    requires Next(s, a) == Some(s') && c in s.callers
    ensures c in s'.callers && s'.callers[c].key == s.callers[c].key
  {
    if IsEntry(a) {
      hide Next;
      KeyStaysAtEntry(s, a, s', c);
    } else {
      hide SomeoneActive, Completed, CheckStep, GetStep, WaitStep, RecheckStep;
    }
  }

  lemma KeysStay(s: State, a: Action, s': State)
    requires Next(s, a) == Some(s')
    ensures forall c | c in s.callers :: c in s'.callers && s'.callers[c].key == s.callers[c].key
  {
    hide Next;
    forall c | c in s.callers
      ensures c in s'.callers && s'.callers[c].key == s.callers[c].key
    {
      KeyStays(s, a, s', c);
    }
  }

  lemma {:induction false} NotBroken(run: seq<Action>, more: seq<Action>, key: Key)
    requires Exec(run).Some? && key !in Exec(run).value.broken && Exec(run + more).Some?
    requires KeepsSemaphore(run, more, key)
    ensures key !in Exec(run + more).value.broken
  {
    if more == [] {
      assert run + more == run;
    } else {
      var before := more[..|more| - 1];
      var a := more[|more| - 1];
      assert (run + more)[..|run + more| - 1] == run + before && (run + more)[|run + more| - 1] == a;
      var s, s' := Exec(run + before).value, Exec(run + more).value;
      hide Next;
      forall b | b in before
        ensures !Discards(s, b, key)
      {
        assert b in more;
        KeysStay(s, a, s');
      }
      NotBroken(run, before, key);
      StepBreaks(s, a, s', key);
      KeysStay(s, a, s');
      assert a in more;
    }
  }

  /** A waiting caller of an uninitialized key has got in, and declares. */
  function Entered(s: State, c: Id): State
    requires c in s.callers && s.callers[c].pc.Waiting?
  {
    var m := s.callers[c].pc.semaphore;
    Move(s, c, Declaring(m, 0)).(holders := s.holders[m := Some(c)])
  }

  lemma Enters(run: seq<Action>, s: State, c: Id) returns (run': seq<Action>)
    requires Exec(run) == Some(s) && c in s.callers && s.callers[c].key !in s.initialized && s.callers[c].pc.Waiting?
    requires s.callers[c].pc.semaphore in s.holders && s.holders[s.callers[c].pc.semaphore].None?
    ensures run' == run + [Wait(c), Recheck(c)] && Exec(run') == Some(Entered(s, c))
  {
    hide Exec, SomeoneActive;
    var s1 := WaitStep(s, c).value;
    run' := Go(run, s, Wait(c), s1);
    var s2 := RecheckStep(s1, c).value;
    run' := Go(run', s1, Recheck(c), s2);
    assert s2.callers == Entered(s, c).callers;
  }

  /** A new caller `c` of a key without a semaphore waits for its new semaphore `m`. */
  function Arrived(s: State, c: Id, key: Key, m: Id): State {
    s.(callers := s.callers[c := Caller(key, Waiting(m))], semaphores := s.semaphores[key := m],
       holders := s.holders[m := None], madeFor := s.madeFor[m := key])
  }

  lemma Arrives(run: seq<Action>, s: State, c: Id, key: Key, m: Id) returns (run': seq<Action>)
    requires Exec(run) == Some(s) && c !in s.callers && key !in s.initialized && key !in s.semaphores
    requires m !in s.holders && m !in s.madeFor
    ensures run' == run + [Call(c, key), Check(c), Get(c, m)] && Exec(run') == Some(Arrived(s, c, key, m))
  {
    hide Exec, SomeoneActive;
    var s1 := s.(callers := s.callers[c := Caller(key, Checking)]);
    run' := Go(run, s, Call(c, key), s1);
    var s2 := Move(s1, c, Getting);
    run' := Go(run', s1, Check(c), s2);
    var s3 := GetStep(s2, c, m).value;
    run' := Go(run', s2, Get(c, m), s3);
    assert s3.callers == Arrived(s, c, key, m).callers;
  }

  lemma {:induction false} Unused(ids: set<Id>) returns (n: Id)
    ensures forall i | i in ids :: i < n
    decreases |ids|
  {
    if ids == {} {
      n := 0;
    } else {
      var i :| i in ids;
      var m := Unused(ids - {i});
      n := if i < m then m else i + 1;
      forall j | j in ids
        ensures j < n
      {
        assert j == i || j in ids - {i};
      }
    }
  }

  predicate NoDiscard(more: seq<Action>) {
    forall a | a in more :: !a.Discard?
  }

  lemma Joined(run: seq<Action>, p: seq<Action>, q: seq<Action>, r: seq<Action>)
    ensures run + (p + q + r) == run + p + q + r
    ensures NoDiscard(p) && NoDiscard(q) && NoDiscard(r) ==> NoDiscard(p + q + r)
  {
  }

  /** The key is uninitialized and has no semaphore, but a caller is still at work with the one that was discarded. */
  predicate Orphaned(s: State, key: Key) {
    key !in s.initialized && key !in s.semaphores
  }

  /** A waiting caller of an orphaned semaphore gets in when nobody holds it. */
  lemma WaiterDeclares(run: seq<Action>, s: State, c: Id, key: Key) returns (more: seq<Action>)
    requires Exec(run) == Some(s) && Orphaned(s, key) && c in s.callers && s.callers[c].key == key
    requires s.callers[c].pc.Waiting?
    requires s.callers[c].pc.semaphore in s.holders && s.holders[s.callers[c].pc.semaphore].None?
    ensures more == [Wait(c), Recheck(c)] && Exec(run + more).Some?
    ensures Orphaned(Exec(run + more).value, key) && Declares(Exec(run + more).value, c, key)
  {
    hide Exec;
    more := [Wait(c), Recheck(c)];
    var run' := Enters(run, s, c);
  }

  /** Whoever is inside declares, or makes room by releasing. */
  lemma InsideDeclares(run: seq<Action>, s: State, d: Id, key: Key) returns (more: seq<Action>)
    requires Exec(run) == Some(s) && Orphaned(s, key) && d in s.callers && s.callers[d].key == key
    requires Working(s.callers[d].pc)
    ensures Exec(run + more).Some? && NoDiscard(more)
    ensures Orphaned(Exec(run + more).value, key) && Declares(Exec(run + more).value, d, key)
  {
    if s.callers[d].pc.Rechecking? {
      hide Exec, SomeoneActive;
      more := [Recheck(d)];
      var run' := Go(run, s, Recheck(d), RecheckStep(s, d).value);
    } else {
      more := [];
      assert run + more == run;
    }
  }

  lemma Releases(run: seq<Action>, s: State, d: Id) returns (s': State)
    requires Exec(run) == Some(s) && d in s.callers && s.callers[d].pc.Releasing?
    ensures Exec(run + [Release(d)]) == Some(s') && ReleaseStep(s, d) == Some(s')
  {
    hide Exec, SomeoneActive;
    s' := ReleaseStep(s, d).value;
    var run' := Go(run, s, Release(d), s');
  }

  /** Somebody active can always come to declare with the discarded semaphore. */
  lemma ActiveDeclares(run: seq<Action>, s: State, c: Id, key: Key) returns (more: seq<Action>, d: Id)
    requires Exec(run) == Some(s) && Orphaned(s, key) && c in s.callers && s.callers[c].key == key
    requires Active(s.callers[c].pc)
    ensures Exec(run + more).Some? && NoDiscard(more)
    ensures Orphaned(Exec(run + more).value, key) && Declares(Exec(run + more).value, d, key)
  {
    RunsKeep(run);
    if Working(s.callers[c].pc) {
      d := c;
      more := InsideDeclares(run, s, c, key);
      return;
    }
    assert HoldsOk(s, c);
    var m := s.callers[c].pc.semaphore;
    assert HolderOk(s, m);
    if s.holders[m].None? {
      d := c;
      more := WaiterDeclares(run, s, c, key);
      return;
    }
    var h := s.holders[m].value;
    assert HoldsOk(s, h);
    hide Inv, Exec;
    if Working(s.callers[h].pc) {
      d := h;
      more := InsideDeclares(run, s, h, key);
    } else {
      d := c;
      var s' := Releases(run, s, h);
      more := WaiterDeclares(run + [Release(h)], s', c, key);
      assert run + ([Release(h)] + more) == run + [Release(h)] + more;
      more := [Release(h)] + more;
    }
  }

  /** And a new caller declares beside it, with a new semaphore. */
  lemma NewcomerDeclares(run: seq<Action>, s: State, d: Id, key: Key) returns (more: seq<Action>)
    requires Exec(run) == Some(s) && Orphaned(s, key) && Declares(s, d, key)
    ensures Exec(run + more).Some? && NoDiscard(more) && !OneDeclares(Exec(run + more).value, key)
  {
    var c := Unused(s.callers.Keys);
    var m := Unused(s.holders.Keys + s.madeFor.Keys);
    hide Exec;
    var run1 := Arrives(run, s, c, key, m);
    var s1 := Arrived(s, c, key, m);
    var run2 := Enters(run1, s1, c);
    more := [Call(c, key), Check(c), Get(c, m)] + [Wait(c), Recheck(c)];
    assert run2 == run + more;
    assert Declares(Entered(s1, c), c, key) && Declares(Entered(s1, c), d, key) && c != d;
  }

  /** Another DeleteAsync forgets the key, if it is initialized. */
  lemma Forgets(run: seq<Action>, s: State, key: Key) returns (more: seq<Action>, s': State)
    requires Exec(run) == Some(s) && key !in s.semaphores
    ensures Exec(run + more) == Some(s') && NoDiscard(more) && Orphaned(s', key)
    ensures forall c | c in s.callers :: c in s'.callers && s'.callers[c] == s.callers[c]
  {
    if key !in s.initialized {
      more, s' := [], s;
      assert run + more == run;
      return;
    }
    var x := Unused(s.callers.Keys);
    hide Exec, SomeoneActive;
    var s1 := s.(callers := s.callers[x := Caller(key, Forgetting)]);
    var run1 := Go(run, s, CallDelete(x, key), s1);
    s' := ForgetStep(s1, x).value;
    var run2 := Go(run1, s1, Forget(x), s');
    more := [CallDelete(x, key), Forget(x)];
    assert run2 == run + more;
  }

  lemma DiscardLeaves(run: seq<Action>, s: State, x: Id, key: Key) returns (s': State)
    requires Exec(run) == Some(s) && x in s.callers && s.callers[x] == Caller(key, Discarding)
    ensures Exec(run + [Discard(x)]) == Some(s') && key !in s'.semaphores
    ensures forall c | c in s.callers && c != x :: c in s'.callers && s'.callers[c] == s.callers[c]
  {
    hide Exec, SomeoneActive;
    s' := DiscardStep(s, x).value;
    var run' := Go(run, s, Discard(x), s');
  }

  /**
   When a semaphore is discarded while a caller is active, two callers can come to declare the topology at the same
   time.
   */
  lemma ActiveBreaks(run: seq<Action>, x: Id, key: Key) returns (more: seq<Action>)
    requires Exec(run).Some? && x in Exec(run).value.callers && Exec(run).value.callers[x] == Caller(key, Discarding)
    requires SomeoneActive(Exec(run).value, key)
    ensures Exec(run + [Discard(x)] + more).Some? && NoDiscard(more)
    ensures !OneDeclares(Exec(run + [Discard(x)] + more).value, key)
  {
    var s := Exec(run).value;
    var c :| c in s.callers && s.callers[c].key == key && Active(s.callers[c].pc);
    hide Exec, OneDeclares, Orphaned, Declares, NoDiscard, SomeoneActive;
    var run1 := run + [Discard(x)];
    var s1 := DiscardLeaves(run, s, x, key);
    var more2, s2 := Forgets(run1, s1, key);
    hide Active;
    var more3, d := ActiveDeclares(run1 + more2, s2, c, key);
    var more4 := NewcomerDeclares(run1 + more2 + more3, Exec(run1 + more2 + more3).value, d, key);
    more := more2 + more3 + more4;
    Joined(run1, more2, more3, more4);
  }

  /** Caller 0 declares the topology, and caller 1 is about to discard its semaphore. */
  lemma ComesToDiscard(key: Key) returns (run: seq<Action>)
    ensures Exec(run).Some? && SomeoneActive(Exec(run).value, key)
    ensures 1 in Exec(run).value.callers && Exec(run).value.callers[1] == Caller(key, Discarding)
  {
    assert Exec([]) == Some(INITIAL);
    hide Exec;
    run := Arrives([], INITIAL, 0, key, 5);
    var s1 := Arrived(INITIAL, 0, key, 5);
    run := Enters(run, s1, 0);
    var s2 := Entered(s1, 0);
    assert Declares(s2, 0, key) && 1 !in s2.callers;
    hide Arrived, Entered;
    var s3;
    run, s3 := Deletes(run, s2, 0, 1, key);
  }

  /** DeleteAsync comes to its last step while another caller declares. */
  lemma Deletes(run: seq<Action>, s: State, c: Id, x: Id, key: Key) returns (run': seq<Action>, s': State)
    requires Exec(run) == Some(s) && Declares(s, c, key) && x !in s.callers
    ensures Exec(run') == Some(s') && SomeoneActive(s', key) && x in s'.callers
    ensures s'.callers[x] == Caller(key, Discarding)
  {
    hide Exec;
    var s1 := s.(callers := s.callers[x := Caller(key, Forgetting)]);
    run' := Go(run, s, CallDelete(x, key), s1);
    s' := ForgetStep(s1, x).value;
    run' := Go(run', s1, Forget(x), s');
    assert s'.callers[c].key == key && Active(s'.callers[c].pc);
  }

  /** A run in which a deletion lets two callers declare one topology at the same time. */
  lemma DeleteBreaks(key: Key) returns (run: seq<Action>)
    ensures Exec(run).Some? && !OneDeclares(Exec(run).value, key)
  {
    run := ComesToDiscard(key);
    hide Exec, OneDeclares, SomeoneActive;
    var more := ActiveBreaks(run, 1, key);
    run := run + [Discard(1)] + more;
  }

  /**
   Exactly which deletions are safe: where exclusion has not been broken before, DeleteAsync may discard the semaphore
   of a key if and only if no caller of that key is waiting for it, re-checking or declaring. Otherwise some
   continuation, in which no other semaphore of the key is discarded, has two callers declaring at the same time.
   */
  lemma DiscardSafeIff(run: seq<Action>, x: Id, key: Key)
    requires Exec(run).Some? && x in Exec(run).value.callers && Exec(run).value.callers[x] == Caller(key, Discarding)
    requires key !in Exec(run).value.broken
    ensures (forall more | Exec(run + [Discard(x)] + more).Some? && KeepsSemaphore(run + [Discard(x)], more, key) ::
               OneDeclares(Exec(run + [Discard(x)] + more).value, key))
            <==> !SomeoneActive(Exec(run).value, key)
  {
    var s := Exec(run).value;
    if SomeoneActive(s, key) {
      var more := ActiveBreaks(run, x, key);
      hide Exec, OneDeclares;
      assert KeepsSemaphore(run + [Discard(x)], more, key);
    } else {
      var run1 := run + [Discard(x)];
      forall more | Exec(run1 + more).Some? && KeepsSemaphore(run1, more, key)
        ensures OneDeclares(Exec(run1 + more).value, key)
      {
        var r := Go(run, s, Discard(x), DiscardStep(s, x).value);
        hide Exec, OneDeclares, KeepsSemaphore;
        NotBroken(run1, more, key);
        DeclaredOnce(run1 + more, key);
      }
    }
  }
}
