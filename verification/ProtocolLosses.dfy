/**
 When output is kept and when it is lost, for any runs: ids may be reused, and any number of
 relays work on the outbox. And exactly which runs leak a lock.
 */
module ProtocolLosses {
  import opened Messages
  import opened LockTables
  import opened SagaProtocol
  import opened ProtocolInvariant
  import opened ProtocolRuns
  import opened ProtocolOutput

  // ----- Envelopes that are pending -----

  /** A relay is about to delete `e`, which nobody has relayed: it has sent another envelope with the same id. */
  predicate LosesAt(s: State, a: Action, e: Envelope) {
    && a.RelayDelete? && a.relay in s.relays && s.relays[a.relay].Deleting? && s.relays[a.relay].rest != []
    && s.relays[a.relay].rest[0].messageId == e.messageId
    && e.messageId in s.pending && s.pending[e.messageId] == e && e !in s.relayed
  }

  /** The step leaves the outbox, the relays and all instance outboxes alone. */
  ghost predicate LeavesOutboxes(s: State, s': State) {
    && s'.pending == s.pending && s'.relays == s.relays && s'.relayed == s.relayed
    && (forall i | i in s.instances :: i in s'.instances && s'.instances[i].outbox == s.instances[i].outbox)
  }

  lemma QuietLeaves(s: State, s': State, w: Id)
    requires Quiet(s, s', w)
    ensures LeavesOutboxes(s, s')
  {
    hide QuietMove;
  }

  lemma CommitLeaves(s: State, w: Id, guard: LockField, s': State)
    requires w in s.workers && CommitStep(s, w, guard) == Some(s')
    ensures LeavesOutboxes(s, s')
  {
  }

  lemma BackOffLeaves(s: State, w: Id, guard: LockField, s': State)
    requires w in s.workers && BackOffStep(s, w, guard) == Some(s')
    ensures LeavesOutboxes(s, s')
  {
  }

  lemma RescueLeaves(s: State, w: Id, guard: LockField, s': State)
    requires w in s.workers && RescueStep(s, w, guard) == Some(s')
    ensures LeavesOutboxes(s, s')
  {
  }

  /** Every step of a worker but publishing, appending and emptying. */
  lemma WorkerLeaves(s: State, a: Action, s': State)
    requires IsWorkerAction(a) && Next(s, a) == Some(s') && !a.Publish? && !a.AppendNext? && !a.ClearOutbox?
    ensures LeavesOutboxes(s, s')
  {
    var w := a.worker;
    hide Quiet, LeavesOutboxes;
    hide FindStep, ResolveStep, CheckStep, GrantStep, StoreStep, RecheckStep, BackOffStep, CompleteStep, HandlerStep,
      RecordStep, AppendThrowsStep, CommitStep, CatchStep, RescueStep, ClearStep;
    match a {
      case BackOff(_, guard) => BackOffLeaves(s, w, guard, s'); return;
      case CommitRelease(_, guard) => CommitLeaves(s, w, guard, s'); return;
      case CatchRelease(_, guard) => RescueLeaves(s, w, guard, s'); return;
      case Find(_) => FindOut(s, w, s');
      case Resolve(_, i) => ResolveOut(s, w, i, s');
      case Check(_) => CheckOut(s, w, s');
      case Grant(_, l) => GrantOut(s, w, l, s');
      case StoreLockId(_) => StoreOut(s, w, s');
      case Recheck(_) => RecheckOut(s, w, s');
      case Complete(_) => CompleteOut(s, w, s');
      case HandlerReturns(_) => HandlerOut(s, w, None, s');
      case HandlerThrows(_, e) => HandlerOut(s, w, Some(e), s');
      case Record(_) => RecordOut(s, w, s');
      case AppendThrows(_, e) => AppendThrowsOut(s, w, e, s');
      case CatchCheck(_) => CatchOut(s, w, s');
      case ClearLockId(_) => ClearOut(s, w, s');
    }
    QuietLeaves(s, s', w);
  }

  lemma AppendPending(s: State, w: Id, s': State)
    requires w in s.workers && AppendStep(s, w) == Some(s')
    ensures s'.relayed == s.relayed && s'.relays == s.relays
    ensures s'.pending == s.pending || exists e: Envelope ::
            e.messageId !in s.pending && s'.pending == s.pending[e.messageId := e]
  {
  }

  lemma HandlerPending(s: State, w: Id, e: Envelope, s': State)
    requires w in s.workers && (PublishStep(s, w, e) == Some(s') || ClearOutboxStep(s, w) == Some(s'))
    ensures s'.pending == s.pending && s'.relayed == s.relayed && s'.relays == s.relays
  {
  }

  /** A worker changes the outbox only by adding one new id. */
  lemma WorkerPending(s: State, a: Action, s': State)
    requires IsWorkerAction(a) && Next(s, a) == Some(s')
    ensures s'.relayed == s.relayed && s'.relays == s.relays
    ensures s'.pending == s.pending || exists e: Envelope ::
            e.messageId !in s.pending && s'.pending == s.pending[e.messageId := e]
  {
    hide FindStep, ResolveStep, CheckStep, GrantStep, StoreStep, RecheckStep, BackOffStep, CompleteStep, HandlerStep,
      RecordStep, PublishStep, AppendStep, ClearOutboxStep, AppendThrowsStep, CommitStep, CatchStep, RescueStep,
      ClearStep;
    if a.AppendNext? {
      AppendPending(s, a.worker, s');
    } else if a.Publish? {
      HandlerPending(s, a.worker, a.envelope, s');
    } else if a.ClearOutbox? {
      HandlerPending(s, a.worker, Envelope(0, "", 0, ""), s');
    } else {
      WorkerLeaves(s, a, s');
    }
  }

  lemma RelayPending(s: State, a: Action, s': State, e: Envelope)
    requires IsRelayAction(a) && RelayStep(s, a) == Some(s') && Accounted(s, e)
    ensures !Accounted(s', e) <==> LosesAt(s, a, e)
  {
    if a.RelayDelete? {
      var id := s.relays[a.relay].rest[0].messageId;
      assert s'.relayed == s.relayed && s'.pending == s.pending - {id};
    } else {
      assert s'.pending == s.pending && s.relayed <= s'.relayed;
    }
    hide RelayStep;
  }

  /** A step loses an envelope that is pending or relayed exactly when it deletes it unsent. */
  lemma StepLosesIff(s: State, a: Action, s': State, e: Envelope)
    requires Next(s, a) == Some(s') && Accounted(s, e)
    ensures !Accounted(s', e) <==> LosesAt(s, a, e)
  {
    if IsWorkerAction(a) {
      WorkerPending(s, a, s');
      hide Next;
    } else if IsRelayAction(a) {
      RelayPending(s, a, s', e);
      hide RelayStep;
    } else {
      hide RelayStep;
    }
  }

  /** In any run an envelope stays pending or relayed if and only if no relay deletes it unsent. */
  lemma {:induction false} StaysAccountedIff(run: seq<Action>, n: nat, m: nat, e: Envelope)
    requires n <= m <= |run| && Exec(run).Some? && Accounted(After(run, n), e)
    ensures (forall k | n <= k <= m :: Accounted(After(run, k), e))
            <==> (forall k | n <= k < m :: !LosesAt(After(run, k), run[k], e))
  {
    hide Accounted, LosesAt, Exec;
    if n < m {
      StaysAccountedIff(run, n, m - 1, e);
      StepAt(run, m - 1);
      hide Next, Inv;
      if Accounted(After(run, m - 1), e) {
        StepLosesIff(After(run, m - 1), run[m - 1], After(run, m), e);
      }
    }
  }

  /** A relay that is about to delete has published the message; envelopes are pending under their own ids. */
  predicate RelaysOk(s: State) {
    && (forall r | r in s.relays && s.relays[r].Deleting? :: s.relays[r].rest != [] && s.relays[r].rest[0] in s.relayed)
    && (forall id | id in s.pending :: s.pending[id].messageId == id)
  }

  lemma StepRelays(s: State, a: Action, s': State)
    requires Next(s, a) == Some(s') && RelaysOk(s)
    ensures RelaysOk(s')
  {
    if IsWorkerAction(a) {
      WorkerPending(s, a, s');
      hide Next;
    } else {
      OutsideRelays(s, a, s');
    }
  }

  lemma OutsideRelays(s: State, a: Action, s': State)
    requires !IsWorkerAction(a) && Next(s, a) == Some(s') && RelaysOk(s)
    ensures RelaysOk(s')
  {
    hide WorkerStep;
  }

  lemma {:induction false} RunsRelays(run: seq<Action>)
    requires Exec(run).Some?
    ensures RelaysOk(Exec(run).value)
  {
    if run != [] {
      RunsRelays(run[..|run| - 1]);
      hide Next, RelaysOk;
      StepRelays(Exec(run[..|run| - 1]).value, run[|run| - 1], Exec(run).value);
    }
  }

  /**
   In any run, a relay deletes nothing but the envelope it published if and only if what is pending under that id is
   that envelope, or nothing; and the deletion loses nothing if and only if what is pending there has been relayed.
   */
  lemma DeleteRemovesSentIff(run: seq<Action>, r: Id)
    requires Exec(run).Some? && r in Exec(run).value.relays && Exec(run).value.relays[r].Deleting?
    ensures var s := Exec(run).value;
            var s' := RelayStep(s, RelayDelete(r));
            && s.relays[r].rest != [] && s'.Some?
            && var e := s.relays[r].rest[0];
            && e in s.relayed
            && ((forall f | f in s.pending.Values && f !in s'.value.pending.Values :: f == e)
                <==> (e.messageId in s.pending ==> s.pending[e.messageId] == e))
            && ((forall f | Accounted(s, f) :: Accounted(s'.value, f))
                <==> (e.messageId in s.pending ==> s.pending[e.messageId] in s.relayed))
  {
    RunsRelays(run);
    var s := Exec(run).value;
    hide Exec;
    DeleteFrom(s, r, RelayStep(s, RelayDelete(r)).value);
  }

  lemma DeleteFrom(s: State, r: Id, s': State)
    requires RelaysOk(s) && r in s.relays && s.relays[r].Deleting? && RelayStep(s, RelayDelete(r)) == Some(s')
    ensures var e := s.relays[r].rest[0];
            && ((forall f | f in s.pending.Values && f !in s'.pending.Values :: f == e)
                <==> (e.messageId in s.pending ==> s.pending[e.messageId] == e))
            && ((forall f | Accounted(s, f) :: Accounted(s', f))
                <==> (e.messageId in s.pending ==> s.pending[e.messageId] in s.relayed))
  {
    var id := s.relays[r].rest[0].messageId;
    assert s'.pending == s.pending - {id} && s'.relayed == s.relayed;
    hide RelayStep;
    if id in s.pending {
      var f := s.pending[id];
      assert f in s.pending.Values && f !in s'.pending.Values && Accounted(s, f);
    }
    forall j | j in s.pending && j != id
      ensures s.pending[j] in s'.pending.Values
    {
      assert s'.pending[j] == s.pending[j];
    }
  }

  // ----- What a commit appends -----

  /** An AppendNext of `w` finds the id of its envelope pending already. */
  predicate MeetsPending(s: State, a: Action, w: Id) {
    && a == AppendNext(w) && w in s.workers && s.workers[w].pc.Appending? && s.workers[w].pc.instance in s.instances
    && s.workers[w].pc.next < |s.instances[s.workers[w].pc.instance].outbox|
    && s.instances[s.workers[w].pc.instance].outbox[s.workers[w].pc.next].messageId in s.pending
  }

  /** An AppendNext of `w` adds the envelope `e`, at position `k` of the instance outbox. */
  predicate Adds(s: State, a: Action, w: Id, k: nat, e: Envelope) {
    && a == AppendNext(w) && w in s.workers && s.workers[w].pc.Appending? && s.workers[w].pc.instance in s.instances
    && s.workers[w].pc.next == k && k < |s.instances[s.workers[w].pc.instance].outbox|
    && s.instances[s.workers[w].pc.instance].outbox[k] == e && e.messageId !in s.pending
  }

  ghost predicate HasAdded(run: seq<Action>, n: nat, w: Id, k: nat, e: Envelope)
    requires n <= |run| && Exec(run).Some?
  {
    exists m: nat :: m < n && Adds(After(run, m), run[m], w, k, e)
  }

  ghost predicate HasMet(run: seq<Action>, n: nat, w: Id)
    requires n <= |run| && Exec(run).Some?
  {
    exists m: nat :: m < n && MeetsPending(After(run, m), run[m], w)
  }

  /** The worker has not come to its append yet. */
  predicate Before(pc: Pc) {
    !pc.Appending? && !pc.Releasing? && !pc.Catching? && !pc.Rescuing? && !pc.Clearing? && !pc.Leaked? && !pc.Done?
  }

  /** How far the append of `w` is at moment `n`, and what its steps were. */
  ghost predicate AppendLog(run: seq<Action>, n: nat, w: Id)
    requires n <= |run| && Exec(run).Some?
  {
    var s := After(run, n);
    if w !in s.workers || Before(s.workers[w].pc) then forall m: nat | m < n :: run[m] != AppendNext(w)
    else
      var pc := s.workers[w].pc;
      pc.Appending? ==>
        && pc.instance in s.instances
        && var q := s.instances[pc.instance].outbox;
        && pc.next <= |q| && (pc.stopped ==> pc.next < |q|)
        && (pc.stopped <==> HasMet(run, n, w))
        && (forall k: nat | k < pc.next :: HasAdded(run, n, w, k, q[k]))
        && (forall k: nat, e | HasAdded(run, n, w, k, e) :: k < pc.next)
  }

  /** Nobody else touches the outbox of an instance while `w` is appending it. */
  lemma OthersLeaveOutbox(s: State, a: Action, s': State, w: Id)
    requires Inv(s) && Next(s, a) == Some(s') && w in s.workers && s.workers[w].pc.Appending?
    requires !(IsWorkerAction(a) && a.worker == w)
    ensures w in s'.workers && s'.workers[w] == s.workers[w]
    ensures var i := s.workers[w].pc.instance;
            i in s.instances && i in s'.instances && s'.instances[i].outbox == s.instances[i].outbox
  {
    assert WorkerOk(s, s.workers[w]);
    MutualExclusion(s, w);
    var i := s.workers[w].pc.instance;
    hide Inv, Next, WorkerOk, Framed, NotHeldByOthers;
    if !IsWorkerAction(a) {
      OutsideSame(s, a, s');
    } else {
      StepFrame(s, a, s');
      FrameMoves(s, s', a.worker);
      OtherOutbox(s, a, s', w, i);
    }
  }

  lemma OtherOutbox(s: State, a: Action, s': State, w: Id, i: Id)
    requires IsWorkerAction(a) && Next(s, a) == Some(s') && i in s.instances && a.worker != w
    requires NotHeldByOthers(s, w, {i})
    ensures i in s'.instances && s'.instances[i].outbox == s.instances[i].outbox
  {
    if a.Publish? || a.AppendNext? || a.ClearOutbox? {
      HolderActs(s, a);
      assert a.worker in s.workers;
    } else {
      hide NotHeldByOthers;
      WorkerLeaves(s, a, s');
    }
    hide Next;
  }

  lemma HolderActs(s: State, a: Action)
    requires (a.Publish? || a.AppendNext? || a.ClearOutbox?) && Next(s, a).Some?
    ensures a.worker in s.workers && Holding(s.workers[a.worker].pc)
    ensures var i, s' := s.workers[a.worker].pc.instance, Next(s, a).value;
            s'.instances == s.instances[i := s'.instances[i]]
  {
    hide FindStep, ResolveStep, CheckStep, GrantStep, StoreStep, RecheckStep, BackOffStep, CompleteStep, HandlerStep,
      RecordStep, AppendThrowsStep, CommitStep, CatchStep, RescueStep, ClearStep, RelayStep;
  }

  // ----- The own steps of the worker -----

  /** Where a worker must be for an action. */
  predicate Allows(a: Action, pc: Pc)
    requires IsWorkerAction(a)
  {
    match a
    case Find(_) => pc.Finding?
    case Resolve(_, _) => pc.Missing?
    case Check(_) => pc.Found?
    case Grant(_, _) => pc.Locking?
    case StoreLockId(_) => pc.Storing?
    case Recheck(_) => pc.Rechecking?
    case BackOff(_, _) => pc.BackingOff?
    case Publish(_, _) => pc.Handling?
    case Complete(_) => pc.Handling?
    case HandlerReturns(_) => pc.Handling?
    case HandlerThrows(_, _) => pc.Handling?
    case Record(_) => pc.Handled?
    case AppendNext(_) => pc.Appending? && !pc.stopped
    case AppendThrows(_, _) => pc.Appending?
    case ClearOutbox(_) => pc.Appending?
    case CommitRelease(_, _) => pc.Releasing?
    case CatchCheck(_) => pc.Catching?
    case CatchRelease(_, _) => pc.Rescuing?
    case ClearLockId(_) => pc.Clearing?
  }

  predicate LeakedIn(s: State, w: Id) {
    w in s.workers && s.workers[w].pc.Leaked?
  }

  predicate IsBeginning(a: Action) {
    a.Find? || a.Resolve? || a.Check? || a.Grant? || a.StoreLockId? || a.Recheck? || a.BackOff?
  }

  predicate IsEnding(a: Action) {
    a.AppendThrows? || a.ClearOutbox? || a.CommitRelease? || a.CatchCheck? || a.CatchRelease? || a.ClearLockId?
  }

  lemma AllowsSearch(s: State, a: Action)
    requires (a.Find? || a.Resolve?) && Next(s, a).Some?
    ensures a.worker in s.workers && Allows(a, s.workers[a.worker].pc) && !LeakedIn(Next(s, a).value, a.worker)
  {
    hide CheckStep, GrantStep, StoreStep, RecheckStep, BackOffStep, PublishStep, CompleteStep, HandlerStep, RecordStep,
      AppendStep, ClearOutboxStep, AppendThrowsStep, CommitStep, CatchStep, RescueStep, ClearStep, RelayStep;
  }

  lemma AllowsGrant(s: State, a: Action)
    requires (a.Check? || a.Grant?) && Next(s, a).Some?
    ensures a.worker in s.workers && Allows(a, s.workers[a.worker].pc) && !LeakedIn(Next(s, a).value, a.worker)
  {
    hide FindStep, ResolveStep, StoreStep, RecheckStep, BackOffStep, PublishStep, CompleteStep, HandlerStep, RecordStep,
      AppendStep, ClearOutboxStep, AppendThrowsStep, CommitStep, CatchStep, RescueStep, ClearStep, RelayStep, TryLock,
      CanProcess;
  }

  lemma AllowsBeginning(s: State, a: Action)
    requires IsBeginning(a) && Next(s, a).Some?
    ensures a.worker in s.workers && Allows(a, s.workers[a.worker].pc)
    ensures !a.BackOff? ==> !LeakedIn(Next(s, a).value, a.worker)
  {
    hide FindStep, ResolveStep, CheckStep, GrantStep, PublishStep, CompleteStep, HandlerStep, RecordStep, AppendStep,
      ClearOutboxStep, AppendThrowsStep, CommitStep, CatchStep, RescueStep, ClearStep, RelayStep, ReleaseOf, CanProcess;
    if a.Find? || a.Resolve? {
      hide Next, Allows, LeakedIn;
      AllowsSearch(s, a);
    } else if a.Check? || a.Grant? {
      hide Next, Allows, LeakedIn;
      AllowsGrant(s, a);
    }
  }

  lemma AllowsHandling(s: State, a: Action)
    requires IsWorkerAction(a) && !IsBeginning(a) && !IsEnding(a) && Next(s, a).Some?
    ensures a.worker in s.workers && Allows(a, s.workers[a.worker].pc) && !LeakedIn(Next(s, a).value, a.worker)
  {
    hide FindStep, ResolveStep, CheckStep, GrantStep, StoreStep, RecheckStep, BackOffStep, ClearOutboxStep,
      AppendThrowsStep, CommitStep, CatchStep, RescueStep, ClearStep, RelayStep;
  }

  /** The last steps of a worker lead away from its append. */
  predicate Ends(s: State, a: Action, s': State)
    requires IsWorkerAction(a)
  {
    && a.worker in s'.workers && !Before(s'.workers[a.worker].pc) && !s'.workers[a.worker].pc.Appending?
    && (!a.CatchCheck? && !a.CatchRelease? && !a.ClearLockId? ==> !LeakedIn(s', a.worker))
  }

  lemma AllowsCommit(s: State, a: Action)
    requires (a.AppendThrows? || a.ClearOutbox? || a.CommitRelease?) && Next(s, a).Some?
    ensures a.worker in s.workers && Allows(a, s.workers[a.worker].pc) && Ends(s, a, Next(s, a).value)
  {
    hide FindStep, ResolveStep, CheckStep, GrantStep, StoreStep, RecheckStep, BackOffStep, PublishStep, CompleteStep,
      HandlerStep, RecordStep, AppendStep, CatchStep, RescueStep, ClearStep, RelayStep, ReleaseOf;
  }

  lemma AllowsCatch(s: State, a: Action)
    requires (a.CatchCheck? || a.CatchRelease? || a.ClearLockId?) && Next(s, a).Some?
    ensures a.worker in s.workers && Allows(a, s.workers[a.worker].pc) && Ends(s, a, Next(s, a).value)
  {
    hide FindStep, ResolveStep, CheckStep, GrantStep, StoreStep, RecheckStep, BackOffStep, PublishStep, CompleteStep,
      HandlerStep, RecordStep, AppendStep, AppendThrowsStep, ClearOutboxStep, CommitStep, RelayStep, ReleaseOf;
  }

  lemma AllowsEnding(s: State, a: Action)
    requires IsEnding(a) && Next(s, a).Some?
    ensures a.worker in s.workers && Allows(a, s.workers[a.worker].pc) && Ends(s, a, Next(s, a).value)
  {
    hide Next, Allows, Ends;
    if a.AppendThrows? || a.ClearOutbox? || a.CommitRelease? {
      AllowsCommit(s, a);
    } else {
      AllowsCatch(s, a);
    }
  }

  lemma Allowed(s: State, a: Action)
    requires IsWorkerAction(a) && Next(s, a).Some?
    ensures a.worker in s.workers && Allows(a, s.workers[a.worker].pc)
  {
    hide Next, Allows;
    if IsBeginning(a) {
      AllowsBeginning(s, a);
    } else if IsEnding(a) {
      AllowsEnding(s, a);
    } else {
      AllowsHandling(s, a);
    }
  }

  predicate StartsAppend(pc: Pc) {
    pc.Appending? ==> pc.next == 0 && !pc.stopped
  }

  lemma OwnBackOff(s: State, w: Id, guard: LockField, s': State)
    requires w in s.workers && BackOffStep(s, w, guard) == Some(s')
    ensures w in s'.workers && !s'.workers[w].pc.Appending?
  {
    hide ReleaseOf;
  }

  lemma OwnPublish(s: State, w: Id, e: Envelope, s': State)
    requires w in s.workers && PublishStep(s, w, e) == Some(s')
    ensures w in s'.workers && s'.workers[w].pc == s.workers[w].pc
  {
  }

  lemma OwnRecord(s: State, w: Id, s': State)
    requires w in s.workers && RecordStep(s, w) == Some(s')
    ensures w in s'.workers && StartsAppend(s'.workers[w].pc)
  {
  }

  /** A worker that has not come to its append starts it at its first envelope. */
  lemma OwnBefore(s: State, a: Action, s': State)
    requires IsWorkerAction(a) && Next(s, a) == Some(s') && a.worker in s.workers && Before(s.workers[a.worker].pc)
    ensures a.worker in s'.workers && !a.AppendNext? && StartsAppend(s'.workers[a.worker].pc)
  {
    Allowed(s, a);
    var w := a.worker;
    hide Quiet;
    hide FindStep, ResolveStep, CheckStep, GrantStep, StoreStep, RecheckStep, BackOffStep, PublishStep, CompleteStep,
      HandlerStep, RecordStep, AppendStep, ClearOutboxStep, AppendThrowsStep, CommitStep, CatchStep, RescueStep,
      ClearStep;
    match a {
      case BackOff(_, guard) => OwnBackOff(s, w, guard, s'); return;
      case Publish(_, e) => OwnPublish(s, w, e, s'); return;
      case Record(_) => OwnRecord(s, w, s'); return;
      case Find(_) => FindOut(s, w, s');
      case Resolve(_, i) => ResolveOut(s, w, i, s');
      case Check(_) => CheckOut(s, w, s');
      case Grant(_, l) => GrantOut(s, w, l, s');
      case StoreLockId(_) => StoreOut(s, w, s');
      case Recheck(_) => RecheckOut(s, w, s');
      case Complete(_) => CompleteOut(s, w, s');
      case HandlerReturns(_) => HandlerOut(s, w, None, s');
      case HandlerThrows(_, e) => HandlerOut(s, w, Some(e), s');
      case _ => return;
    }
    hide Next;
    QuietStarts(s, s', w);
  }

  lemma QuietStarts(s: State, s': State, w: Id)
    requires Quiet(s, s', w) && Before(s.workers[w].pc)
    ensures w in s'.workers && StartsAppend(s'.workers[w].pc)
  {
  }

  lemma OwnAppend(s: State, w: Id, s': State)
    requires w in s.workers && AppendStep(s, w) == Some(s')
    ensures w in s'.workers
    ensures var pc, pc' := s.workers[w].pc, s'.workers[w].pc;
            && pc.Appending? && pc'.Appending? && pc'.instance == pc.instance && pc.instance in s.instances
            && !pc.stopped
            && pc.instance in s'.instances && s'.instances[pc.instance].outbox == s.instances[pc.instance].outbox
            && pc.next < |s.instances[pc.instance].outbox|
            && (if MeetsPending(s, AppendNext(w), w) then pc'.stopped && pc'.next == pc.next
                else !pc'.stopped && pc'.next == pc.next + 1
                     && Adds(s, AppendNext(w), w, pc.next, s.instances[pc.instance].outbox[pc.next]))
  {
  }

  // ----- The append of one commit -----

  lemma OneMore(run: seq<Action>, n: nat, w: Id)
    requires 0 < n <= |run| && Exec(run).Some?
    ensures HasMet(run, n, w) <==> HasMet(run, n - 1, w) || MeetsPending(After(run, n - 1), run[n - 1], w)
    ensures forall k: nat, e :: HasAdded(run, n, w, k, e) <==>
                                HasAdded(run, n - 1, w, k, e) || Adds(After(run, n - 1), run[n - 1], w, k, e)
  {
    hide MeetsPending, Adds, After;
    forall k: nat, e
      ensures HasAdded(run, n, w, k, e)
              <==> HasAdded(run, n - 1, w, k, e) || Adds(After(run, n - 1), run[n - 1], w, k, e)
    {
      if m: nat :| m < n && Adds(After(run, m), run[m], w, k, e) {
        assert m < n - 1 ==> HasAdded(run, n - 1, w, k, e);
      }
    }
  }

  lemma NoneSo(run: seq<Action>, n: nat, w: Id)
    requires n <= |run| && Exec(run).Some? && forall m: nat | m < n :: run[m] != AppendNext(w)
    ensures !HasMet(run, n, w) && forall k: nat, e :: !HasAdded(run, n, w, k, e)
  {
    hide After;
  }

  predicate NotBegun(s: State, w: Id) {
    w in s.workers ==> Before(s.workers[w].pc)
  }

  /**
   What every step but an AppendNext of `w` leaves: the worker where it was, or at the start of its append, or past it.
   */
  predicate NoAppend(s: State, s': State, w: Id) {
    && (w in s'.workers && Before(s'.workers[w].pc) ==> NotBegun(s, w))
    && (w !in s'.workers ==> w !in s.workers)
    && (w in s'.workers && s'.workers[w].pc.Appending? ==>
          && s'.workers[w].pc.instance in s'.instances
          && (|| (NotBegun(s, w) && StartsAppend(s'.workers[w].pc))
              || (w in s.workers && s.workers[w] == s'.workers[w] && s.workers[w].pc.instance in s.instances
                  && s'.instances[s'.workers[w].pc.instance].outbox == s.instances[s.workers[w].pc.instance].outbox)))
  }

  /** Another action than AppendNext of `w` leaves what its appends have done. */
  lemma SameLog(run: seq<Action>, n: nat, w: Id)
    requires 0 < n <= |run| && Exec(run).Some? && run[n - 1] != AppendNext(w)
    ensures HasMet(run, n, w) <==> HasMet(run, n - 1, w)
    ensures forall k: nat, e :: HasAdded(run, n, w, k, e) <==> HasAdded(run, n - 1, w, k, e)
  {
    OneMore(run, n, w);
    hide HasAdded, HasMet, After, Exec;
  }

  /** Another action than AppendNext adds nothing to the log. */
  lemma LogStays(run: seq<Action>, n: nat, w: Id)
    requires 0 < n <= |run| && Exec(run).Some? && AppendLog(run, n - 1, w) && run[n - 1] != AppendNext(w)
    requires NoAppend(After(run, n - 1), After(run, n), w)
    ensures AppendLog(run, n, w)
  {
    hide HasAdded, HasMet, After, Exec;
    var s, s' := After(run, n - 1), After(run, n);
    if NotBegun(s, w) {
      NoneSo(run, n, w);
    } else {
      SameLog(run, n, w);
    }
  }

  lemma OwnNoAppend(s: State, a: Action, s': State)
    requires IsWorkerAction(a) && !a.AppendNext? && Next(s, a) == Some(s') && Inv(s')
    ensures NoAppend(s, s', a.worker)
  {
    hide Inv, Next, Allows;
    Allowed(s, a);
    var w := a.worker;
    AppendsExisting(s', w);
    if Before(s.workers[w].pc) {
      OwnBefore(s, a, s');
    } else {
      OwnPast(s, a, s');
    }
  }

  lemma AppendsExisting(s: State, w: Id)
    requires Inv(s)
    ensures w in s.workers && s.workers[w].pc.Appending? ==> s.workers[w].pc.instance in s.instances
  {
    if w in s.workers {
      assert WorkerOk(s, s.workers[w]);
    }
    hide Inv;
  }

  lemma OwnPast(s: State, a: Action, s': State)
    requires IsWorkerAction(a) && Next(s, a) == Some(s') && a.worker in s.workers
    requires !Before(s.workers[a.worker].pc) && !a.AppendNext?
    ensures a.worker in s'.workers && !Before(s'.workers[a.worker].pc) && !s'.workers[a.worker].pc.Appending?
  {
    Allowed(s, a);
    hide Next;
    AllowsEnding(s, a);
  }

  lemma OtherNoAppend(s: State, a: Action, s': State, w: Id)
    requires Inv(s) && Next(s, a) == Some(s') && !(IsWorkerAction(a) && a.worker == w)
    ensures NoAppend(s, s', w)
  {
    hide Inv, Next;
    OtherWorker(s, a, s', w);
    if w in s.workers && s.workers[w].pc.Appending? {
      OthersLeaveOutbox(s, a, s', w);
    }
  }

  lemma {:induction false} LogKeeps(run: seq<Action>, n: nat, w: Id)
    requires n <= |run| && Exec(run).Some?
    ensures AppendLog(run, n, w)
  {
    AfterAll(run);
    if n > 0 {
      LogKeeps(run, n - 1, w);
      StepAt(run, n - 1);
      var s, a, s' := After(run, n - 1), run[n - 1], After(run, n);
      hide AppendLog, After, Exec;
      LogStep(run, n, w, s, a, s');
    }
  }

  lemma LogStep(run: seq<Action>, n: nat, w: Id, s: State, a: Action, s': State)
    requires 0 < n <= |run| && Exec(run).Some? && AppendLog(run, n - 1, w)
    requires s == After(run, n - 1) && a == run[n - 1] && s' == After(run, n)
    requires Inv(s) && Inv(s') && Next(s, a) == Some(s')
    ensures AppendLog(run, n, w)
  {
    hide AppendLog, After, Exec, Inv, Next, NoAppend, AppendStep;
    if a == AppendNext(w) {
      AppendIs(s, a, s');
      LogAppends(run, n, w);
    } else if IsWorkerAction(a) && a.worker == w {
      OwnNoAppend(s, a, s');
      LogStays(run, n, w);
    } else {
      OtherNoAppend(s, a, s', w);
      LogStays(run, n, w);
    }
  }

  lemma AppendIs(s: State, a: Action, s': State)
    requires a.AppendNext? && Next(s, a) == Some(s')
    ensures a.worker in s.workers && AppendStep(s, a.worker) == Some(s')
  {
    hide AppendStep;
  }

  lemma OtherWorker(s: State, a: Action, s': State, w: Id)
    requires Inv(s) && Next(s, a) == Some(s') && !(IsWorkerAction(a) && a.worker == w)
    ensures w in s.workers ==> w in s'.workers && s'.workers[w] == s.workers[w]
    ensures w in s'.workers && w !in s.workers ==> s'.workers[w].pc == Finding(false)
  {
    hide Inv, Next, Framed;
    if IsWorkerAction(a) {
      StepFrame(s, a, s');
      FrameMoves(s, s', a.worker);
    } else {
      OutsideSame(s, a, s');
    }
  }

  lemma LogAppends(run: seq<Action>, n: nat, w: Id)
    requires 0 < n <= |run| && Exec(run).Some? && AppendLog(run, n - 1, w) && run[n - 1] == AppendNext(w)
    requires w in After(run, n - 1).workers && AppendStep(After(run, n - 1), w) == Some(After(run, n))
    ensures AppendLog(run, n, w)
  {
    var s, s' := After(run, n - 1), After(run, n);
    OneMore(run, n, w);
    OwnAppend(s, w, s');
    hide HasAdded, HasMet, After, AppendStep;
  }

  /**
   In any run, whatever ids are reused: when a commit comes to empty the instance outbox, it has appended every envelope
   in it if and only if none of its appends met a pending id.
   */
  lemma CommitAppendsAllIff(run: seq<Action>, w: Id)
    requires Exec(run).Some? && w in Exec(run).value.workers && ClearOutboxStep(Exec(run).value, w).Some?
    ensures var s := Exec(run).value;
            var q := s.instances[s.workers[w].pc.instance].outbox;
            (forall k: nat | k < |q| :: HasAdded(run, |run|, w, k, q[k])) <==> !HasMet(run, |run|, w)
  {
    LogKeeps(run, |run|, w);
    AfterAll(run);
    hide Exec, AppendLog, After;
    LogEnds(run, w);
  }

  lemma LogEnds(run: seq<Action>, w: Id)
    requires Exec(run).Some? && AppendLog(run, |run|, w) && w in After(run, |run|).workers
    requires ClearOutboxStep(After(run, |run|), w).Some?
    ensures var s := After(run, |run|);
            var q := s.instances[s.workers[w].pc.instance].outbox;
            (forall k: nat | k < |q| :: HasAdded(run, |run|, w, k, q[k])) <==> !HasMet(run, |run|, w)
  {
    hide HasAdded, HasMet, After, Exec;
    var s := After(run, |run|);
    var pc := s.workers[w].pc;
    var q := s.instances[pc.instance].outbox;
    if HasMet(run, |run|, w) {
      assert !HasAdded(run, |run|, w, pc.next, q[pc.next]);
    }
  }

  /** What is added is pending; StaysAccountedIff says how long it stays accounted for. */
  lemma AddedIsAccounted(run: seq<Action>, m: nat, w: Id, k: nat, e: Envelope)
    requires m < |run| && Exec(run).Some? && Adds(After(run, m), run[m], w, k, e)
    ensures Accounted(After(run, m + 1), e)
  {
    StepAt(run, m);
    hide After, Exec, Inv, Next;
    AppendIs(After(run, m), run[m], After(run, m + 1));
  }

  // ----- Leaked locks -----

  /**
   The worker gives up its lock without releasing it: its LockId was erased before it looked, or while it released.
   */
  predicate LeaksAt(s: State, a: Action) {
    && IsWorkerAction(a) && a.worker in s.workers
    && (a.BackOff? || a.CatchCheck? || a.CatchRelease?) && Allows(a, s.workers[a.worker].pc)
    && var i := s.workers[a.worker].pc.instance;
    && i in s.instances && s.instances[i].lockId == Empty && (a.CatchCheck? || a.guard.Guid?)
  }

  lemma ReleaseLeaks(s: State, a: Action, s': State)
    requires Inv(s) && (a.BackOff? || a.CatchRelease?) && Next(s, a) == Some(s') && a.worker in s.workers
    requires Allows(a, s.workers[a.worker].pc)
    ensures LeakedIn(s', a.worker) <==> LeaksAt(s, a)
  {
    hide FindStep, ResolveStep, CheckStep, GrantStep, StoreStep, RecheckStep, PublishStep, CompleteStep, HandlerStep,
      RecordStep, AppendStep, ClearOutboxStep, AppendThrowsStep, CommitStep, CatchStep, ClearStep, RelayStep;
    hide Inv, ReleaseOf;
    HolderReleases(s, a.worker, a.guard);
  }

  lemma CatchLeaks(s: State, a: Action, s': State)
    requires Inv(s) && a.CatchCheck? && Next(s, a) == Some(s') && a.worker in s.workers
    requires s.workers[a.worker].pc.Catching?
    ensures LeakedIn(s', a.worker) <==> LeaksAt(s, a)
  {
    assert WorkerOk(s, s.workers[a.worker]);
    hide Inv, CatchStep;
    CatchLooksAt(s, a.worker, s');
  }

  lemma CatchLooksAt(s: State, w: Id, s': State)
    requires w in s.workers && WorkerOk(s, s.workers[w]) && s.workers[w].pc.Catching? && CatchStep(s, w) == Some(s')
    ensures LeakedIn(s', w) <==> LeaksAt(s, CatchCheck(w))
  {
  }

  lemma ClearLeaks(s: State, a: Action, s': State)
    requires a.ClearLockId? && Next(s, a) == Some(s') && a.worker in s.workers
    ensures LeakedIn(s', a.worker) ==> false
  {
    hide FindStep, ResolveStep, CheckStep, GrantStep, StoreStep, RecheckStep, BackOffStep, PublishStep, CompleteStep,
      HandlerStep, RecordStep, AppendStep, ClearOutboxStep, AppendThrowsStep, CommitStep, RescueStep, CatchStep,
      RelayStep;
  }

  /** A worker leaks its lock in a step exactly when the step is such a one of its own. */
  lemma StepLeaksIff(s: State, a: Action, s': State, w: Id)
    requires Inv(s) && Next(s, a) == Some(s')
    ensures LeakedIn(s', w) <==> LeakedIn(s, w) || (IsWorkerAction(a) && a.worker == w && LeaksAt(s, a))
  {
    hide Inv, Next;
    if IsWorkerAction(a) && a.worker == w {
      Allowed(s, a);
      if a.BackOff? || a.CatchRelease? {
        ReleaseLeaks(s, a, s');
      } else if a.CatchCheck? {
        CatchLeaks(s, a, s');
      } else if a.ClearLockId? {
        ClearLeaks(s, a, s');
      } else if IsBeginning(a) {
        AllowsBeginning(s, a);
      } else if IsEnding(a) {
        AllowsEnding(s, a);
      } else {
        AllowsHandling(s, a);
      }
    } else {
      OtherWorker(s, a, s', w);
    }
  }

  ghost predicate SomeoneLeaked(s: State) {
    exists w :: LeakedIn(s, w)
  }

  lemma StepLeaks(s: State, a: Action, s': State)
    requires Inv(s) && Next(s, a) == Some(s')
    ensures SomeoneLeaked(s') <==> SomeoneLeaked(s) || LeaksAt(s, a)
  {
    hide Inv, Next, LeakedIn;
    forall w
      ensures LeakedIn(s', w) <==> LeakedIn(s, w) || (IsWorkerAction(a) && a.worker == w && LeaksAt(s, a))
    {
      StepLeaksIff(s, a, s', w);
    }
    if LeaksAt(s, a) {
      assert LeakedIn(s', a.worker);
    }
    hide LeaksAt;
  }

  ghost predicate HasLeaked(run: seq<Action>, n: nat)
    requires n <= |run| && Exec(run).Some?
  {
    exists m: nat :: m < n && LeaksAt(After(run, m), run[m])
  }

  lemma OneMoreLeak(run: seq<Action>, n: nat)
    requires 0 < n <= |run| && Exec(run).Some?
    ensures HasLeaked(run, n) <==> HasLeaked(run, n - 1) || LeaksAt(After(run, n - 1), run[n - 1])
  {
    hide LeaksAt, After;
  }

  /** A run leaves a leaked lock if and only if one of its steps gave up a lock whose id had been erased. */
  lemma {:induction false} LeaksIff(run: seq<Action>, n: nat)
    requires n <= |run| && Exec(run).Some?
    ensures SomeoneLeaked(After(run, n)) <==> HasLeaked(run, n)
  {
    AfterAll(run);
    if n > 0 {
      LeaksIff(run, n - 1);
      StepAt(run, n - 1);
      hide After, Exec, Inv, Next, SomeoneLeaked, HasLeaked, LeaksAt;
      StepLeaks(After(run, n - 1), run[n - 1], After(run, n));
      OneMoreLeak(run, n);
    }
  }
}
