/**
 Exactly which steps of the message pipeline leave a message nowhere: a relay that deletes it
 unsent, and a cancellation of the last task that has it.
 */
module PipelineLosses {
  import opened Messages
  import opened PipelineProtocol

  /** Pending, in the channel, in a batch in flight, or finished; a cancelled message is none of these by itself. */
  predicate Held(s: State, m: Message) {
    IsPending(s, m) || m in s.channel || InFlight(s, m) || m in s.finished
  }

  /** A relay deletes the message, which it has not sent and which is nowhere else. */
  predicate DeletesLast(s: State, a: Action, m: Message) {
    && a.RelayDelete? && Relaying(s, a.relay).Deleting? && Relaying(s, a.relay).rest != []
    && Relaying(s, a.relay).rest[0].id == m.id && IsPending(s, m)
    && m !in s.channel && !InFlight(s, m) && m !in s.finished
  }

  /** The step is the cancellation of the task at hand. */
  predicate Cancels(s: State, a: Action) {
    && a.Raise? && a.error == OperationCanceledException && a.subscriber in s.subscribers
    && a.task < |s.subscribers[a.subscriber].tasks|
  }

  predicate IsTask(s: State, x: Id, k: nat, m: Message) {
    x in s.subscribers && k < |s.subscribers[x].tasks| && s.subscribers[x].tasks[k].message == m
  }

  /** Processing the message raises an OperationCanceledException, and no other task nor place has it. */
  ghost predicate CancelsLast(s: State, a: Action, m: Message) {
    && Cancels(s, a) && IsTask(s, a.subscriber, a.task, m)
    && !IsPending(s, m) && m !in s.channel && m !in s.finished
    && forall y, k: nat | IsTask(s, y, k, m) :: y == a.subscriber && k == a.task
  }

  /** The same state with nothing cancelled. */
  function Forgotten(s: State): State {
    s.(cancelled := {})
  }

  lemma KeptIsHeld(s: State, m: Message)
    ensures Kept(Forgotten(s), m) <==> Held(s, m)
  {
    assert InFlight(Forgotten(s), m) <==> InFlight(s, m);
    hide InFlight;
  }

  lemma LosesIsLast(s: State, a: Action, m: Message)
    ensures LosesAt(Forgotten(s), a, m) <==> DeletesLast(s, a, m)
  {
    assert InFlight(Forgotten(s), m) <==> InFlight(s, m);
    hide InFlight;
  }

  /** What is cancelled does not decide any step. */
  lemma StepForgets(s: State, a: Action, s': State)
    requires Next(s, a) == Some(s')
    ensures Next(Forgotten(s), a).Some? && Next(Forgotten(s), a).value.(cancelled := {}) == Forgotten(s')
    ensures !Cancels(s, a) ==> Next(Forgotten(s), a).value.cancelled == {}
    ensures Cancels(s, a) ==>
              Next(Forgotten(s), a).value.cancelled == {s.subscribers[a.subscriber].tasks[a.task].message}
  {
    hide Batch, Without;
  }

  lemma OtherTask(s: State, a: Action, s': State, m: Message)
    requires Cancels(s, a) && Next(s, a) == Some(s') && IsTask(s, a.subscriber, a.task, m)
    ensures InFlight(s', m) <==> exists y, k: nat :: IsTask(s, y, k, m) && !(y == a.subscriber && k == a.task)
  {
    var x, tasks := a.subscriber, s.subscribers[a.subscriber].tasks;
    assert s'.subscribers == s.subscribers[x := Subscriber(Without(tasks, a.task), true)];
    if y, k: nat :| IsTask(s, y, k, m) && !(y == x && k == a.task) {
      if y == x {
        WithoutKeeps(tasks, a.task, k);
      }
      hide Next;
      assert HasTask(s'.subscribers[y].tasks, m);
    }
    if InFlight(s', m) {
      var y :| y in s'.subscribers && HasTask(s'.subscribers[y].tasks, m);
      var k: nat :| k < |s'.subscribers[y].tasks| && s'.subscribers[y].tasks[k].message == m;
      hide Next;
      var j := if y == x && k >= a.task then k + 1 else k;
      assert IsTask(s, y, j, m);
    }
  }

  lemma CancelLoses(s: State, a: Action, s': State, m: Message)
    requires Cancels(s, a) && Next(s, a) == Some(s') && IsTask(s, a.subscriber, a.task, m)
    ensures !Held(s', m) <==> CancelsLast(s, a, m)
  {
    OtherTask(s, a, s', m);
    assert s'.pending == s.pending && s'.channel == s.channel && s'.finished == s.finished;
    hide Next, InFlight;
  }

  /** A step leaves a message nowhere exactly when it deletes it unsent, or cancels the last task that has it. */
  lemma StepDropsIff(s: State, a: Action, s': State, m: Message)
    requires Next(s, a) == Some(s') && Held(s, m)
    ensures !Held(s', m) <==> DeletesLast(s, a, m) || CancelsLast(s, a, m)
  {
    var t, t' := Forgotten(s), Next(Forgotten(s), a).value;
    StepForgets(s, a, s');
    KeptIsHeld(s, m);
    LosesIsLast(s, a, m);
    hide Next;
    StepLosesIff(t, a, t', m);
    if Cancels(s, a) && IsTask(s, a.subscriber, a.task, m) {
      hide Held, CancelsLast;
      CancelLoses(s, a, s', m);
    } else if Cancels(s, a) {
      KeptIsHeld(s', m);
      OtherKept(t', Forgotten(s'), m);
      hide Held, Kept;
    } else {
      assert t' == Forgotten(s');
      KeptIsHeld(s', m);
      hide Held, Kept;
    }
  }

  lemma OtherKept(t: State, s: State, m: Message)
    requires t.(cancelled := {}) == s && m !in t.cancelled && s.cancelled == {}
    ensures Kept(t, m) <==> Kept(s, m)
  {
    assert t.subscribers == s.subscribers;
    assert InFlight(t, m) <==> InFlight(s, m);
    hide InFlight;
  }

  /**
   In any run a message stays pending, in the channel, in flight or finished if and only if no relay deletes it unsent
   and no cancellation hits the last task that has it.
   */
  lemma {:induction false} HeldIff(c: nat, b: nat, run: seq<Action>, n: nat, k: nat, m: Message)
    requires n <= k <= |run| && Exec(c, b, run).Some? && Held(After(c, b, run, n), m)
    ensures (forall j | n <= j <= k :: Held(After(c, b, run, j), m))
            <==> (forall j | n <= j < k ::
                    !DeletesLast(After(c, b, run, j), run[j], m) && !CancelsLast(After(c, b, run, j), run[j], m))
  {
    hide Held, DeletesLast, CancelsLast, Exec, Next;
    if n < k {
      HeldIff(c, b, run, n, k - 1, m);
      StepAt(c, b, run, k - 1);
      if Held(After(c, b, run, k - 1), m) {
        StepDropsIff(After(c, b, run, k - 1), run[k - 1], After(c, b, run, k), m);
      }
    }
  }
}
