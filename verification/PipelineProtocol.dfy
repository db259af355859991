/**
 The message pipeline as a transition system: appends, relays, a bounded channel and subscribers
 whose messages are processed concurrently. Different messages may have the same id.
 */
module PipelineProtocol {
  import opened Messages

  /** A message has its id, and is the `serial`-th message there ever was. */
  datatype Message = Message(id: Id, serial: nat)

  datatype Relay = Idle | Sending(rest: seq<Message>) | Deleting(rest: seq<Message>)

  /** A message of a batch: being processed, or waiting to be written back after an exception. */
  datatype Task = Processing(message: Message) | Returning(message: Message)

  /** `stopped`: a cancelled task has ended the consumer loop. */
  datatype Subscriber = Subscriber(tasks: seq<Task>, stopped: bool)

  /**
   History: `appended`, `finished` (dispatched, and the dispatch returned normally), `cancelled`, and the messages
   `written` to the channel and `taken` from it, in order.
   */
  datatype State = State(
    capacity: nat,
    maxBatchSize: nat,
    pending: map<Id, Message>,
    relays: map<Id, Relay>,
    channel: seq<Message>,
    subscribers: map<Id, Subscriber>,
    appended: set<Message>,
    finished: set<Message>,
    cancelled: set<Message>,
    written: seq<Message>,
    taken: seq<Message>)

  function Initial(capacity: nat, maxBatchSize: nat): State {
    State(capacity, maxBatchSize, map[], map[], [], map[], {}, {}, {}, [], [])
  }

  datatype Action =
    | Append(message: Message)
    | ReadPending(relay: Id, snapshot: seq<Message>)
    | RelayPublish(relay: Id)
    | RelayFails(relay: Id)
    | RelayDelete(relay: Id)
    | ReadBatch(subscriber: Id, size: nat)
    | Return(subscriber: Id, task: nat)
    | Raise(subscriber: Id, task: nat, error: Error)
    | WriteBack(subscriber: Id, task: nat)

  function Relaying(s: State, r: Id): Relay {
    if r in s.relays then s.relays[r] else Idle
  }

  function Consuming(s: State, x: Id): Subscriber {
    if x in s.subscribers then s.subscribers[x] else Subscriber([], false)
  }

  function Without(tasks: seq<Task>, k: nat): seq<Task>
    requires k < |tasks|
  {
    tasks[..k] + tasks[k + 1..]
  }

  function Consume(s: State, x: Id, subscriber: Subscriber): State {
    s.(subscribers := s.subscribers[x := subscriber])
  }

  function RelayStep(s: State, a: Action): Option<State>
    requires a.ReadPending? || a.RelayPublish? || a.RelayFails? || a.RelayDelete?
  {
    var relay := Relaying(s, a.relay);
    if a.ReadPending? then
      if relay.Idle? && (set m | m in a.snapshot) == s.pending.Values
      then Some(s.(relays := s.relays[a.relay := Sending(a.snapshot)])) else None
    else if relay.Idle? || (relay.rest == [] && !(relay.Sending? && a.RelayFails?)) then None
    else if a.RelayPublish? then
      // the channel is bounded: a writer waits while it is full
      if relay.Sending? && |s.channel| < s.capacity
      then Some(s.(relays := s.relays[a.relay := Deleting(relay.rest)], channel := s.channel + [relay.rest[0]],
                   written := s.written + [relay.rest[0]])) else None
    else if a.RelayFails? then
      Some(s.(relays := s.relays[a.relay := if relay.rest == [] then Idle else Sending(relay.rest[1..])]))
    else if relay.Deleting? then
      Some(s.(relays := s.relays[a.relay := Sending(relay.rest[1..])], pending := s.pending - {relay.rest[0].id}))
    else None
  }

  function Batch(messages: seq<Message>): (tasks: seq<Task>)
    ensures |tasks| == |messages| && forall k | 0 <= k < |messages| :: tasks[k] == Processing(messages[k])
  {
    seq(|messages|, k requires 0 <= k < |messages| => Processing(messages[k]))
  }

  function SubscriberStep(s: State, a: Action): Option<State>
    requires a.ReadBatch? || a.Return? || a.Raise? || a.WriteBack?
  {
    var x := a.subscriber;
    var subscriber := Consuming(s, x);
    var tasks := subscriber.tasks;
    if a.ReadBatch? then
      if tasks == [] && !subscriber.stopped && a.size <= s.maxBatchSize && a.size <= |s.channel|
      then Some(Consume(s, x, Subscriber(Batch(s.channel[..a.size]), false))
                .(channel := s.channel[a.size..], taken := s.taken + s.channel[..a.size])) else None
    else if a.task >= |tasks| then None
    else
      var task := tasks[a.task];
      var others := subscriber.(tasks := Without(tasks, a.task));
      if a.WriteBack? then
        if task.Returning? && |s.channel| < s.capacity
        then Some(Consume(s, x, others).(channel := s.channel + [task.message], written := s.written + [task.message]))
        else None
      else if task.Returning? then None
      else if a.Return? then Some(Consume(s, x, others).(finished := s.finished + {task.message}))
      else if a.error == OperationCanceledException then
        Some(Consume(s, x, others.(stopped := true)).(cancelled := s.cancelled + {task.message}))
      else Some(Consume(s, x, subscriber.(tasks := tasks[a.task := Returning(task.message)])))
  }

  function Next(s: State, a: Action): Option<State> {
    if a.Append? then
      // an id that is pending is a duplicate
      if a.message in s.appended then None
      else if a.message.id in s.pending then Some(s)
      else Some(s.(pending := s.pending[a.message.id := a.message], appended := s.appended + {a.message}))
    else if a.ReadPending? || a.RelayPublish? || a.RelayFails? || a.RelayDelete? then RelayStep(s, a)
    else SubscriberStep(s, a)
  }

  function Exec(capacity: nat, maxBatchSize: nat, run: seq<Action>): Option<State> {
    if run == [] then Some(Initial(capacity, maxBatchSize))
    else
      match Exec(capacity, maxBatchSize, run[..|run| - 1])
      case None => None
      case Some(s) => Next(s, run[|run| - 1])
  }

  // ----- Messages are kept -----

  predicate InFlight(s: State, m: Message) {
    exists x :: x in s.subscribers && HasTask(s.subscribers[x].tasks, m)
  }

  predicate HasTask(tasks: seq<Task>, m: Message) {
    exists k :: 0 <= k < |tasks| && tasks[k].message == m
  }

  /** Written to the channel at some time, and not lost track of since. */
  predicate Sent(s: State, m: Message) {
    m in s.channel || InFlight(s, m) || m in s.finished || m in s.cancelled
  }

  predicate IsPending(s: State, m: Message) {
    m.id in s.pending && s.pending[m.id] == m
  }

  /** Pending, in the channel, in a batch in flight, finished, or cancelled. */
  predicate Kept(s: State, m: Message) {
    IsPending(s, m) || Sent(s, m)
  }

  /** A relay is about to delete `m` unsent: it has sent another message with the same id. */
  predicate LosesAt(s: State, a: Action, m: Message) {
    && a.RelayDelete? && Relaying(s, a.relay).Deleting? && Relaying(s, a.relay).rest != []
    && Relaying(s, a.relay).rest[0].id == m.id && IsPending(s, m) && !Sent(s, m)
  }

  /** A step never loses track of a message that was written to the channel. */
  lemma StaysSent(s: State, a: Action, s': State, m: Message)
    requires Next(s, a) == Some(s') && Sent(s, m)
    ensures Sent(s', m)
  {
    if a.ReadBatch? || a.Return? || a.Raise? || a.WriteBack? {
      var x := a.subscriber;
      if a.ReadBatch? {
        BatchStaysSent(s, x, a.size, s', m);
      } else if InFlight(s, m) {
        TaskStaysSent(s, a, s', m);
      }
    } else {
      assert s'.subscribers == s.subscribers;
      assert InFlight(s, m) ==> InFlight(s', m);
    }
  }

  lemma BatchStaysSent(s: State, x: Id, n: nat, s': State, m: Message)
    requires SubscriberStep(s, ReadBatch(x, n)) == Some(s') && Sent(s, m)
    ensures Sent(s', m)
  {
    if m in s.channel && m !in s'.channel {
      var k :| 0 <= k < |s.channel| && s.channel[k] == m;
      assert k < n;
      assert s'.subscribers[x].tasks[k].message == m;
      assert HasTask(s'.subscribers[x].tasks, m);
    } else if InFlight(s, m) {
      var y :| y in s.subscribers && HasTask(s.subscribers[y].tasks, m);
      assert y != x && s'.subscribers[y] == s.subscribers[y];
      assert HasTask(s'.subscribers[y].tasks, m);
    }
  }

  /**
   A step of one task: another task stays, at its place or the place before it; the task itself is finished or stays.
   */
  lemma TaskStaysSent(s: State, a: Action, s': State, m: Message)
    requires a.Return? || a.Raise? || a.WriteBack?
    requires SubscriberStep(s, a) == Some(s') && InFlight(s, m)
    ensures Sent(s', m)
  {
    var x := a.subscriber;
    var y :| y in s.subscribers && HasTask(s.subscribers[y].tasks, m);
    if y != x {
      assert s'.subscribers[y] == s.subscribers[y];
      hide SubscriberStep, HasTask;
      assert InFlight(s', m);
    } else {
      OwnTaskStays(s, a, s', m);
    }
  }

  lemma OwnTaskStays(s: State, a: Action, s': State, m: Message)
    requires a.Return? || a.Raise? || a.WriteBack?
    requires SubscriberStep(s, a) == Some(s') && a.subscriber in s.subscribers
    requires HasTask(s.subscribers[a.subscriber].tasks, m)
    ensures Sent(s', m)
  {
    var x := a.subscriber;
    var tasks, after := s.subscribers[x].tasks, s'.subscribers[x].tasks;
    var k :| 0 <= k < |tasks| && tasks[k].message == m;
    if |after| == |tasks| {
      assert after[k].message == m;
      hide SubscriberStep;
      assert InFlight(s', m);
    } else if k == a.task {
      assert m in s'.channel || m in s'.finished || m in s'.cancelled;
    } else {
      WithoutKeeps(tasks, a.task, k);
      assert after == Without(tasks, a.task);
      hide SubscriberStep, Without, HasTask;
      assert InFlight(s', m);
    }
  }

  lemma WithoutKeeps(tasks: seq<Task>, k: nat, j: nat)
    requires k < |tasks| && j < |tasks| && j != k
    ensures HasTask(Without(tasks, k), tasks[j].message)
  {
    var rest := Without(tasks, k);
    assert rest[if j < k then j else j - 1] == tasks[j];
  }

  /** The outbox changes by an append, and by the deletion of a relay. */
  lemma PendingSteps(s: State, a: Action, s': State)
    requires Next(s, a) == Some(s') && !a.Append? && !a.RelayDelete?
    ensures s'.pending == s.pending
  {
    hide Batch;
  }

  lemma DeleteLoses(s: State, r: Id, s': State, m: Message)
    requires RelayStep(s, RelayDelete(r)) == Some(s') && IsPending(s, m) && !Sent(s, m)
    ensures !Kept(s', m) <==> LosesAt(s, RelayDelete(r), m)
  {
    assert s'.subscribers == s.subscribers;
    assert InFlight(s', m) ==> InFlight(s, m);
  }

  /** A step loses a kept message exactly when it deletes it unsent. */
  lemma StepLosesIff(s: State, a: Action, s': State, m: Message)
    requires Next(s, a) == Some(s') && Kept(s, m)
    ensures !Kept(s', m) <==> LosesAt(s, a, m)
  {
    if Sent(s, m) {
      StaysSent(s, a, s', m);
      hide Next, Sent;
    } else if a.RelayDelete? {
      hide Sent, LosesAt, Kept, RelayStep;
      DeleteLoses(s, a.relay, s', m);
    } else if !a.Append? {
      PendingSteps(s, a, s');
      hide Next, Sent;
    }
  }

  // ----- Runs -----

  ghost function After(c: nat, b: nat, run: seq<Action>, n: nat): State
    requires n <= |run| && Exec(c, b, run).Some?
  {
    PrefixRuns(c, b, run, n);
    Exec(c, b, run[..n]).value
  }

  lemma {:induction false} PrefixRuns(c: nat, b: nat, run: seq<Action>, n: nat)
    requires n <= |run| && Exec(c, b, run).Some?
    ensures Exec(c, b, run[..n]).Some?
    decreases |run|
  {
    if n == |run| {
      assert run[..n] == run;
    } else {
      assert run[..|run| - 1][..n] == run[..n];
      PrefixRuns(c, b, run[..|run| - 1], n);
    }
  }

  lemma StepAt(c: nat, b: nat, run: seq<Action>, n: nat)
    requires n < |run| && Exec(c, b, run).Some?
    ensures Next(After(c, b, run, n), run[n]) == Some(After(c, b, run, n + 1))
  {
    PrefixRuns(c, b, run, n + 1);
    assert run[..n + 1][..n] == run[..n];
  }

  lemma AfterAll(c: nat, b: nat, run: seq<Action>)
    requires Exec(c, b, run).Some?
    ensures After(c, b, run, |run|) == Exec(c, b, run).value && After(c, b, run, 0) == Initial(c, b)
  {
    assert run[..|run|] == run && run[..0] == [];
  }

  /**
   In any run, a message stays pending, in the channel, in flight, finished or cancelled if and only if no relay deletes
   it unsent.
   */
  lemma {:induction false} KeptIff(c: nat, b: nat, run: seq<Action>, n: nat, k: nat, m: Message)
    requires n <= k <= |run| && Exec(c, b, run).Some? && Kept(After(c, b, run, n), m)
    ensures (forall j | n <= j <= k :: Kept(After(c, b, run, j), m))
            <==> (forall j | n <= j < k :: !LosesAt(After(c, b, run, j), run[j], m))
  {
    hide Kept, LosesAt, Exec, Next;
    if n < k {
      KeptIff(c, b, run, n, k - 1, m);
      StepAt(c, b, run, k - 1);
      if Kept(After(c, b, run, k - 1), m) {
        StepLosesIff(After(c, b, run, k - 1), run[k - 1], After(c, b, run, k), m);
      }
    }
  }

  // ----- Conservation -----

  /** A relay deletes what is pending under an id although it has sent another message. */
  predicate DeletesOther(s: State, a: Action) {
    && a.RelayDelete? && Relaying(s, a.relay).Deleting? && Relaying(s, a.relay).rest != []
    && var m := Relaying(s, a.relay).rest[0];
    m.id in s.pending && s.pending[m.id] != m
  }

  ghost predicate RelaysSent(s: State) {
    forall r | r in s.relays && s.relays[r].Deleting? :: s.relays[r].rest != [] && Sent(s, s.relays[r].rest[0])
  }

  lemma StepRelaysSent(s: State, a: Action, s': State)
    requires RelaysSent(s) && Next(s, a) == Some(s')
    ensures RelaysSent(s')
  {
    forall m | Sent(s, m)
      ensures Sent(s', m)
    {
      StaysSent(s, a, s', m);
    }
    hide Sent, SubscriberStep;
    if a.RelayPublish? {
      JustSent(s', s.relays[a.relay].rest[0]);
    } else if !(a.Append? || a.ReadPending? || a.RelayFails? || a.RelayDelete?) {
      TasksOnly(s, a, s');
    }
  }

  lemma JustSent(s: State, m: Message)
    requires |s.channel| > 0 && s.channel[|s.channel| - 1] == m
    ensures Sent(s, m)
  {
  }

  lemma TasksOnly(s: State, a: Action, s': State)
    requires a.ReadBatch? || a.Return? || a.Raise? || a.WriteBack?
    requires SubscriberStep(s, a) == Some(s')
    ensures s'.pending == s.pending && s'.relays == s.relays && s'.appended == s.appended
  {
  }

  ghost predicate AllKept(s: State) {
    RelaysSent(s) && forall m | m in s.appended :: Kept(s, m)
  }

  lemma StepKeeps(s: State, a: Action, s': State)
    requires AllKept(s) && Next(s, a) == Some(s') && !DeletesOther(s, a)
    ensures AllKept(s')
  {
    StepRelaysSent(s, a, s');
    NewlyAppended(s, a, s');
    forall m | m in s.appended
      ensures Kept(s', m)
    {
      StepLosesIff(s, a, s', m);
      NotLost(s, a, m);
    }
  }

  lemma NotLost(s: State, a: Action, m: Message)
    requires RelaysSent(s) && !DeletesOther(s, a)
    ensures !LosesAt(s, a, m)
  {
    if a.RelayDelete? && a.relay in s.relays && s.relays[a.relay].Deleting? {
      assert Sent(s, s.relays[a.relay].rest[0]);
    }
  }

  lemma NewlyAppended(s: State, a: Action, s': State)
    requires Next(s, a) == Some(s')
    ensures forall m | m in s'.appended && m !in s.appended :: Kept(s', m)
  {
    hide Batch, Sent;
  }

  /** No relay deletes another message than the one it sent. */
  ghost predicate DeletesOwn(c: nat, b: nat, run: seq<Action>)
    requires Exec(c, b, run).Some?
  {
    forall n: nat | n < |run| :: !DeletesOther(After(c, b, run, n), run[n])
  }

  lemma {:induction false} RunKeeps(c: nat, b: nat, run: seq<Action>, n: nat)
    requires n <= |run| && Exec(c, b, run).Some? && DeletesOwn(c, b, run)
    ensures AllKept(After(c, b, run, n))
  {
    AfterAll(c, b, run);
    if n > 0 {
      RunKeeps(c, b, run, n - 1);
      StepAt(c, b, run, n - 1);
      hide Next, AllKept, DeletesOther, After, Exec;
      StepKeeps(After(c, b, run, n - 1), run[n - 1], After(c, b, run, n));
    }
  }

  /**
   Conservation, message by message: as long as relays delete only what they sent, every message ever appended is
   pending, in the channel, in flight or finished, unless its processing raised an OperationCanceledException.
   */
  lemma Conservation(c: nat, b: nat, run: seq<Action>, m: Message)
    requires Exec(c, b, run).Some? && DeletesOwn(c, b, run) && m in Exec(c, b, run).value.appended
    ensures var s := Exec(c, b, run).value;
            IsPending(s, m) || m in s.channel || InFlight(s, m) || m in s.finished || m in s.cancelled
  {
    AfterAll(c, b, run);
    RunKeeps(c, b, run, |run|);
  }

  // ----- Fresh ids -----

  /** Every appended message has an id that was not appended before, or is a duplicate of what is pending. */
  predicate FreshStep(s: State, a: Action) {
    a.Append? && a.message.id !in s.pending ==> forall m | m in s.appended :: m.id != a.message.id
  }

  ghost predicate FreshRun(c: nat, b: nat, run: seq<Action>)
    requires Exec(c, b, run).Some?
  {
    forall n: nat | n < |run| :: FreshStep(After(c, b, run, n), run[n])
  }

  /** One message for one id, wherever it is. */
  ghost predicate OneMessage(s: State) {
    && (forall m, n | m in s.appended && n in s.appended && m.id == n.id :: m == n)
    && (forall id | id in s.pending :: s.pending[id] in s.appended && s.pending[id].id == id)
    && (forall r, m | r in s.relays && s.relays[r] != Idle && m in s.relays[r].rest :: m in s.appended)
  }

  lemma StepOneMessage(s: State, a: Action, s': State)
    requires OneMessage(s) && FreshStep(s, a) && Next(s, a) == Some(s')
    ensures OneMessage(s') && !DeletesOther(s, a)
  {
    hide SubscriberStep;
    if a.ReadBatch? || a.Return? || a.Raise? || a.WriteBack? {
      TasksOnly(s, a, s');
    } else if a.ReadPending? {
      forall m | m in a.snapshot
        ensures m in s.appended
      {
        assert m in s.pending.Values;
      }
    }
  }

  lemma {:induction false} FreshOneMessage(c: nat, b: nat, run: seq<Action>, n: nat)
    requires n <= |run| && Exec(c, b, run).Some? && FreshRun(c, b, run)
    ensures OneMessage(After(c, b, run, n))
  {
    if n == 0 {
      AfterAll(c, b, run);
      hide After, Exec;
    } else {
      FreshOneMessage(c, b, run, n - 1);
      StepAt(c, b, run, n - 1);
      assert FreshStep(After(c, b, run, n - 1), run[n - 1]);
      hide Next, OneMessage, FreshStep, After, Exec;
      StepOneMessage(After(c, b, run, n - 1), run[n - 1], After(c, b, run, n));
    }
  }

  /** With fresh ids relays delete only what they sent, whatever they fail to do; so Conservation holds. */
  lemma FreshIdsConserve(c: nat, b: nat, run: seq<Action>)
    requires Exec(c, b, run).Some? && FreshRun(c, b, run)
    ensures DeletesOwn(c, b, run)
  {
    forall n: nat | n < |run|
      ensures !DeletesOther(After(c, b, run, n), run[n])
    {
      FreshOneMessage(c, b, run, n);
      StepAt(c, b, run, n);
      assert FreshStep(After(c, b, run, n), run[n]);
      hide Next, OneMessage, FreshStep, After, Exec, DeletesOther;
      StepOneMessage(After(c, b, run, n), run[n], After(c, b, run, n + 1));
    }
  }

  lemma StepFifo(s: State, a: Action, s': State)
    requires Next(s, a) == Some(s') && s.written == s.taken + s.channel && |s.channel| <= s.capacity
    ensures s'.written == s'.taken + s'.channel && |s'.channel| <= s'.capacity
  {
    hide Batch;
    if a.ReadBatch? {
      assert s.channel == s.channel[..a.size] + s.channel[a.size..];
    }
  }

  /**
   First in, first out: what the batches took, followed by the channel, is everything that was written, in order; the
   bound holds.
   */
  lemma {:induction false} Fifo(capacity: nat, maxBatchSize: nat, run: seq<Action>)
    requires Exec(capacity, maxBatchSize, run).Some?
    ensures var s := Exec(capacity, maxBatchSize, run).value;
            s.written == s.taken + s.channel && |s.channel| <= s.capacity
  {
    if run != [] {
      Fifo(capacity, maxBatchSize, run[..|run| - 1]);
      hide Next;
      StepFifo(Exec(capacity, maxBatchSize, run[..|run| - 1]).value, run[|run| - 1],
               Exec(capacity, maxBatchSize, run).value);
    }
  }

  // ----- Finished and cancelled -----

  /** The processing of the message ends: it returns, or raises `error`. */
  predicate Ends(s: State, a: Action, m: Message, error: Option<Error>) {
    && (if error.None? then a.Return? else a.Raise? && a.error == error.value)
    && a.subscriber in s.subscribers && a.task < |s.subscribers[a.subscriber].tasks|
    && s.subscribers[a.subscriber].tasks[a.task] == Processing(m)
  }

  lemma StepEnds(s: State, a: Action, s': State, m: Message)
    requires Next(s, a) == Some(s')
    ensures m in s'.finished <==> m in s.finished || Ends(s, a, m, None)
    ensures m in s'.cancelled <==> m in s.cancelled || Ends(s, a, m, Some(OperationCanceledException))
  {
    hide Without, Batch;
  }

  /** Before the `k`-th step of the run. */
  ghost predicate Ended(c: nat, b: nat, run: seq<Action>, k: nat, m: Message, error: Option<Error>)
    requires k <= |run| && Exec(c, b, run).Some?
  {
    exists n: nat :: n < k && Ends(After(c, b, run, n), run[n], m, error)
  }

  lemma EndedStep(c: nat, b: nat, run: seq<Action>, k: nat, m: Message, error: Option<Error>)
    requires k < |run| && Exec(c, b, run).Some?
    ensures Ended(c, b, run, k + 1, m, error)
            <==> Ended(c, b, run, k, m, error) || Ends(After(c, b, run, k), run[k], m, error)
  {
    hide Exec, After, Ends;
  }

  /**
   In any run a message is finished exactly when its processing returned at some step, and cancelled exactly when it
   raised an OperationCanceledException.
   */
  lemma {:induction false} EndedIff(c: nat, b: nat, run: seq<Action>, k: nat, m: Message)
    requires k <= |run| && Exec(c, b, run).Some?
    ensures m in After(c, b, run, k).finished <==> Ended(c, b, run, k, m, None)
    ensures m in After(c, b, run, k).cancelled <==> Ended(c, b, run, k, m, Some(OperationCanceledException))
  {
    AfterAll(c, b, run);
    if k > 0 {
      EndedIff(c, b, run, k - 1, m);
      StepAt(c, b, run, k - 1);
      EndedStep(c, b, run, k - 1, m, None);
      EndedStep(c, b, run, k - 1, m, Some(OperationCanceledException));
      hide Next, After, Exec, Ends, Ended;
      StepEnds(After(c, b, run, k - 1), run[k - 1], After(c, b, run, k), m);
    }
  }

  // ----- Batches -----

  lemma StepWithin(s: State, a: Action, s': State)
    requires Next(s, a) == Some(s') && forall x | x in s.subscribers :: |s.subscribers[x].tasks| <= s.maxBatchSize
    ensures s'.maxBatchSize == s.maxBatchSize
    ensures forall x | x in s'.subscribers :: |s'.subscribers[x].tasks| <= s'.maxBatchSize
  {
  }

  /** In any run a subscriber works on no more messages at a time than its batch may have. */
  lemma {:induction false} BatchesWithin(c: nat, b: nat, run: seq<Action>)
    requires Exec(c, b, run).Some?
    ensures var s := Exec(c, b, run).value;
            s.maxBatchSize == b && forall x | x in s.subscribers :: |s.subscribers[x].tasks| <= b
  {
    if run != [] {
      BatchesWithin(c, b, run[..|run| - 1]);
      hide Next;
      StepWithin(Exec(c, b, run[..|run| - 1]).value, run[|run| - 1], Exec(c, b, run).value);
    }
  }

  predicate Stopped(s: State, x: Id) {
    x in s.subscribers && s.subscribers[x].stopped
  }

  lemma StepStopped(s: State, a: Action, s': State, x: Id)
    requires Next(s, a) == Some(s')
    ensures Stopped(s, x) ==> Stopped(s', x) && !(a.ReadBatch? && a.subscriber == x)
    ensures (exists m :: Ends(s, a, m, Some(OperationCanceledException))) ==> Stopped(s', a.subscriber)
  {
    hide Batch, Without;
  }

  lemma {:induction false} StaysStopped(c: nat, b: nat, run: seq<Action>, n: nat, k: nat, x: Id)
    requires n <= k <= |run| && Exec(c, b, run).Some? && Stopped(After(c, b, run, n), x)
    ensures Stopped(After(c, b, run, k), x)
  {
    hide Next, Exec, Stopped, After;
    if n < k {
      StaysStopped(c, b, run, n, k - 1, x);
      StepAt(c, b, run, k - 1);
      StepStopped(After(c, b, run, k - 1), run[k - 1], After(c, b, run, k), x);
    }
  }

  /** A cancellation ends the consumer loop: its subscriber reads no further batch in the run. */
  lemma CancellationStops(c: nat, b: nat, run: seq<Action>, n: nat, k: nat, m: Message)
    requires n < k < |run| && Exec(c, b, run).Some?
    requires Ends(After(c, b, run, n), run[n], m, Some(OperationCanceledException))
    ensures !(run[k].ReadBatch? && run[k].subscriber == run[n].subscriber)
  {
    StepAt(c, b, run, n);
    StepAt(c, b, run, k);
    hide Next, Exec, Stopped, After;
    var x := run[n].subscriber;
    StepStopped(After(c, b, run, n), run[n], After(c, b, run, n + 1), x);
    StaysStopped(c, b, run, n + 1, k, x);
    StepStopped(After(c, b, run, k), run[k], After(c, b, run, k + 1), x);
  }

  // ----- A relay goes through its snapshot -----

  /** The relay publishes the message, or fails to. */
  predicate Tries(s: State, a: Action, r: Id, m: Message) {
    && (a.RelayPublish? || a.RelayFails?) && a.relay == r
    && Relaying(s, r).Sending? && Relaying(s, r).rest != [] && Relaying(s, r).rest[0] == m
  }

  /** The relay has the message still before it. */
  predicate Ahead(s: State, r: Id, m: Message) {
    match Relaying(s, r)
    case Idle => false
    case Sending(rest) => m in rest
    case Deleting(rest) => rest != [] && m in rest[1..]
  }

  lemma StepAhead(s: State, a: Action, s': State, r: Id, m: Message)
    requires Next(s, a) == Some(s') && Ahead(s, r, m)
    ensures Ahead(s', r, m) || Tries(s, a, r, m)
  {
    hide SubscriberStep;
    if a.ReadBatch? || a.Return? || a.Raise? || a.WriteBack? {
      TasksOnly(s, a, s');
    } else {
      var rest := Relaying(s, r).rest;
      assert rest != [] ==> rest == [rest[0]] + rest[1..];
    }
  }

  lemma StepReads(s: State, r: Id, snapshot: seq<Message>, s': State)
    requires Next(s, ReadPending(r, snapshot)) == Some(s')
    ensures forall m :: Ahead(s', r, m) <==> m in s.pending.Values
  {
    assert Relaying(s', r) == Sending(snapshot);
    hide Next;
    forall m
      ensures m in snapshot <==> m in s.pending.Values
    {
      assert m in snapshot <==> m in (set n | n in snapshot);
    }
  }

  /**
   No failure keeps a relay from the rest of its snapshot: before it reads again it has published, or failed to publish,
   every message that was pending when it read.
   */
  lemma RelaysAll(c: nat, b: nat, run: seq<Action>, n: nat, k: nat, m: Message)
    returns (j: nat)
    requires n < k < |run| && Exec(c, b, run).Some? && run[n].ReadPending?
    requires run[k].ReadPending? && run[k].relay == run[n].relay
    requires m in After(c, b, run, n).pending.Values
    ensures n < j < k && Tries(After(c, b, run, j), run[j], run[n].relay, m)
  {
    var r := run[n].relay;
    StepAt(c, b, run, n);
    StepAt(c, b, run, k);
    hide Next, Exec, Ahead, Tries, After;
    StepReads(After(c, b, run, n), r, run[n].snapshot, After(c, b, run, n + 1));
    NotWhileAhead(After(c, b, run, k), run[k], m);
    j := FindsTry(c, b, run, n + 1, k, r, m);
  }

  lemma {:induction false} FindsTry(c: nat, b: nat, run: seq<Action>, n: nat, k: nat, r: Id, m: Message)
    returns (j: nat)
    requires n <= k <= |run| && Exec(c, b, run).Some?
    requires Ahead(After(c, b, run, n), r, m) && !Ahead(After(c, b, run, k), r, m)
    ensures n <= j < k && Tries(After(c, b, run, j), run[j], r, m)
    decreases k - n
  {
    hide Next, Exec, Ahead, Tries, After;
    StepAt(c, b, run, n);
    StepAhead(After(c, b, run, n), run[n], After(c, b, run, n + 1), r, m);
    j := n;
    if !Tries(After(c, b, run, n), run[n], r, m) {
      j := FindsTry(c, b, run, n + 1, k, r, m);
    }
  }

  lemma NotWhileAhead(s: State, a: Action, m: Message)
    requires a.ReadPending? && Next(s, a).Some?
    ensures !Ahead(s, a.relay, m)
  {
  }

  // ----- A cancelled message -----

  const SEVEN := Message(7, 0)

  const EMPTY := Initial(1, 1)
  const PENDING := EMPTY.(pending := EMPTY.pending[7 := SEVEN], appended := EMPTY.appended + {SEVEN})
  const SENDING := PENDING.(relays := PENDING.relays[0 := Sending([SEVEN])])
  const RELAYED := SENDING.(relays := SENDING.relays[0 := Deleting([SEVEN])], channel := SENDING.channel + [SEVEN],
                            written := SENDING.written + [SEVEN])
  const DELETED := RELAYED.(relays := RELAYED.relays[0 := Sending([SEVEN][1..])], pending := RELAYED.pending - {7})
  const TAKEN := Consume(DELETED, 0, Subscriber(Batch(DELETED.channel[..1]), false))
                   .(channel := DELETED.channel[1..], taken := DELETED.taken + DELETED.channel[..1])

  lemma Relays() returns (run: seq<Action>)
    ensures Exec(1, 1, run) == Some(DELETED)
  {
    assert Exec(1, 1, []) == Some(EMPTY);
    hide Exec;
    run := Go([], EMPTY, Append(SEVEN), PENDING);
    assert PENDING.pending.Values == {SEVEN};
    assert (set m | m in [SEVEN]) == {SEVEN};
    run := Go(run, PENDING, ReadPending(0, [SEVEN]), SENDING);
    RelaySteps();
    hide RelayStep;
    run := Go(run, SENDING, RelayPublish(0), RELAYED);
    run := Go(run, RELAYED, RelayDelete(0), DELETED);
  }

  lemma RelaySteps()
    ensures RelayStep(SENDING, RelayPublish(0)) == Some(RELAYED)
    ensures RelayStep(RELAYED, RelayDelete(0)) == Some(DELETED)
  {
  }

  /** Cancellation does lose a message: this run leaves one nowhere. */
  lemma CancelledIsLost() returns (run: seq<Action>)
    ensures Exec(1, 1, run).Some?
    ensures var s := Exec(1, 1, run).value;
            SEVEN in s.appended && !IsPending(s, SEVEN) && SEVEN !in s.channel && !InFlight(s, SEVEN)
              && SEVEN !in s.finished
  {
    run := Relays();
    hide Exec;
    run := Go(run, DELETED, ReadBatch(0, 1), TAKEN);
    var stopped := Subscriber(Without(TAKEN.subscribers[0].tasks, 0), true);
    var s := Consume(TAKEN, 0, stopped).(cancelled := TAKEN.cancelled + {SEVEN});
    run := Go(run, TAKEN, Raise(0, 0, OperationCanceledException), s);
  }

  lemma Go(run: seq<Action>, s: State, a: Action, s': State) returns (run': seq<Action>)
    requires Exec(1, 1, run) == Some(s) && Next(s, a) == Some(s')
    ensures Exec(1, 1, run') == Some(s')
  {
    run' := run + [a];
    assert run'[..|run|] == run;
  }
}
