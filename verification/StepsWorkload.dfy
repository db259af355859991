/**
 The steps sample: a saga that sends itself ProcessNextStep messages until its counter has
 passed the total, on a runtime that delivers every message any number of times and has each
 instance handle a message at most once, and none after its completion.
 */
module StepsWorkload {
  import opened Messages

  const MAX_INT := 0x7fff_ffff

  type Int32 = x: int | -MAX_INT - 1 <= x <= MAX_INT

  datatype Message = StartStepsSaga(stepsCount: Int32) | ProcessNextStep | SagaCompleted

  datatype Steps = Steps(totalSteps: Int32, currentStep: Int32, isCompleted: bool)

  const FRESH := Steps(0, 0, false)

  /** `CurrentStep++` is unchecked: one more, modulo 2 to the 32. */
  function Increment(x: Int32): (r: Int32)
    ensures (r - x - 1) % 0x1_0000_0000 == 0
  {
    if x == MAX_INT then -MAX_INT - 1 else x + 1
  }

  /** What handling a message leaves of the state. */
  function Handled(s: Steps, m: Message): Steps {
    match m
    case StartStepsSaga(n) => s.(totalSteps := n, currentStep := 0)
    case ProcessNextStep => s.(currentStep := Increment(s.currentStep))
    case SagaCompleted => s.(isCompleted := true)
  }

  /** And what it publishes. */
  function Published(s: Steps, m: Message): Option<Message> {
    match m
    case StartStepsSaga(_) => Some(ProcessNextStep)
    case ProcessNextStep => Some(if Increment(s.currentStep) > s.totalSteps then SagaCompleted else ProcessNextStep)
    case SagaCompleted => None
  }

  class StepsSaga {
    var clientId: string
    var totalSteps: Int32
    var currentStep: Int32
    var isCompleted: bool
    var published: seq<Message>

    constructor ()
      ensures State() == FRESH && published == []
    {
      clientId, totalSteps, currentStep, isCompleted, published := "", 0, 0, false, [];
    }

    function State(): Steps
      reads this
    {
      Steps(totalSteps, currentStep, isCompleted)
    }

    method Publish(m: Message)
      modifies this`published
      ensures published == old(published) + [m]
    {
      published := published + [m];
    }

    method HandleStart(stepsCount: Int32, clientId: string)
      modifies this
      ensures State() == Handled(old(State()), StartStepsSaga(stepsCount)) && this.clientId == clientId
      ensures published == old(published) + [Published(old(State()), StartStepsSaga(stepsCount)).value]
    {
      this.clientId := clientId;
      totalSteps := stepsCount;
      currentStep := 0;
      Publish(ProcessNextStep);
    }

    method HandleNext()
      modifies this
      ensures State() == Handled(old(State()), ProcessNextStep) && clientId == old(clientId)
      ensures published == old(published) + [Published(old(State()), ProcessNextStep).value]
    {
      currentStep := Increment(currentStep);
      if currentStep > totalSteps {
        Publish(SagaCompleted);
        return;
      }
      Publish(ProcessNextStep);
    }

    method HandleCompleted()
      modifies this
      ensures State() == Handled(old(State()), SagaCompleted) && clientId == old(clientId)
      ensures published == old(published)
    {
      isCompleted := true;
    }
  }

  // ----- Runs -----

  /** One correlation: the messages issued by id, the ids handled, and the history of what was handled. */
  datatype Run = Run(steps: Steps, issued: map<Id, Message>, processed: set<Id>, handled: seq<Message>)

  function Start(n: Int32): Run {
    Run(FRESH, map[0 := StartStepsSaga(n)], {}, [])
  }

  /** Message `id` is delivered, for the first time or again; `newId` is the id of what its handler publishes. */
  datatype Delivery = Delivery(id: Id, newId: Id)

  /** The instance handles a message that is issued, unless it is completed. */
  function Handle(r: Run, d: Delivery): Option<Run> {
    if d.id !in r.issued || d.newId in r.issued then None
    else if r.steps.isCompleted then Some(r)
    else
      var m := r.issued[d.id];
      var out := Published(r.steps, m);
      var issued := if out.Some? then r.issued[d.newId := out.value] else r.issued;
      Some(Run(Handled(r.steps, m), issued, r.processed + {d.id}, r.handled + [m]))
  }

  /** One instance handles each message at most once. */
  function Deliver(r: Run, d: Delivery): Option<Run> {
    if d.id in r.issued && d.newId !in r.issued && d.id in r.processed then Some(r) else Handle(r, d)
  }

  function After(n: Int32, ds: seq<Delivery>): Option<Run> {
    if ds == [] then Some(Start(n))
    else
      match After(n, ds[..|ds| - 1])
      case None => None
      case Some(r) => Deliver(r, ds[|ds| - 1])
  }

  function Nexts(k: nat): seq<Message> {
    seq(k, i requires 0 <= i < k => ProcessNextStep)
  }

  function StepsOf(n: Int32): nat {
    if n <= 0 then 1 else n + 1
  }

  /** All that a saga of `n` steps ever handles. */
  function Complete(n: Int32): seq<Message> {
    [StartStepsSaga(n)] + Nexts(StepsOf(n)) + [SagaCompleted]
  }

  /** Exactly one issued message is still to be handled. */
  predicate Awaits(r: Run, m: Message) {
    exists id :: id in r.issued && AwaitsOnly(r, id, m)
  }

  predicate AwaitsOnly(r: Run, id: Id, m: Message)
    requires id in r.issued
  {
    r.issued[id] == m && id !in r.processed && r.issued.Keys == r.processed + {id}
  }

  /** The phases of a saga that completes. */
  ghost predicate Phase(n: Int32, r: Run) {
    || (r.handled == [] && r.steps == FRESH && Awaits(r, StartStepsSaga(n)))
    || (exists k: nat :: k < StepsOf(n) && Stepping(n, r, k))
    || (r.handled == [StartStepsSaga(n)] + Nexts(StepsOf(n)) && !r.steps.isCompleted && Awaits(r, SagaCompleted))
    || (r.handled == Complete(n) && r.steps.isCompleted && r.issued.Keys == r.processed)
  }

  ghost predicate Stepping(n: Int32, r: Run, k: nat) {
    r.handled == [StartStepsSaga(n)] + Nexts(k) && k <= MAX_INT && r.steps == Steps(n, k, false)
      && Awaits(r, ProcessNextStep)
  }

  lemma NextsGrow(k: nat)
    ensures Nexts(k + 1) == Nexts(k) + [ProcessNextStep]
  {
  }

  lemma Advances(r: Run, d: Delivery, m: Message)
    requires Awaits(r, m) && Deliver(r, d).Some? && !r.steps.isCompleted
    ensures var r' := Deliver(r, d).value;
            if r' == r then d.id in r.processed
            else r'.handled == r.handled + [m] && r'.steps == Handled(r.steps, m) &&
                 match Published(r.steps, m)
                 case Some(m') => Awaits(r', m')
                 case None => r'.issued.Keys == r'.processed
  {
    var id :| id in r.issued && AwaitsOnly(r, id, m);
    var r' := Deliver(r, d).value;
    if d.id == id {
      assert r'.handled != r.handled;
      if Published(r.steps, m).Some? {
        assert AwaitsOnly(r', d.newId, Published(r.steps, m).value);
      }
    }
  }

  lemma DeliverKeeps(n: Int32, r: Run, d: Delivery)
    requires n < MAX_INT && Phase(n, r) && Deliver(r, d).Some?
    ensures Phase(n, Deliver(r, d).value)
  {
    var r' := Deliver(r, d).value;
    if r' == r || r.steps.isCompleted {
      return;
    }
    if r.handled == [] {
      Advances(r, d, StartStepsSaga(n));
      assert [] + [StartStepsSaga(n)] == [StartStepsSaga(n)] + Nexts(0);
      assert Stepping(n, r', 0);
    } else if k: nat :| k < StepsOf(n) && Stepping(n, r, k) {
      Advances(r, d, ProcessNextStep);
      NextsGrow(k);
      assert [StartStepsSaga(n)] + Nexts(k) + [ProcessNextStep] == [StartStepsSaga(n)] + Nexts(k + 1);
      if k + 1 < StepsOf(n) {
        assert Stepping(n, r', k + 1);
      }
    } else {
      Advances(r, d, SagaCompleted);
    }
  }

  lemma {:induction false} RunsKeep(n: Int32, ds: seq<Delivery>)
    requires n < MAX_INT && After(n, ds).Some?
    ensures Phase(n, After(n, ds).value)
  {
    if ds == [] {
      assert AwaitsOnly(Start(n), 0, StartStepsSaga(n));
    } else {
      RunsKeep(n, ds[..|ds| - 1]);
      DeliverKeeps(n, After(n, ds[..|ds| - 1]).value, ds[|ds| - 1]);
    }
  }

  /**
   Whatever is delivered, in whatever order and however often, the saga handles a prefix of: its start, max(n, 0) + 1
   ProcessNextStep messages, one SagaCompleted. It has handled all of that exactly when it is completed, and until then
   there is exactly one message whose delivery takes it further.
   */
  lemma HandlesExactly(n: Int32, ds: seq<Delivery>)
    requires n < MAX_INT && After(n, ds).Some?
    ensures var r := After(n, ds).value;
            && r.handled <= Complete(n)
            && (r.steps.isCompleted <==> r.handled == Complete(n))
            && (r.steps.isCompleted <==> r.issued.Keys == r.processed)
            && (!r.steps.isCompleted ==> exists m :: Awaits(r, m))
  {
    RunsKeep(n, ds);
    var r := After(n, ds).value;
    if k: nat :| k < StepsOf(n) && Stepping(n, r, k) {
      assert Nexts(k) <= Nexts(StepsOf(n));
      assert [StartStepsSaga(n)] + Nexts(k) <= Complete(n);
    }
  }

  // ----- The largest count -----

  /** With Int32.MaxValue steps the counter wraps around before it can pass the total: the saga never completes. */
  ghost predicate Endless(r: Run) {
    && !r.steps.isCompleted
    && ((r.steps == FRESH && Awaits(r, StartStepsSaga(MAX_INT)))
        || (r.steps.totalSteps == MAX_INT && Awaits(r, ProcessNextStep)))
    && SagaCompleted !in r.handled
  }

  lemma {:induction false} NeverCompletes(ds: seq<Delivery>)
    requires After(MAX_INT, ds).Some?
    ensures Endless(After(MAX_INT, ds).value)
  {
    if ds == [] {
      assert AwaitsOnly(Start(MAX_INT), 0, StartStepsSaga(MAX_INT));
    } else {
      NeverCompletes(ds[..|ds| - 1]);
      var r := After(MAX_INT, ds[..|ds| - 1]).value;
      if r.steps == FRESH && Awaits(r, StartStepsSaga(MAX_INT)) {
        Advances(r, ds[|ds| - 1], StartStepsSaga(MAX_INT));
      } else {
        Advances(r, ds[|ds| - 1], ProcessNextStep);
      }
    }
  }

  // ----- Completion -----

  /** Every message is delivered once, as it is issued. */
  function Straight(k: nat): seq<Delivery> {
    seq(k, i requires 0 <= i < k => Delivery(i, i + 1))
  }

  function UpTo(k: nat): (ids: set<Id>)
    ensures forall i :: i in ids <==> 0 <= i < k
  {
    if k == 0 then {} else UpTo(k - 1) + {k - 1}
  }

  /** The first `k` messages are handled, and the next is issued unless the saga is complete. */
  ghost predicate StraightTo(n: Int32, r: Run, k: nat) {
    && |r.handled| == k && r.processed == UpTo(k)
    && r.issued.Keys == UpTo(if k < StepsOf(n) + 2 then k + 1 else k)
  }

  /** What HandlesExactly says of every run. */
  ghost predicate Handling(n: Int32, r: Run) {
    && r.handled <= Complete(n) && (r.steps.isCompleted <==> r.handled == Complete(n))
    && (r.steps.isCompleted <==> r.issued.Keys == r.processed)
  }

  lemma {:induction false} StraightRuns(n: Int32, k: nat)
    requires n < MAX_INT && k <= StepsOf(n) + 2
    ensures After(n, Straight(k)).Some? && StraightTo(n, After(n, Straight(k)).value, k)
  {
    var ds := Straight(k);
    if k > 0 {
      StraightRuns(n, k - 1);
      assert ds[..k - 1] == Straight(k - 1);
      HandlesExactly(n, ds[..k - 1]);
      var r := After(n, ds[..k - 1]).value;
      NotYet(n, r, k - 1);
      Delivers(r, k - 1);
      assert After(n, ds) == Deliver(r, ds[k - 1]);
      HandlesExactly(n, ds);
      hide After, Deliver, Awaits;
      OneMore(r, ds[k - 1], k - 1);
      Advanced(n, After(n, ds).value, k);
    }
  }

  lemma NotYet(n: Int32, r: Run, k: nat)
    requires k < StepsOf(n) + 2 && Handling(n, r) && StraightTo(n, r, k)
    ensures !r.steps.isCompleted && r.issued.Keys == UpTo(k + 1) && r.processed == UpTo(k)
  {
    hide UpTo;
  }

  lemma Advanced(n: Int32, r: Run, k: nat)
    requires k <= StepsOf(n) + 2 && Handling(n, r) && |r.handled| == k && r.processed == UpTo(k)
    requires r.issued.Keys == UpTo(k + 1) || r.issued.Keys == UpTo(k)
    ensures StraightTo(n, r, k)
  {
    assert k in UpTo(k + 1) && k !in UpTo(k);
    hide UpTo;
  }

  lemma Delivers(r: Run, k: nat)
    requires r.issued.Keys == UpTo(k + 1)
    ensures Deliver(r, Delivery(k, k + 1)).Some?
  {
    assert k in r.issued.Keys && k + 1 !in r.issued.Keys;
    hide UpTo, Published, Handled;
  }

  lemma OneMore(r: Run, d: Delivery, k: nat)
    requires Deliver(r, d).Some? && d == Delivery(k, k + 1) && r.issued.Keys == UpTo(k + 1) && r.processed == UpTo(k)
    requires !r.steps.isCompleted
    ensures var r' := Deliver(r, d).value;
            && |r'.handled| == |r.handled| + 1 && r'.processed == UpTo(k + 1)
            && (r'.issued.Keys == UpTo(k + 2) || r'.issued.Keys == UpTo(k + 1))
  {
    assert UpTo(k + 1) == UpTo(k) + {k} && UpTo(k + 2) == UpTo(k + 1) + {k + 1};
  }

  /** A saga can complete exactly when its count is less than Int32.MaxValue. */
  lemma CompletesIff(n: Int32)
    ensures (exists ds :: After(n, ds).Some? && After(n, ds).value.steps.isCompleted) <==> n < MAX_INT
  {
    if n < MAX_INT {
      var ds := Straight(StepsOf(n) + 2);
      StraightRuns(n, StepsOf(n) + 2);
      HandlesExactly(n, ds);
      assert After(n, ds).value.steps.isCompleted;
    } else {
      forall ds | After(n, ds).Some?
        ensures !After(n, ds).value.steps.isCompleted
      {
        NeverCompletes(ds);
      }
    }
  }

  // ----- Without redelivery -----

  function HandleAll(n: Int32, ds: seq<Delivery>): Option<Run> {
    if ds == [] then Some(Start(n))
    else
      match HandleAll(n, ds[..|ds| - 1])
      case None => None
      case Some(r) => Handle(r, ds[|ds| - 1])
  }

  /** Where no message comes twice, handling whatever comes is the same as delivering it. */
  lemma {:induction false} HandlesOnce(n: Int32, ds: seq<Delivery>)
    requires forall j, k | 0 <= j < k < |ds| :: ds[j].id != ds[k].id
    ensures HandleAll(n, ds) == After(n, ds)
    ensures After(n, ds).Some? ==>
              forall id | id in After(n, ds).value.processed :: exists k :: 0 <= k < |ds| && ds[k].id == id
  {
    if ds != [] {
      var before, d := ds[..|ds| - 1], ds[|ds| - 1];
      HandlesOnce(n, before);
      hide Handled, Published;
      if After(n, before).Some? {
        var r := After(n, before).value;
        assert d.id !in r.processed;
        if After(n, ds).Some? {
          forall id | id in After(n, ds).value.processed
            ensures exists k :: 0 <= k < |ds| && ds[k].id == id
          {
            if id in r.processed {
              var k :| 0 <= k < |before| && before[k].id == id;
              assert ds[k].id == id;
            } else {
              assert ds[|ds| - 1].id == id;
            }
          }
        }
      }
    }
  }
}
