/**
 The sample workloads under the saga protocol: what the workers of a run commit on one instance
 is a sequence of deliveries without repetition, and a key that no grant takes over has one
 instance.
 */
module WorkloadRuns {
  import opened Messages
  import opened SagaProtocol
  import opened ProtocolInvariant
  import opened ProtocolTheorems
  import opened ProtocolRuns
  import opened ProtocolKeys
  import Orders = OrderWorkload
  import Steps = StepsWorkload

  /** The messages committed on instance `i`, in order. */
  function MessagesOn(commits: seq<Commit>, i: Id): seq<Id> {
    if commits == [] then []
    else
      var c := commits[|commits| - 1];
      MessagesOn(commits[..|commits| - 1], i) + (if c.instance == i then [c.message] else [])
  }

  /** The messages committed for the key, on any instance, in order. */
  function MessagesFor(commits: seq<Commit>, keyOf: map<Id, SagaKey>, k: SagaKey): seq<Id> {
    if commits == [] then []
    else
      var c := commits[|commits| - 1];
      MessagesFor(commits[..|commits| - 1], keyOf, k)
      + (if c.instance in keyOf && keyOf[c.instance] == k then [c.message] else [])
  }

  ghost predicate NoRepeats(ids: seq<Id>) {
    forall j, k | 0 <= j < k < |ids| :: ids[j] != ids[k]
  }

  lemma {:induction false} OnlyCommitted(commits: seq<Commit>, i: Id)
    requires NoDuplicates(commits)
    ensures NoRepeats(MessagesOn(commits, i))
    ensures forall m :: m in MessagesOn(commits, i) <==> Commit(i, m) in commits
  {
    if commits != [] {
      var before, c := commits[..|commits| - 1], commits[|commits| - 1];
      OnlyCommitted(before, i);
      assert commits == before + [c];
      assert c !in before;
      if c.instance == i {
        assert c == Commit(i, c.message);
      }
    }
  }

  /** In any run no message is committed twice on an instance, and its commits are in this order. */
  lemma CommitsOnce(run: seq<Action>, i: Id)
    requires Exec(run).Some?
    ensures NoRepeats(MessagesOn(Exec(run).value.commits, i))
  {
    AtMostOnce(run);
    OnlyCommitted(Exec(run).value.commits, i);
  }

  lemma {:induction false} OneInstance(commits: seq<Commit>, keyOf: map<Id, SagaKey>, k: SagaKey, i: Id)
    requires forall c | c in commits :: (c.instance in keyOf && keyOf[c.instance] == k) <==> c.instance == i
    ensures MessagesFor(commits, keyOf, k) == MessagesOn(commits, i)
  {
    if commits != [] {
      OneInstance(commits[..|commits| - 1], keyOf, k, i);
    }
  }

  lemma {:induction false} NoneFor(commits: seq<Commit>, keyOf: map<Id, SagaKey>, k: SagaKey)
    requires forall c | c in commits :: !(c.instance in keyOf && keyOf[c.instance] == k)
    ensures MessagesFor(commits, keyOf, k) == []
  {
    if commits != [] {
      NoneFor(commits[..|commits| - 1], keyOf, k);
    }
  }

  /** A key that no grant takes over: all that is committed for it is committed on one instance. */
  lemma StableKeyCommits(run: seq<Action>, k: SagaKey)
    requires Exec(run).Some? && forall j | 0 <= j < |run| :: !TakesOver(After(run, j), run[j], k)
    ensures var s := Exec(run).value;
            && NoRepeats(MessagesFor(s.commits, s.keyOf, k))
            && (MessagesFor(s.commits, s.keyOf, k) == []
                || exists i :: i in s.keyOf && s.keyOf[i] == k
                               && MessagesFor(s.commits, s.keyOf, k) == MessagesOn(s.commits, i))
  {
    KeyStableIff(run, k);
    KeyStability(run, k);
    RunsKeep(run);
    hide Exec, After, TakesOver;
    var s := Exec(run).value;
    SomeCommit(s);
    if c :| c in s.commits && c.instance in s.keyOf && s.keyOf[c.instance] == k {
      OneInstance(s.commits, s.keyOf, k, c.instance);
      CommitsOnce(run, c.instance);
    } else {
      NoneFor(s.commits, s.keyOf, k);
    }
  }

  lemma SomeCommit(s: State)
    requires Inv(s)
    ensures forall c | c in s.commits :: c.instance in s.grantedTo && c.instance in s.keyOf
  {
    forall c | c in s.commits
      ensures c.instance in s.grantedTo && c.instance in s.keyOf
    {
      assert c.instance in s.grantedTo;
    }
  }

  // ----- The order saga -----

  /** What the workers of a run commit on an instance is a sequence of deliveries of the order workload. */
  lemma OrderIsDelivered(run: seq<Action>, i: Id, messages: map<Id, Orders.Message>)
    requires Exec(run).Some? && forall m | m in MessagesOn(Exec(run).value.commits, i) :: m in messages
    ensures var ids := MessagesOn(Exec(run).value.commits, i);
            Orders.HandleAll(messages, ids) == Orders.After(messages, ids)
  {
    CommitsOnce(run, i);
    Orders.HandlesOnce(messages, MessagesOn(Exec(run).value.commits, i));
  }

  /**
   However many workers run the order saga and however often its messages are delivered: where no grant takes over the
   key and each check has one completion, shipping is asked for at most once, and exactly once when both are committed.
   */
  lemma OrderShipsOnce(run: seq<Action>, k: SagaKey, messages: map<Id, Orders.Message>)
    requires Exec(run).Some? && forall j | 0 <= j < |run| :: !TakesOver(After(run, j), run[j], k)
    requires var s := Exec(run).value; forall m | m in MessagesFor(s.commits, s.keyOf, k) :: m in messages
    requires Orders.Single(messages, Orders.CreditCheckCompleted)
    requires Orders.Single(messages, Orders.InventoryCheckCompleted)
    ensures var s := Exec(run).value;
            var r := Orders.HandleAll(messages, MessagesFor(s.commits, s.keyOf, k));
            Orders.Shipments(r.published)
            == if r.order.creditCheckCompleted && r.order.inventoryCheckCompleted then 1 else 0
  {
    var s := Exec(run).value;
    var ids := MessagesFor(s.commits, s.keyOf, k);
    StableKeyCommits(run, k);
    hide Exec, After, TakesOver, Orders.Shipments, Orders.HandleAll, Orders.After;
    Orders.HandlesOnce(messages, ids);
    Orders.ShipsOnce(messages, ids);
  }

  // ----- The steps saga -----

  /** What the workers of a run commit on an instance of the steps saga handles exactly its messages, each once. */
  lemma StepsAreDelivered(run: seq<Action>, i: Id, n: Steps.Int32, ds: seq<Steps.Delivery>)
    requires Exec(run).Some? && |ds| == |MessagesOn(Exec(run).value.commits, i)| && n < Steps.MAX_INT
    requires forall k | 0 <= k < |ds| :: ds[k].id == MessagesOn(Exec(run).value.commits, i)[k]
    requires Steps.HandleAll(n, ds).Some?
    ensures var r := Steps.HandleAll(n, ds).value;
            && r.handled <= Steps.Complete(n) && (r.steps.isCompleted <==> r.handled == Steps.Complete(n))
  {
    CommitsOnce(run, i);
    hide Exec, Steps.HandleAll, Steps.After, Steps.Complete;
    Steps.HandlesOnce(n, ds);
    Steps.HandlesExactly(n, ds);
  }
}
