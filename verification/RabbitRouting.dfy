/**
 Where the broker and the subscribers take a message: publication, lock conflicts with their
 retry queues, and rejection. A copy of a message is in a queue, with the routing key it carries.
 */
module RabbitRouting {
  import opened Messages
  import opened QueueNames
  import opened RabbitTopology

  datatype Copy = Copy(queue: string, routingKey: string)

  /** The queues that a message published to `exchange` reaches. */
  function Route(b: Broker, exchange: string, key: string): set<string> {
    set x | x in b.bindings && x.exchange == exchange && TopicMatches(x.pattern, key) :: x.queue
  }

  function Published(b: Broker, exchange: string, key: string): set<Copy> {
    set q | q in Route(b, exchange, key) :: Copy(q, key)
  }

  /** A dead-lettered message carries the routing key of its queue's arguments. */
  function DeadLettered(b: Broker, c: Copy): set<Copy> {
    if c.queue in b.queues && b.queues[c.queue].DeadLetters?
    then Published(b, b.queues[c.queue].exchange, b.queues[c.queue].routingKey) else {}
  }

  /** Only queues with a time to live dead-letter a message because it waited. */
  function Expired(b: Broker, c: Copy): set<Copy> {
    if c.queue in b.queues && b.queues[c.queue].DeadLetters? && b.queues[c.queue].messageTtl.Some?
      then DeadLettered(b, c) else {}
  }

  /**
   Every subscriber that holds a copy meets a lock conflict: it publishes the message to the retry exchange of its own
   references, under the key the copy carries, and what reaches the retry queues expires there.
   */
  function Conflicted(b: Broker, endpoints: set<Endpoint>, copies: set<Copy>): set<Copy> {
    set c, e, r, d | c in copies && e in endpoints && e.Refs().queueName == c.queue
                     && r in Published(b, e.Refs().RetryExchangeName(), c.routingKey) && d in Expired(b, r) :: d
  }

  /**
   Where a message of `e` is once it was published and met lock conflicts: each of `conflicts` says which copies meet
   one next, while the others stay where they are.
   */
  function AfterConflicts(b: Broker, endpoints: set<Endpoint>, e: Endpoint, conflicts: seq<set<Copy>>): set<Copy> {
    if conflicts == [] then Published(b, e.Refs().exchangeName, e.Refs().routingKey)
    else
      var held := AfterConflicts(b, endpoints, e, conflicts[..|conflicts| - 1]);
      var next := conflicts[|conflicts| - 1];
      (held - next) + Conflicted(b, endpoints, held * next)
  }

  /** The endpoints that share the exchange of `e`: its message type in every client group. */
  predicate Shares(endpoints: set<Endpoint>, e: Endpoint, f: Endpoint) {
    f in endpoints && f.Refs().exchangeName == e.Refs().exchangeName
  }

  /** The copy is in the main queue of the type of `e`, in some client group, under the type's routing key. */
  ghost predicate IsMain(endpoints: set<Endpoint>, e: Endpoint, c: Copy) {
    exists f :: Shares(endpoints, e, f) && c == Copy(f.Refs().queueName, e.Refs().routingKey)
  }

  // ----- Bindings -----

  lemma DeadLetterWords(a: string, g: string)
    ensures Words(a + ".dead" + "." + g + ".workers") == Words(a) + (["dead"] + (Words(g) + ["workers"]))
  {
    assert a + ".dead" + "." + g + ".workers" == a + "." + ("dead" + "." + (g + "." + "workers"));
    hide Words;
    OneWord("workers");
    OneWord("dead");
    WordsOfBoth(g, "workers");
    WordsOfBoth("dead", g + "." + "workers");
    WordsOfBoth(a, "dead" + "." + (g + "." + "workers"));
  }

  lemma ValidTopics(e: Endpoint)
    requires e.Valid()
    ensures WildcardFree(e.Refs().routingKey) && WildcardFree(e.Refs().deadLetterQueue)
  {
    RefsAre(e);
    DeadLetterWords(ToLower(e.messageType), e.group);
    hide Words, DefaultReferences;
  }

  /** Among all names of valid endpoints, an exchange name is that of one kind and one message type. */
  lemma ExchangesApart(e: Endpoint, f: Endpoint)
    requires e.Valid() && f.Valid()
    ensures var r, q := e.Refs(), f.Refs();
            && r.exchangeName != q.deadLetterExchangeName && r.exchangeName != q.RetryExchangeName()
            && r.deadLetterExchangeName != q.RetryExchangeName()
            && (r.deadLetterExchangeName == q.deadLetterExchangeName <==> r.exchangeName == q.exchangeName)
            && (r.RetryExchangeName() == q.RetryExchangeName() <==> r.exchangeName == q.exchangeName)
  {
    var r, q := e.Refs(), f.Refs();
    NamesOf(e.messageType, e.group, r.Names()[0]);
    NamesOf(e.messageType, e.group, r.Names()[1]);
    NamesOf(e.messageType, e.group, r.Names()[2]);
    NamesOf(f.messageType, f.group, q.Names()[0]);
    NamesOf(f.messageType, f.group, q.Names()[1]);
    NamesOf(f.messageType, f.group, q.Names()[2]);
    SixNames(e.messageType, e.group);
    SixNames(f.messageType, f.group);
  }

  /**
   A binding of a declared topology takes a message of `e` from exactly one of its exchanges, and by the exact key.
   */
  lemma BindingTakes(e: Endpoint, f: Endpoint, x: Binding)
    requires e.Valid() && f.Valid() && x in BindingsOf(f.Refs())
    ensures var r, q := e.Refs(), f.Refs();
            && (x.exchange == r.exchangeName && TopicMatches(x.pattern, r.routingKey) <==>
                  x == Binding(q.exchangeName, q.routingKey, q.queueName) && q.exchangeName == r.exchangeName)
            && (x.exchange == r.RetryExchangeName() && TopicMatches(x.pattern, r.routingKey) <==>
                  x == Binding(q.RetryExchangeName(), q.routingKey, q.RetryQueueName())
                    && q.exchangeName == r.exchangeName)
            && (x.exchange == r.deadLetterExchangeName && TopicMatches(x.pattern, r.deadLetterQueue) <==>
                  x == Binding(q.deadLetterExchangeName, q.deadLetterQueue, q.deadLetterQueue)
                  && q.deadLetterQueue == r.deadLetterQueue && q.exchangeName == r.exchangeName)
  {
    ValidTopics(f);
    ExchangesApart(e, f);
    ExchangesApart(f, e);
    ExactTopic(f.Refs().routingKey, e.Refs().routingKey);
    ExactTopic(f.Refs().deadLetterQueue, e.Refs().deadLetterQueue);
    RefsAre(e);
    RefsAre(f);
    hide TopicMatches, WildcardFree, DotFree, DefaultReferences;
  }

  // ----- Routes -----

  /** A message published to the exchange of `e` reaches the main queues of its type, and nothing else. */
  lemma RouteMain(b: Broker, endpoints: set<Endpoint>, e: Endpoint)
    requires IsTopology(b, endpoints) && e in endpoints && AllValid(endpoints)
    ensures forall q :: q in Route(b, e.Refs().exchangeName, e.Refs().routingKey)
                        <==> exists f :: Shares(endpoints, e, f) && q == f.Refs().queueName
  {
    forall x | x in b.bindings
      ensures x.exchange == e.Refs().exchangeName && TopicMatches(x.pattern, e.Refs().routingKey) ==>
                exists f :: Shares(endpoints, e, f) && x.queue == f.Refs().queueName
    {
      var f :| f in endpoints && x in BindingsOf(f.Refs());
      BindingTakes(e, f, x);
    }
    forall f | Shares(endpoints, e, f)
      ensures f.Refs().queueName in Route(b, e.Refs().exchangeName, e.Refs().routingKey)
    {
      var x := Binding(f.Refs().exchangeName, f.Refs().routingKey, f.Refs().queueName);
      assert x in BindingsOf(f.Refs());
      BindingTakes(e, f, x);
    }
  }

  lemma RouteRetry(b: Broker, endpoints: set<Endpoint>, e: Endpoint)
    requires IsTopology(b, endpoints) && e in endpoints && AllValid(endpoints)
    ensures forall q :: q in Route(b, e.Refs().RetryExchangeName(), e.Refs().routingKey)
                        <==> exists f :: Shares(endpoints, e, f) && q == f.Refs().RetryQueueName()
  {
    forall x | x in b.bindings
      ensures x.exchange == e.Refs().RetryExchangeName() && TopicMatches(x.pattern, e.Refs().routingKey) ==>
                exists f :: Shares(endpoints, e, f) && x.queue == f.Refs().RetryQueueName()
    {
      var f :| f in endpoints && x in BindingsOf(f.Refs());
      BindingTakes(e, f, x);
    }
    forall f | Shares(endpoints, e, f)
      ensures f.Refs().RetryQueueName() in Route(b, e.Refs().RetryExchangeName(), e.Refs().routingKey)
    {
      var x := Binding(f.Refs().RetryExchangeName(), f.Refs().routingKey, f.Refs().RetryQueueName());
      assert x in BindingsOf(f.Refs());
      BindingTakes(e, f, x);
    }
  }

  /** What the broker has for the main and the retry queue of an endpoint. */
  lemma DeclaredArguments(b: Broker, endpoints: set<Endpoint>, e: Endpoint)
    requires IsTopology(b, endpoints) && e in endpoints
    ensures var r := e.Refs();
            && r.queueName in b.queues
            && b.queues[r.queueName] == DeadLetters(r.deadLetterExchangeName, r.deadLetterQueue, None)
            && r.RetryQueueName() in b.queues
            && b.queues[r.RetryQueueName()] == DeadLetters(r.exchangeName, r.routingKey, Some(e.retryDelay))
  {
    RefsAre(e);
    QueueArguments(e.Refs(), e.retryDelay);
    hide DefaultReferences, QueuesOf;
    assert e.Refs().queueName in e.Queues() && e.Refs().RetryQueueName() in e.Queues();
  }

  /** A message rejected from a main queue reaches the dead-letter queue of that topology, and nothing else. */
  lemma RejectedOnce(b: Broker, endpoints: set<Endpoint>, e: Endpoint, key: string)
    requires IsTopology(b, endpoints) && e in endpoints && AllValid(endpoints)
    ensures DeadLettered(b, Copy(e.Refs().queueName, key)) == {Copy(e.Refs().deadLetterQueue, e.Refs().deadLetterQueue)}
  {
    var r := e.Refs();
    DeclaredArguments(b, endpoints, e);
    forall x | x in b.bindings && x.exchange == r.deadLetterExchangeName && TopicMatches(x.pattern, r.deadLetterQueue)
      ensures x.queue == r.deadLetterQueue
    {
      var f :| f in endpoints && x in BindingsOf(f.Refs());
      BindingTakes(e, f, x);
    }
    var x := Binding(r.deadLetterExchangeName, r.deadLetterQueue, r.deadLetterQueue);
    assert x in BindingsOf(r);
    BindingTakes(e, e, x);
    hide IsTopology, TopicMatches, DefaultReferences;
    assert r.deadLetterQueue in Route(b, r.deadLetterExchangeName, r.deadLetterQueue);
  }

  lemma DeadLetterArguments(b: Broker, endpoints: set<Endpoint>, e: Endpoint)
    requires IsTopology(b, endpoints) && e in endpoints
    ensures e.Refs().deadLetterQueue in b.queues && !b.queues[e.Refs().deadLetterQueue].DeadLetters?
  {
    RefsAre(e);
    QueueArguments(e.Refs(), e.retryDelay);
    hide DefaultReferences, QueuesOf;
    assert e.Refs().deadLetterQueue in e.Queues();
  }

  /** What waits in a main or a dead-letter queue stays there; a dead-lettered message is not taken any further. */
  lemma OnlyRetriesExpire(b: Broker, endpoints: set<Endpoint>, e: Endpoint, key: string)
    requires IsTopology(b, endpoints) && e in endpoints
    ensures Expired(b, Copy(e.Refs().queueName, key)) == {}
    ensures Expired(b, Copy(e.Refs().deadLetterQueue, key)) == {}
    ensures DeadLettered(b, Copy(e.Refs().deadLetterQueue, key)) == {}
  {
    DeclaredArguments(b, endpoints, e);
    DeadLetterArguments(b, endpoints, e);
  }

  // ----- Lock conflicts -----

  /** What expires in a retry queue of the type comes to its main queues, under the type's key. */
  lemma RetryExpires(b: Broker, endpoints: set<Endpoint>, e: Endpoint, f: Endpoint, d: Copy, key: string)
    requires IsTopology(b, endpoints) && AllValid(endpoints) && e in endpoints && Shares(endpoints, e, f)
    ensures d in Expired(b, Copy(f.Refs().RetryQueueName(), key)) <==> IsMain(endpoints, e, d)
  {
    DeclaredArguments(b, endpoints, f);
    RouteMain(b, endpoints, e);
    RefsAre(e);
    RefsAre(f);
    hide Route, IsTopology, DefaultReferences;
  }

  /** One copy in a main queue of the type, and one lock conflict: all the main queues of the type, and nothing else. */
  lemma ConflictOfOne(b: Broker, endpoints: set<Endpoint>, e: Endpoint, f: Endpoint, g: Endpoint, d: Copy)
    requires IsTopology(b, endpoints) && AllValid(endpoints) && e in endpoints
    requires Shares(endpoints, e, f) && g in endpoints && g.Refs().queueName == f.Refs().queueName
    ensures (exists r :: r in Published(b, g.Refs().RetryExchangeName(), e.Refs().routingKey) && d in Expired(b, r))
            <==> IsMain(endpoints, e, d)
  {
    SameType(f, g);
    RouteRetry(b, endpoints, e);
    RefsAre(e);
    RefsAre(g);
    hide Route, IsTopology, DefaultReferences, Expired, IsMain;
    var key := e.Refs().routingKey;
    assert g.Refs().RetryExchangeName() == e.Refs().RetryExchangeName();
    forall r | r in Published(b, g.Refs().RetryExchangeName(), key)
      ensures d in Expired(b, r) <==> IsMain(endpoints, e, d)
    {
      var h :| Shares(endpoints, e, h) && r.queue == h.Refs().RetryQueueName();
      RetryExpires(b, endpoints, e, h, d, key);
    }
    assert Shares(endpoints, e, f);
    assert f.Refs().RetryQueueName() in Route(b, e.Refs().RetryExchangeName(), key);
    assert Copy(f.Refs().RetryQueueName(), key) in Published(b, g.Refs().RetryExchangeName(), key);
  }

  lemma SameType(f: Endpoint, g: Endpoint)
    requires f.Valid() && g.Valid() && f.Refs().queueName == g.Refs().queueName
    ensures ToLower(f.messageType) == ToLower(g.messageType) && f.Refs() == g.Refs()
  {
    NamesOf(f.messageType, f.group, f.Refs().Names()[3]);
    NamesOf(g.messageType, g.group, g.Refs().Names()[3]);
    RefsAre(f);
    RefsAre(g);
    Middle(ToLower(f.messageType), f.group, g.group, ".workers");
  }

  /** From copies in main queues of the type, a lock conflict leads to exactly its main queues in every client group. */
  lemma ConflictReturns(b: Broker, endpoints: set<Endpoint>, e: Endpoint, copies: set<Copy>)
    requires IsTopology(b, endpoints) && AllValid(endpoints) && e in endpoints
    requires copies != {} && forall c | c in copies :: IsMain(endpoints, e, c)
    ensures forall d :: d in Conflicted(b, endpoints, copies) <==> IsMain(endpoints, e, d)
  {
    hide IsTopology, DefaultReferences, Published, Expired;
    forall d
      ensures d in Conflicted(b, endpoints, copies) <==> IsMain(endpoints, e, d)
    {
      forall c, g | c in copies && g in endpoints && g.Refs().queueName == c.queue
        ensures (exists r :: r in Published(b, g.Refs().RetryExchangeName(), c.routingKey) && d in Expired(b, r))
                <==> IsMain(endpoints, e, d)
      {
        var f :| Shares(endpoints, e, f) && c == Copy(f.Refs().queueName, e.Refs().routingKey);
        ConflictOfOne(b, endpoints, e, f, g, d);
      }
      var c :| c in copies;
      var f :| Shares(endpoints, e, f) && c == Copy(f.Refs().queueName, e.Refs().routingKey);
      assert f in endpoints && f.Refs().queueName == c.queue;
    }
  }

  /** Copies in main queues of the type, of which some meet a lock conflict. */
  lemma SomeConflict(b: Broker, endpoints: set<Endpoint>, e: Endpoint, held: set<Copy>, next: set<Copy>)
    requires IsTopology(b, endpoints) && AllValid(endpoints) && e in endpoints
    requires forall d :: d in held <==> IsMain(endpoints, e, d)
    ensures forall d :: d in (held - next) + Conflicted(b, endpoints, held * next) <==> IsMain(endpoints, e, d)
  {
    hide IsTopology, IsMain, Conflicted;
    if held * next != {} {
      ConflictReturns(b, endpoints, e, held * next);
    } else {
      NoConflict(b, endpoints);
    }
  }

  lemma NoConflict(b: Broker, endpoints: set<Endpoint>)
    ensures Conflicted(b, endpoints, {}) == {}
  {
  }

  /**
   After any lock conflicts, each met wherever some copy of the message was, in any order: the main queues of the type,
   under its key.
   */
  lemma {:induction false} HeldAfter(b: Broker, endpoints: set<Endpoint>, e: Endpoint, conflicts: seq<set<Copy>>)
    requires IsTopology(b, endpoints) && e in endpoints && AllValid(endpoints)
    ensures forall d :: d in AfterConflicts(b, endpoints, e, conflicts) <==> IsMain(endpoints, e, d)
  {
    hide IsTopology, IsMain, Conflicted;
    if conflicts == [] {
      PublishedMain(b, endpoints, e);
    } else {
      var before := conflicts[..|conflicts| - 1];
      HeldAfter(b, endpoints, e, before);
      SomeConflict(b, endpoints, e, AfterConflicts(b, endpoints, e, before), conflicts[|conflicts| - 1]);
    }
  }

  lemma PublishedMain(b: Broker, endpoints: set<Endpoint>, e: Endpoint)
    requires IsTopology(b, endpoints) && e in endpoints && AllValid(endpoints)
    ensures forall d :: d in Published(b, e.Refs().exchangeName, e.Refs().routingKey) <==> IsMain(endpoints, e, d)
  {
    RouteMain(b, endpoints, e);
    hide Route, IsTopology, DefaultReferences;
  }

  /**
   Retry routing: after any lock conflicts of any copies a message is in its own main queue and no other, and still
   carries its own routing key, if and only if no other client group has declared its type.
   */
  lemma RetriesComeBack(b: Broker, endpoints: set<Endpoint>, e: Endpoint, conflicts: seq<set<Copy>>)
    requires IsTopology(b, endpoints) && e in endpoints && AllValid(endpoints)
    ensures AfterConflicts(b, endpoints, e, conflicts) == {Copy(e.Refs().queueName, e.Refs().routingKey)}
            <==> forall f | Shares(endpoints, e, f) :: f.group == e.group
  {
    HeldAfter(b, endpoints, e, conflicts);
    hide AfterConflicts, IsTopology;
    var copies := AfterConflicts(b, endpoints, e, conflicts);
    assert Shares(endpoints, e, e);
    forall f | Shares(endpoints, e, f)
      ensures f.Refs().queueName == e.Refs().queueName <==> f.group == e.group
      ensures Copy(f.Refs().queueName, e.Refs().routingKey) in copies
    {
      GroupOfQueue(e, f);
      assert IsMain(endpoints, e, Copy(f.Refs().queueName, e.Refs().routingKey));
    }
    hide DefaultReferences;
    if forall f | Shares(endpoints, e, f) :: f.group == e.group {
      assert copies == {Copy(e.Refs().queueName, e.Refs().routingKey)};
    }
  }

  /** And there is one copy of it: one retry queue takes it, and gives it back to one main queue. */
  lemma OneCopyComesBack(b: Broker, endpoints: set<Endpoint>, e: Endpoint)
    requires IsTopology(b, endpoints) && e in endpoints && AllValid(endpoints)
    requires forall f | Shares(endpoints, e, f) :: f.group == e.group
    ensures var r := e.Refs();
            && Published(b, r.RetryExchangeName(), r.routingKey) == {Copy(r.RetryQueueName(), r.routingKey)}
            && Expired(b, Copy(r.RetryQueueName(), r.routingKey)) == {Copy(r.queueName, r.routingKey)}
  {
    forall f | Shares(endpoints, e, f)
      ensures f.Refs().queueName == e.Refs().queueName
    {
      GroupOfQueue(e, f);
    }
    hide IsTopology, Published, Expired, DefaultReferences;
    OneRetryQueue(b, endpoints, e);
    OneMainQueue(b, endpoints, e);
  }

  lemma OneRetryQueue(b: Broker, endpoints: set<Endpoint>, e: Endpoint)
    requires IsTopology(b, endpoints) && e in endpoints && AllValid(endpoints)
    requires forall f | Shares(endpoints, e, f) :: f.Refs().queueName == e.Refs().queueName
    ensures var r := e.Refs();
            Published(b, r.RetryExchangeName(), r.routingKey) == {Copy(r.RetryQueueName(), r.routingKey)}
  {
    var r := e.Refs();
    RouteRetry(b, endpoints, e);
    assert Shares(endpoints, e, e);
    hide IsTopology, DefaultReferences, Route;
    forall f | Shares(endpoints, e, f)
      ensures f.Refs().RetryQueueName() == r.RetryQueueName()
    {
    }
    assert r.RetryQueueName() in Route(b, r.RetryExchangeName(), r.routingKey);
  }

  lemma OneMainQueue(b: Broker, endpoints: set<Endpoint>, e: Endpoint)
    requires IsTopology(b, endpoints) && e in endpoints && AllValid(endpoints)
    requires forall f | Shares(endpoints, e, f) :: f.Refs().queueName == e.Refs().queueName
    ensures var r := e.Refs(); Expired(b, Copy(r.RetryQueueName(), r.routingKey)) == {Copy(r.queueName, r.routingKey)}
  {
    var r := e.Refs();
    assert Shares(endpoints, e, e);
    hide IsTopology, Expired, DefaultReferences;
    forall d
      ensures d in Expired(b, Copy(r.RetryQueueName(), r.routingKey)) <==> d == Copy(r.queueName, r.routingKey)
    {
      RetryExpires(b, endpoints, e, e, d, r.routingKey);
    }
  }

  lemma GroupOfQueue(e: Endpoint, f: Endpoint)
    requires f.Refs().exchangeName == e.Refs().exchangeName
    ensures f.Refs().queueName == e.Refs().queueName <==> f.group == e.group
  {
    RefsAre(e);
    RefsAre(f);
    if f.Refs().queueName == e.Refs().queueName {
      Middle(ToLower(e.messageType), f.group, e.group, ".workers");
    }
  }
}
