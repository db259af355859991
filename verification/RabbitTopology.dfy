/**
 The RabbitMQ topology that the channel extensions declare, and which topologies one broker can
 have. The broker refuses to declare a queue again with other arguments; declarations that fail
 otherwise are a parameter.
 */
module RabbitTopology {
  import opened Messages
  import opened QueueNames
  import TopologyProtocol

  /** What a queue is declared with: where its dead letters go, and how long (in milliseconds) it keeps a message. */
  datatype Arguments = NoArguments | DeadLetters(exchange: string, routingKey: string, messageTtl: Option<int>)

  datatype Binding = Binding(exchange: string, pattern: string, queue: string)

  datatype Broker = Broker(exchanges: set<string>, queues: map<string, Arguments>, bindings: set<Binding>)

  const EMPTY := Broker({}, map[], {})

  // ----- Topologies -----

  function ExchangesOf(r: QueueReferences): set<string> {
    {r.exchangeName, r.deadLetterExchangeName, r.RetryExchangeName()}
  }

  function BindingsOf(r: QueueReferences): set<Binding> {
    {Binding(r.deadLetterExchangeName, r.deadLetterQueue, r.deadLetterQueue),
     Binding(r.RetryExchangeName(), r.routingKey, r.RetryQueueName()),
     Binding(r.exchangeName, r.routingKey, r.queueName)}
  }

  function QueuesOf(r: QueueReferences, retryDelay: int): map<string, Arguments> {
    map[r.deadLetterQueue := NoArguments,
        r.RetryQueueName() := DeadLetters(r.exchangeName, r.routingKey, Some(retryDelay)),
        r.queueName := DeadLetters(r.deadLetterExchangeName, r.deadLetterQueue, None)]
  }

  /** The broker once everything of `r` is declared. */
  function Declared(b: Broker, r: QueueReferences, retryDelay: int): Broker {
    Broker(b.exchanges + ExchangesOf(r), b.queues + QueuesOf(r, retryDelay), b.bindings + BindingsOf(r))
  }

  /** The broker has no queue of that name with other arguments. */
  predicate Accepts(b: Broker, queue: string, arguments: Arguments) {
    queue in b.queues ==> b.queues[queue] == arguments
  }

  predicate AcceptsAll(b: Broker, r: QueueReferences, retryDelay: int) {
    forall q | q in QueuesOf(r, retryDelay) :: Accepts(b, q, QueuesOf(r, retryDelay)[q])
  }

  function TopologyKey(r: QueueReferences): string {
    r.exchangeName + "|" + r.queueName
  }

  /** A main, a retry and a dead-letter queue are three. */
  predicate ThreeQueues(r: QueueReferences) {
    r.queueName != r.deadLetterQueue && r.RetryQueueName() != r.deadLetterQueue
  }

  lemma QueueArguments(r: QueueReferences, retryDelay: int)
    requires ThreeQueues(r)
    ensures var queues := QueuesOf(r, retryDelay);
            && queues[r.deadLetterQueue] == NoArguments
            && queues[r.RetryQueueName()] == DeadLetters(r.exchangeName, r.routingKey, Some(retryDelay))
            && queues[r.queueName] == DeadLetters(r.deadLetterExchangeName, r.deadLetterQueue, None)
            && queues.Keys == {r.deadLetterQueue, r.RetryQueueName(), r.queueName}
  {
    assert |r.RetryQueueName()| == |r.queueName| + 6;
  }

  /** A channel to the broker. Declaration number `failing` throws. */
  class Channel {
    var broker: Broker
    var initialized: set<string>
    var declarations: nat
    const failing: Option<nat>
    const retryDelay: int

    constructor (broker: Broker, initialized: set<string>, failing: Option<nat>, retryDelay: int)
      ensures this.broker == broker && this.initialized == initialized && declarations == 0
      ensures this.failing == failing && this.retryDelay == retryDelay
    {
      this.broker, this.initialized, declarations, this.failing, this.retryDelay := broker, initialized, 0, failing,
        retryDelay;
    }

    method ExchangeDeclareAsync(exchange: string) returns (ok: bool)
      modifies this`broker, this`declarations
      ensures declarations == old(declarations) + 1 && ok == (failing != Some(old(declarations)))
      ensures broker == if ok then old(broker).(exchanges := old(broker).exchanges + {exchange}) else old(broker)
    {
      ok := failing != Some(declarations);
      declarations := declarations + 1;
      if ok {
        broker := broker.(exchanges := broker.exchanges + {exchange});
      }
    }

    method QueueDeclareAsync(queue: string, arguments: Arguments) returns (ok: bool)
      modifies this`broker, this`declarations
      ensures declarations == old(declarations) + 1
      ensures ok == (failing != Some(old(declarations)) && Accepts(old(broker), queue, arguments))
      ensures broker == if ok then old(broker).(queues := old(broker).queues[queue := arguments]) else old(broker)
    {
      ok := failing != Some(declarations) && (queue in broker.queues ==> broker.queues[queue] == arguments);
      declarations := declarations + 1;
      if ok {
        broker := broker.(queues := broker.queues[queue := arguments]);
      }
    }

    method QueueBindAsync(queue: string, exchange: string, routingKey: string) returns (ok: bool)
      modifies this`broker, this`declarations
      ensures declarations == old(declarations) + 1 && ok == (failing != Some(old(declarations)))
      ensures broker.(bindings := {}) == old(broker).(bindings := {})
      ensures broker.bindings == old(broker).bindings + (if ok then {Binding(exchange, routingKey, queue)} else {})
    {
      ok := failing != Some(declarations);
      declarations := declarations + 1;
      if ok {
        broker := broker.(bindings := broker.bindings + {Binding(exchange, routingKey, queue)});
      }
    }

    method EnsureExchangesAsync(r: QueueReferences) returns (ok: bool)
      modifies this`broker, this`declarations
      ensures ok ==> broker == old(broker).(exchanges := old(broker).exchanges + ExchangesOf(r))
      ensures ok <==> failing.None? || !(old(declarations) <= failing.value < old(declarations) + 3)
      ensures ok ==> declarations == old(declarations) + 3
    {
      ok := ExchangeDeclareAsync(r.exchangeName);
      if !ok { return; }
      ok := ExchangeDeclareAsync(r.deadLetterExchangeName);
      if !ok { return; }
      ok := ExchangeDeclareAsync(r.RetryExchangeName());
    }

    method EnsureQueuesAsync(r: QueueReferences) returns (ok: bool)
      requires ThreeQueues(r)
      modifies this`broker, this`declarations
      ensures ok ==> broker == old(broker).(queues := old(broker).queues + QueuesOf(r, retryDelay),
                                            bindings := old(broker).bindings + BindingsOf(r))
      ensures ok <==> AcceptsAll(old(broker), r, retryDelay)
                      && (failing.None? || !(old(declarations) <= failing.value < old(declarations) + 6))
    {
      QueueArguments(r, retryDelay);
      ok := QueueDeclareAsync(r.deadLetterQueue, NoArguments);
      if !ok { return; }
      ok := QueueBindAsync(r.deadLetterQueue, r.deadLetterExchangeName, r.deadLetterQueue);
      if !ok { return; }
      ok := QueueDeclareAsync(r.RetryQueueName(), DeadLetters(r.exchangeName, r.routingKey, Some(retryDelay)));
      if !ok { return; }
      ok := QueueBindAsync(r.RetryQueueName(), r.RetryExchangeName(), r.routingKey);
      if !ok { return; }
      ok := QueueDeclareAsync(r.queueName, DeadLetters(r.deadLetterExchangeName, r.deadLetterQueue, None));
      if !ok { return; }
      ok := QueueBindAsync(r.queueName, r.exchangeName, r.routingKey);
    }

    /**
     Run alone. It succeeds at once for an initialized key, and otherwise exactly when none of the nine declarations
     fails and the broker has no queue of these names with other arguments; only then does the key count as initialized.
     */
    method EnsureTopologyAsync(r: QueueReferences) returns (ok: bool)
      requires ThreeQueues(r)
      modifies this
      ensures TopologyKey(r) in old(initialized) ==> ok && broker == old(broker) && initialized == old(initialized)
      ensures TopologyKey(r) !in old(initialized) ==>
                && (ok <==> AcceptsAll(old(broker), r, retryDelay)
                            && (failing.None? || !(old(declarations) <= failing.value < old(declarations) + 9)))
                && (ok ==> broker == Declared(old(broker), r, retryDelay))
                && initialized == (if ok then old(initialized) + {TopologyKey(r)} else old(initialized))
    {
      if TopologyKey(r) in initialized {
        return true;
      }
      ok := EnsureExchangesAsync(r);
      if !ok { return; }
      ok := EnsureQueuesAsync(r);
      if !ok { return; }
      initialized := initialized + {TopologyKey(r)};
    }
  }

  // ----- Whose topologies a broker can have -----

  /** A message type as one client group names it, with the group's retry delay. */
  datatype Endpoint = Endpoint(messageType: string, group: string, retryDelay: int) {
    function Refs(): QueueReferences { DefaultReferences(messageType, group) }

    function Queues(): map<string, Arguments> { QueuesOf(Refs(), retryDelay) }

    /** Type names are identifiers: no dots, and no wildcards. */
    predicate Valid() {
      DotFree(ToLower(messageType)) && WildcardFree(ToLower(messageType)) && WildcardFree(group)
    }
  }

  ghost predicate AllValid(endpoints: set<Endpoint>) {
    forall e | e in endpoints :: e.Valid()
  }

  /** Exactly the topologies of `endpoints` are declared: exchanges, queues with their arguments, and bindings. */
  ghost predicate IsTopology(b: Broker, endpoints: set<Endpoint>) {
    HasExchanges(b, endpoints) && HasQueues(b, endpoints)
  }

  ghost predicate HasExchanges(b: Broker, endpoints: set<Endpoint>) {
    && (forall x :: x in b.exchanges <==> exists e :: e in endpoints && x in ExchangesOf(e.Refs()))
    && (forall x :: x in b.bindings <==> exists e :: e in endpoints && x in BindingsOf(e.Refs()))
  }

  ghost predicate HasQueues(b: Broker, endpoints: set<Endpoint>) {
    && (forall q :: q in b.queues <==> exists e :: e in endpoints && q in e.Queues())
    && (forall e, q | e in endpoints && q in e.Queues() :: q in b.queues && b.queues[q] == e.Queues()[q])
  }

  /** Every binding and every dead-letter argument names what is declared, and every exchange is bound. */
  lemma NothingDangles(b: Broker, endpoints: set<Endpoint>)
    requires IsTopology(b, endpoints)
    ensures forall x | x in b.bindings :: x.exchange in b.exchanges && x.queue in b.queues
    ensures forall q | q in b.queues && b.queues[q].DeadLetters? ::
              Takes(b.bindings, b.queues[q].exchange, b.queues[q].routingKey)
    ensures forall name | name in b.exchanges :: exists x :: x in b.bindings && x.exchange == name
  {
    hide IsTopology, Takes;
    forall x | x in b.bindings
      ensures x.exchange in b.exchanges && x.queue in b.queues
    {
      BindingStands(b, endpoints, x);
    }
    forall q | q in b.queues && b.queues[q].DeadLetters?
      ensures Takes(b.bindings, b.queues[q].exchange, b.queues[q].routingKey)
    {
      DeadLettersStand(b, endpoints, q);
    }
    forall name | name in b.exchanges
      ensures exists x :: x in b.bindings && x.exchange == name
    {
      ExchangeStands(b, endpoints, name);
    }
  }

  lemma BindingStands(b: Broker, endpoints: set<Endpoint>, x: Binding)
    requires IsTopology(b, endpoints) && x in b.bindings
    ensures x.exchange in b.exchanges && x.queue in b.queues
  {
    var e :| e in endpoints && x in BindingsOf(e.Refs());
    OneStands(e);
    hide BindingsOf, ExchangesOf, QueuesOf, DefaultReferences, Takes;
    assert x.exchange in ExchangesOf(e.Refs()) && x.queue in e.Queues();
  }

  lemma DeadLettersStand(b: Broker, endpoints: set<Endpoint>, q: string)
    requires IsTopology(b, endpoints) && q in b.queues && b.queues[q].DeadLetters?
    ensures Takes(b.bindings, b.queues[q].exchange, b.queues[q].routingKey)
  {
    var e :| e in endpoints && q in e.Queues();
    OneStands(e);
    hide BindingsOf, ExchangesOf, QueuesOf, DefaultReferences;
    var x :| x in BindingsOf(e.Refs()) && x.exchange == b.queues[q].exchange && x.pattern == b.queues[q].routingKey;
    assert x in b.bindings;
  }

  lemma ExchangeStands(b: Broker, endpoints: set<Endpoint>, name: string)
    requires IsTopology(b, endpoints) && name in b.exchanges
    ensures exists x :: x in b.bindings && x.exchange == name
  {
    var e :| e in endpoints && name in ExchangesOf(e.Refs());
    OneStands(e);
    hide BindingsOf, ExchangesOf, QueuesOf, DefaultReferences, Takes;
    var x :| x in BindingsOf(e.Refs()) && x.exchange == name;
    assert x in b.bindings;
  }

  /** A binding takes what is published to the exchange with exactly this key. */
  predicate Takes(bindings: set<Binding>, exchange: string, key: string) {
    exists x :: x in bindings && x.exchange == exchange && x.pattern == key
  }

  lemma OneStands(e: Endpoint)
    ensures var r := e.Refs();
            && (forall x | x in BindingsOf(r) :: x.exchange in ExchangesOf(r) && x.queue in e.Queues())
            && (forall q | q in e.Queues() && e.Queues()[q].DeadLetters? ::
                  Takes(BindingsOf(r), e.Queues()[q].exchange, e.Queues()[q].routingKey))
            && (forall name | name in ExchangesOf(r) :: exists x :: x in BindingsOf(r) && x.exchange == name)
  {
    var r := e.Refs();
    RefsAre(e);
    QueueArguments(r, e.retryDelay);
    hide DefaultReferences;
    assert Binding(r.deadLetterExchangeName, r.deadLetterQueue, r.deadLetterQueue) in BindingsOf(r);
    assert Binding(r.RetryExchangeName(), r.routingKey, r.RetryQueueName()) in BindingsOf(r);
    assert Binding(r.exchangeName, r.routingKey, r.queueName) in BindingsOf(r);
  }

  /** Two groups do not take each other's queues: neither is the other one with "dead." before it. */
  predicate GroupsApart(g: string, h: string) {
    g != h && g != "dead." + h && h != "dead." + g
  }

  /** The endpoints share no queue, or have the same ones with the same arguments. */
  predicate Compatible(e: Endpoint, f: Endpoint) {
    || ToLower(e.messageType) != ToLower(f.messageType)
    || (e.group == f.group && e.retryDelay == f.retryDelay)
    || GroupsApart(e.group, f.group)
  }

  lemma RefsAre(e: Endpoint)
    ensures var r, a := e.Refs(), ToLower(e.messageType);
            && ThreeQueues(r) && r.exchangeName == a && r.routingKey == a
            && r.queueName == a + "." + e.group + ".workers"
            && r.deadLetterQueue == a + ".dead" + "." + e.group + ".workers"
  {
    var r := e.Refs();
    SixNames(e.messageType, e.group);
    assert r.Names()[3] == r.queueName && r.Names()[4] == r.deadLetterQueue && r.Names()[5] == r.RetryQueueName();
  }

  /** One declaration for each exchange, queue and binding of a topology; they are as many as the protocol has steps. */
  lemma NineDeclarations(e: Endpoint)
    ensures |ExchangesOf(e.Refs())| + |e.Queues()| + |BindingsOf(e.Refs())| == TopologyProtocol.DECLARATIONS
  {
    var r := e.Refs();
    SixNames(e.messageType, e.group);
    ThreeAre(r.Names()[0], r.Names()[1], r.Names()[2]);
    ThreeAre(r.Names()[3], r.Names()[4], r.Names()[5]);
    ThreeAre(Binding(r.deadLetterExchangeName, r.deadLetterQueue, r.deadLetterQueue),
             Binding(r.RetryExchangeName(), r.routingKey, r.RetryQueueName()),
             Binding(r.exchangeName, r.routingKey, r.queueName));
    assert e.Queues().Keys == {r.queueName, r.deadLetterQueue, r.RetryQueueName()};
    assert |e.Queues()| == |e.Queues().Keys|;
  }

  lemma ThreeAre<T>(x: T, y: T, z: T)
    requires x != y && y != z && x != z
    ensures |{x, y, z}| == 3
  {
    assert {x, y, z} == {x} + {y} + {z};
  }

  /** What stands between a type's name and the end of a queue's name. */
  lemma Middle(a: string, g: string, h: string, tail: string)
    requires a + "." + g + tail == a + "." + h + tail
    ensures g == h
  {
    var s := a + "." + g + tail;
    assert g == s[|a| + 1..|s| - |tail|];
    assert h == s[|a| + 1..|s| - |tail|];
  }

  /**
   For one type, the main queue of a group is the dead-letter queue of another exactly when it is named "dead." and it.
   */
  lemma MainIsDeadLetter(a: string, g: string, h: string)
    ensures a + "." + g + ".workers" == a + ".dead" + "." + h + ".workers" <==> g == "dead." + h
  {
    assert a + ".dead" + "." + h + ".workers" == a + "." + ("dead." + h) + ".workers";
    if a + "." + g + ".workers" == a + "." + ("dead." + h) + ".workers" {
      Middle(a, g, "dead." + h, ".workers");
    }
  }

  lemma DeadLettersDiffer(a: string, g: string, h: string)
    requires a + ".dead" + "." + g + ".workers" == a + ".dead" + "." + h + ".workers"
    ensures g == h
  {
    Middle(a + ".dead", g, h, ".workers");
  }

  lemma LastLetters(s: string, t: string)
    ensures s + ".workers" != t + ".retry"
  {
    assert (s + ".workers")[|s + ".workers"| - 1] == 's';
    assert (t + ".retry")[|t + ".retry"| - 1] == 'y';
  }

  /** The queues of two groups for one type are disjoint exactly when the groups are apart. */
  lemma QueuesApartIff(messageType: string, g: string, h: string, delay: int, delay': int)
    ensures QueuesOf(DefaultReferences(messageType, g), delay).Keys
            !! QueuesOf(DefaultReferences(messageType, h), delay').Keys
            <==> GroupsApart(g, h)
  {
    var e, f := Endpoint(messageType, g, delay), Endpoint(messageType, h, delay');
    var r, q, a := e.Refs(), f.Refs(), ToLower(messageType);
    RefsAre(e);
    RefsAre(f);
    QueueArguments(r, delay);
    QueueArguments(q, delay');
    MainIsDeadLetter(a, g, h);
    MainIsDeadLetter(a, h, g);
    LastLetters(a + "." + g, q.queueName);
    LastLetters(a + "." + h, r.queueName);
    LastLetters(a + ".dead" + "." + g, q.queueName);
    LastLetters(a + ".dead" + "." + h, r.queueName);
    if r.queueName == q.queueName {
      Middle(a, g, h, ".workers");
    }
    if r.deadLetterQueue == q.deadLetterQueue {
      DeadLettersDiffer(a, g, h);
    }
    if r.RetryQueueName() == q.RetryQueueName() {
      assert r.queueName == r.RetryQueueName()[..|r.queueName|] && q.queueName == q.RetryQueueName()[..|q.queueName|];
      Middle(a, g, h, ".workers");
    }
    hide DefaultReferences;
    assert r.queueName in {r.deadLetterQueue, r.RetryQueueName(), r.queueName};
    assert q.queueName in {q.deadLetterQueue, q.RetryQueueName(), q.queueName};
  }

  /** Queues they share have the same arguments. */
  predicate Agree(e: Endpoint, f: Endpoint) {
    forall q | q in e.Queues() && q in f.Queues() :: e.Queues()[q] == f.Queues()[q]
  }

  /** Two endpoints agree exactly when they are compatible. */
  lemma AgreeIff(e: Endpoint, f: Endpoint)
    requires e.Valid() && f.Valid()
    ensures Agree(e, f) <==> Compatible(e, f)
  {
    var a := ToLower(e.messageType);
    RefsAre(e);
    RefsAre(f);
    QueueArguments(e.Refs(), e.retryDelay);
    QueueArguments(f.Refs(), f.retryDelay);
    hide DefaultReferences, QueuesOf, Agree, Endpoint.Valid;
    if a != ToLower(f.messageType) {
      TypesApart(e, f);
    } else if e.group == f.group {
      SameGroup(e, f);
    } else {
      OtherGroup(e, f);
    }
  }

  lemma TypesApart(e: Endpoint, f: Endpoint)
    requires e.Valid() && f.Valid() && ToLower(e.messageType) != ToLower(f.messageType)
    ensures Agree(e, f) && e.Queues().Keys !! f.Queues().Keys
  {
    DistinctNames(e.messageType, e.group, f.messageType, f.group);
    QueueNamesOf(e.Refs(), e.retryDelay);
    QueueNamesOf(f.Refs(), f.retryDelay);
    hide DefaultReferences, QueuesOf, ToLower;
    forall q | q in e.Queues()
      ensures q !in f.Queues()
    {
    }
  }

  lemma QueueNamesOf(r: QueueReferences, delay: int)
    ensures forall q | q in QueuesOf(r, delay) :: q in r.Names()
  {
    assert r.Names()[3] == r.queueName && r.Names()[4] == r.deadLetterQueue && r.Names()[5] == r.RetryQueueName();
  }

  lemma SameGroup(e: Endpoint, f: Endpoint)
    requires ToLower(e.messageType) == ToLower(f.messageType) && e.group == f.group
    ensures e.Refs() == f.Refs() && (Agree(e, f) <==> e.retryDelay == f.retryDelay)
  {
    var r := e.Refs();
    assert f.Refs() == r;
    RefsAre(e);
    QueueArguments(r, e.retryDelay);
    QueueArguments(r, f.retryDelay);
    hide DefaultReferences, QueuesOf;
    assert r.RetryQueueName() in e.Queues() && r.RetryQueueName() in f.Queues();
  }

  lemma OtherGroup(e: Endpoint, f: Endpoint)
    requires ToLower(e.messageType) == ToLower(f.messageType) && e.group != f.group
    ensures Agree(e, f) <==> GroupsApart(e.group, f.group)
  {
    var a := ToLower(e.messageType);
    assert f.Refs() == DefaultReferences(e.messageType, f.group);
    QueuesApartIff(e.messageType, e.group, f.group, e.retryDelay, f.retryDelay);
    MainIsDeadLetter(a, e.group, f.group);
    MainIsDeadLetter(a, f.group, e.group);
    RefsAre(e);
    RefsAre(f);
    QueueArguments(e.Refs(), e.retryDelay);
    QueueArguments(f.Refs(), f.retryDelay);
    hide DefaultReferences, QueuesOf;
    if e.group == "dead." + f.group {
      assert e.Refs().queueName in e.Queues() && e.Refs().queueName in f.Queues();
    }
    if f.group == "dead." + e.group {
      assert f.Refs().queueName in f.Queues() && f.Refs().queueName in e.Queues();
    }
  }

  /** The broker accepts the topology of `e` exactly when `e` is compatible with every endpoint that is declared. */
  lemma DeclarableIff(b: Broker, endpoints: set<Endpoint>, e: Endpoint)
    requires IsTopology(b, endpoints) && AllValid(endpoints) && e.Valid()
    ensures AcceptsAll(b, e.Refs(), e.retryDelay) <==> forall f | f in endpoints :: Compatible(e, f)
  {
    forall f | f in endpoints
      ensures Compatible(e, f) <==> Agree(e, f)
    {
      AgreeIff(e, f);
    }
    hide DefaultReferences, QueuesOf, Compatible;
    forall f | f in endpoints && AcceptsAll(b, e.Refs(), e.retryDelay)
      ensures Agree(e, f)
    {
      assert forall q | q in e.Queues() :: Accepts(b, q, e.Queues()[q]);
    }
  }

  /** So a broker never has the topologies of incompatible endpoints. */
  lemma DeclaredCompatible(b: Broker, endpoints: set<Endpoint>, e: Endpoint, f: Endpoint)
    requires IsTopology(b, endpoints) && e in endpoints && f in endpoints && e.Valid() && f.Valid()
    ensures Compatible(e, f)
  {
    hide DefaultReferences, QueuesOf, Compatible;
    AgreeIff(e, f);
    forall q | q in e.Queues() && q in f.Queues()
      ensures e.Queues()[q] == f.Queues()[q]
    {
      assert b.queues[q] == e.Queues()[q] && b.queues[q] == f.Queues()[q];
    }
  }

  /** Declaring a compatible endpoint keeps exactly the topologies declared before, and adds its own. */
  lemma DeclaresOneMore(b: Broker, endpoints: set<Endpoint>, e: Endpoint)
    requires IsTopology(b, endpoints) && AllValid(endpoints) && e.Valid()
    requires forall f | f in endpoints :: Compatible(e, f)
    ensures IsTopology(Declared(b, e.Refs(), e.retryDelay), endpoints + {e})
  {
    hide Agree, Compatible, Endpoint.Valid;
    forall f | f in endpoints
      ensures Agree(e, f)
    {
      AgreeIff(e, f);
    }
    hide HasQueues, HasExchanges, Agree, Declared;
    QueuesMerge(b, endpoints, e);
    OthersMerge(b, endpoints, e);
  }

  lemma QueuesMerge(b: Broker, endpoints: set<Endpoint>, e: Endpoint)
    requires HasQueues(b, endpoints) && forall f | f in endpoints :: Agree(e, f)
    ensures HasQueues(Declared(b, e.Refs(), e.retryDelay), endpoints + {e})
  {
    hide DefaultReferences, QueuesOf, BindingsOf, ExchangesOf;
    var queues := Declared(b, e.Refs(), e.retryDelay).queues;
    forall q
      ensures q in queues <==> exists f :: f in endpoints + {e} && q in f.Queues()
    {
      if f :| f in endpoints && q in f.Queues() {
        assert f in endpoints + {e};
      } else if q in e.Queues() {
        assert e in endpoints + {e};
      }
    }
  }

  lemma OthersMerge(b: Broker, endpoints: set<Endpoint>, e: Endpoint)
    requires HasExchanges(b, endpoints)
    ensures HasExchanges(Declared(b, e.Refs(), e.retryDelay), endpoints + {e})
  {
    hide DefaultReferences, QueuesOf, BindingsOf, ExchangesOf;
    var b' := Declared(b, e.Refs(), e.retryDelay);
    forall x
      ensures x in b'.exchanges <==> exists f :: f in endpoints + {e} && x in ExchangesOf(f.Refs())
    {
      if f :| f in endpoints && x in ExchangesOf(f.Refs()) {
        assert f in endpoints + {e};
      } else if x in ExchangesOf(e.Refs()) {
        assert e in endpoints + {e};
      }
    }
    forall x
      ensures x in b'.bindings <==> exists f :: f in endpoints + {e} && x in BindingsOf(f.Refs())
    {
      if f :| f in endpoints && x in BindingsOf(f.Refs()) {
        assert f in endpoints + {e};
      } else if x in BindingsOf(e.Refs()) {
        assert e in endpoints + {e};
      }
    }
  }

  /** The dead letters of one group would be the main queue of the other: such groups can never be declared together. */
  lemma GroupsCollide(messageType: string, group: string, delay: int, delay': int)
    ensures DefaultReferences(messageType, "dead." + group).queueName
            == DefaultReferences(messageType, group).deadLetterQueue
    ensures !Compatible(Endpoint(messageType, group, delay), Endpoint(messageType, "dead." + group, delay'))
  {
    MainIsDeadLetter(ToLower(messageType), "dead." + group, group);
    assert |"dead." + group| == |group| + 5;
  }

  /** Topologies of different endpoints have different keys, or are the same. */
  lemma KeysApart(e: Endpoint, f: Endpoint)
    requires e.Valid() && f.Valid() && TopologyKey(e.Refs()) == TopologyKey(f.Refs())
    ensures e.Refs() == f.Refs() && ToLower(e.messageType) == ToLower(f.messageType) && e.group == f.group
  {
    RefsAre(e);
    RefsAre(f);
    var a, c := ToLower(e.messageType), ToLower(f.messageType);
    KeySegment(a, e.group);
    KeySegment(c, f.group);
    assert |a| == |c|;
    var k := TopologyKey(e.Refs());
    assert a == k[..|a|] && c == k[..|c|];
    assert k == (a + "|" + a) + "." + e.group + ".workers";
    assert k == (a + "|" + a) + "." + f.group + ".workers";
    Middle(a + "|" + a, e.group, f.group, ".workers");
  }

  lemma KeySegment(a: string, g: string)
    requires DotFree(a)
    ensures FirstSegment(a + "|" + (a + "." + g + ".workers")) == a + "|" + a
  {
    var rest := "." + g + ".workers";
    SegmentOf(a + "|" + a, rest);
    assert a + "|" + (a + "." + g + ".workers") == (a + "|" + a) + rest;
  }
}
