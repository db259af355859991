/**
 The RabbitMQ subscriber: the topologies it declares when it starts, and what becomes of a
 delivery, depending on what processing raises.
 */
module RabbitSubscriber {
  import opened Messages
  import opened QueueNames
  import opened RabbitTopology
  import Protocol = SagaProtocol
  import ProtocolInvariant
  import ProtocolTheorems

  /** LockException, OptimisticLockException, or an aggregate with one of them among its inner exceptions. */
  predicate IsLockConflict(e: Error) {
    || e == LockException || e == OptimisticLockException
    || (e.AggregateException? && (LockException in e.inner || OptimisticLockException in e.inner))
  }

  /** `body` names the message; it has the wire's routing key. */
  datatype Delivery = Delivery(tag: nat, routingKey: string, body: Id)

  datatype Publication = Publication(exchange: string, routingKey: string, body: Id)

  class RabbitMessageSubscriber {
    const channel: Channel
    const factory: QueueReferenceFactory
    var consumed: set<string>
    var acked: seq<nat>
    var rejected: seq<nat>
    var published: seq<Publication>

    constructor (channel: Channel, factory: QueueReferenceFactory)
      ensures this.channel == channel && this.factory == factory
      ensures consumed == {} && acked == [] && rejected == [] && published == []
    {
      this.channel, this.factory := channel, factory;
      consumed, acked, rejected, published := {}, [], [], [];
    }

    /** The topology, which takes the broker to the one of `next`, and then the consumer of its main queue. */
    method InitSubscriptionAsync(r: QueueReferences, ghost next: set<Endpoint>) returns (ok: bool)
      requires ThreeQueues(r)
      requires AcceptsAll(channel.broker, r, channel.retryDelay) ==>
                 Ready(Declared(channel.broker, r, channel.retryDelay), channel.initialized + {TopologyKey(r)}, next,
                       channel.retryDelay)
      requires TopologyKey(r) in channel.initialized ==>
                 Ready(channel.broker, channel.initialized, next, channel.retryDelay)
                 && AcceptsAll(channel.broker, r, channel.retryDelay)
      modifies this`consumed, channel
      ensures ok ==> AcceptsAll(old(channel.broker), r, channel.retryDelay)
      ensures channel.failing.None? && AcceptsAll(old(channel.broker), r, channel.retryDelay) ==> ok
      ensures ok ==> Ready(channel.broker, channel.initialized, next, channel.retryDelay)
      ensures ok ==> consumed == old(consumed) + {r.queueName}
    {
      hide Ready, AcceptsAll, Declared, ThreeQueues;
      ok := channel.EnsureTopologyAsync(r);
      if !ok { return; }
      consumed := consumed + {r.queueName};
    }

    /**
     From a broker that has the topologies of `before`, whatever this process has initialized of them: when it succeeds,
     the broker has exactly these and those of the registered types, whose main queues are consumed. Unless a
     declaration fails for another reason, it succeeds exactly when every type is compatible with every topology that
     was there.
     */
    method StartAsync(messageTypes: seq<string>, ghost before: set<Endpoint>) returns (ok: bool)
      requires factory.Valid() && AllValid(before)
      requires AllValid(Endpoints(messageTypes, factory.clientGroup, channel.retryDelay))
      requires Ready(channel.broker, channel.initialized, before, channel.retryDelay)
      modifies this`consumed, channel, factory
      ensures factory.Valid()
      ensures ok ==> IsTopology(channel.broker,
                                before + Endpoints(messageTypes, factory.clientGroup, channel.retryDelay))
      ensures ok ==> consumed == old(consumed) + MainQueues(Endpoints(messageTypes, factory.clientGroup,
                                                                      channel.retryDelay))
      ensures ok ==> AllCompatible(messageTypes, factory.clientGroup, channel.retryDelay, before)
      ensures channel.failing.None? && AllCompatible(messageTypes, factory.clientGroup, channel.retryDelay, before)
              ==> ok
    {
      ghost var group, delay := factory.clientGroup, channel.retryDelay;
      ghost var main := consumed;
      assert messageTypes[..0] == [];
      NoneYet(before, group, delay);
      for n := 0 to |messageTypes|
        invariant factory.Valid()
        invariant Ready(channel.broker, channel.initialized, before + Endpoints(messageTypes[..n], group, delay), delay)
        invariant consumed == main + MainQueues(Endpoints(messageTypes[..n], group, delay))
        invariant AllCompatible(messageTypes[..n], group, delay, before)
      {
        hide Ready, AllCompatible, Declared, AcceptsAll, DefaultReferences, TopologyKey, MainQueues, Endpoints,
          Endpoint.Valid, AllValid, ThreeQueues, QueueReferenceFactory.Valid;
        var r := factory.Create(messageTypes[n]);
        InitStep(channel.broker, channel.initialized, before, messageTypes, n, group, delay);
        ok := InitSubscriptionAsync(r, before + Endpoints(messageTypes[..n + 1], group, delay));
        if !ok { return; }
      }
      assert messageTypes[..|messageTypes|] == messageTypes;
      ok := true;
    }

    /**
     A message that cannot be parsed is rejected; one that is processed is acknowledged; a lock conflict has it
     acknowledged and published once to its type's retry exchange, under the key it came with; anything else rejects it.
     */
    method OnMessageReceivedAsync(delivery: Delivery, parsed: Option<string>, raised: Option<Error>)
      requires factory.Valid()
      modifies this`acked, this`rejected, this`published, factory
      ensures factory.Valid()
      ensures parsed.None? ==>
                rejected == old(rejected) + [delivery.tag] && acked == old(acked) && published == old(published)
      ensures parsed.Some? && raised.None? ==>
                acked == old(acked) + [delivery.tag] && rejected == old(rejected) && published == old(published)
      ensures parsed.Some? && raised.Some? ==>
                if || raised.value.LockException? || raised.value.OptimisticLockException?
                   || (raised.value.AggregateException?
                       && exists e :: e in raised.value.inner && (e.LockException? || e.OptimisticLockException?))
                then
                  var r := DefaultReferences(parsed.value, factory.clientGroup);
                  && acked == old(acked) + [delivery.tag] && rejected == old(rejected)
                  && published
                     == old(published) + [Publication(r.RetryExchangeName(), delivery.routingKey, delivery.body)]
                else rejected == old(rejected) + [delivery.tag] && acked == old(acked) && published == old(published)
      ensures parsed.Some? && raised.Some? ==> (IsLockConflict(raised.value) <==> rejected == old(rejected))
    {
      if parsed.None? {
        rejected := rejected + [delivery.tag];
        return;
      }
      var queueReference := factory.Create(parsed.value);
      match raised {
        case None => acked := acked + [delivery.tag];
        case Some(LockException) => HandleConsumerException(delivery, queueReference, true);
        case Some(OptimisticLockException) => HandleConsumerException(delivery, queueReference, true);
        case Some(AggregateException(inner)) =>
          HandleConsumerException(delivery, queueReference, exists e ::
                                  e in inner && (e == LockException || e == OptimisticLockException));
        case Some(_) => HandleConsumerException(delivery, queueReference, false);
      }
    }

    method HandleConsumerException(delivery: Delivery, queueReference: QueueReferences, requeue: bool)
      modifies this`acked, this`rejected, this`published
      ensures if requeue then
                && acked == old(acked) + [delivery.tag] && rejected == old(rejected)
                && published == old(published) + [Publication(queueReference.RetryExchangeName(), delivery.routingKey,
                                                              delivery.body)]
              else rejected == old(rejected) + [delivery.tag] && acked == old(acked) && published == old(published)
    {
      if !requeue {
        rejected := rejected + [delivery.tag];
      } else {
        acked := acked + [delivery.tag];
        published := published + [Publication(queueReference.RetryExchangeName(), delivery.routingKey, delivery.body)];
      }
    }
  }

  function Endpoints(messageTypes: seq<string>, group: string, delay: int): set<Endpoint> {
    set t | t in messageTypes :: Endpoint(t, group, delay)
  }

  /** The keys of the topologies with this retry delay. */
  function TopologyKeys(endpoints: set<Endpoint>, delay: int): set<string> {
    set e | e in endpoints && e.retryDelay == delay :: TopologyKey(e.Refs())
  }

  function MainQueues(endpoints: set<Endpoint>): set<string> {
    set e | e in endpoints :: e.Refs().queueName
  }

  /** The broker has exactly these topologies, and whatever counts as initialized is among them. */
  ghost predicate Ready(b: Broker, initialized: set<string>, endpoints: set<Endpoint>, delay: int) {
    IsTopology(b, endpoints) && initialized <= TopologyKeys(endpoints, delay)
  }

  ghost predicate AllCompatible(messageTypes: seq<string>, group: string, delay: int, before: set<Endpoint>) {
    forall t, f | t in messageTypes && f in before :: Compatible(Endpoint(t, group, delay), f)
  }

  lemma NoneYet(before: set<Endpoint>, group: string, delay: int)
    ensures before + Endpoints([], group, delay) == before && MainQueues(Endpoints([], group, delay)) == {}
  {
  }

  /** One more message type, compatible with the others of its group. */
  lemma InitStep(b: Broker, initialized: set<string>, before: set<Endpoint>, messageTypes: seq<string>, n: nat,
                 group: string, delay: int)
    requires n < |messageTypes| && AllValid(before) && AllValid(Endpoints(messageTypes, group, delay))
    requires Ready(b, initialized, before + Endpoints(messageTypes[..n], group, delay), delay)
    ensures var r := DefaultReferences(messageTypes[n], group);
            var own, next := Endpoints(messageTypes[..n], group, delay), Endpoints(messageTypes[..n + 1], group, delay);
            && ThreeQueues(r) && MainQueues(next) == MainQueues(own) + {r.queueName}
            && (AcceptsAll(b, r, delay)
                ==> Ready(Declared(b, r, delay), initialized + {TopologyKey(r)}, before + next, delay))
            && (TopologyKey(r) in initialized
                ==> Ready(b, initialized, before + next, delay) && AcceptsAll(b, r, delay))
            && (AcceptsAll(b, r, delay) && AllCompatible(messageTypes[..n], group, delay, before)
                <==> AllCompatible(messageTypes[..n + 1], group, delay, before))
            && (AllCompatible(messageTypes, group, delay, before)
                ==> AllCompatible(messageTypes[..n + 1], group, delay, before))
  {
    var e := Endpoint(messageTypes[n], group, delay);
    var own := Endpoints(messageTypes[..n], group, delay);
    assert messageTypes[..n + 1] == messageTypes[..n] + [messageTypes[n]];
    assert Endpoints(messageTypes[..n + 1], group, delay) == own + {e};
    assert before + (own + {e}) == before + own + {e};
    assert e in Endpoints(messageTypes, group, delay);
    forall f | f in own
      ensures f.Valid() && Compatible(e, f)
    {
      assert f in Endpoints(messageTypes, group, delay);
    }
    RefsAre(e);
    DeclarableIff(b, before + own, e);
    KeysGrow(before + own, own, e, delay);
    hide DefaultReferences, QueuesOf, BindingsOf, ExchangesOf, AcceptsAll, IsTopology, Compatible;
    if AcceptsAll(b, e.Refs(), delay) {
      DeclaresOneMore(b, before + own, e);
    }
    if TopologyKey(e.Refs()) in initialized {
      var f :| f in before + own && f.retryDelay == delay && TopologyKey(f.Refs()) == TopologyKey(e.Refs());
      KeysApart(e, f);
      AlreadyThere(b, before + own, e, f);
    }
  }

  lemma KeysGrow(endpoints: set<Endpoint>, own: set<Endpoint>, e: Endpoint, delay: int)
    requires e.retryDelay == delay
    ensures TopologyKeys(endpoints, delay) + {TopologyKey(e.Refs())} == TopologyKeys(endpoints + {e}, delay)
    ensures MainQueues(own + {e}) == MainQueues(own) + {e.Refs().queueName}
  {
    assert e in endpoints + {e};
  }

  /** An endpoint that is there under another spelling of its type. */
  lemma AlreadyThere(b: Broker, endpoints: set<Endpoint>, e: Endpoint, f: Endpoint)
    requires IsTopology(b, endpoints) && AllValid(endpoints) && f in endpoints && e.Valid()
    requires ToLower(e.messageType) == ToLower(f.messageType) && e.Refs() == f.Refs() && e.group == f.group
    requires e.retryDelay == f.retryDelay
    ensures IsTopology(b, endpoints + {e}) && AcceptsAll(b, e.Refs(), e.retryDelay)
  {
    forall g | g in endpoints
      ensures Compatible(e, g)
    {
      DeclaredCompatible(b, endpoints, f, g);
    }
    DeclarableIff(b, endpoints, e);
    SameRefs(b, endpoints, e, f);
  }

  lemma SameRefs(b: Broker, endpoints: set<Endpoint>, e: Endpoint, f: Endpoint)
    requires IsTopology(b, endpoints) && f in endpoints && e.Refs() == f.Refs() && e.retryDelay == f.retryDelay
    ensures IsTopology(b, endpoints + {e})
  {
    hide DefaultReferences, QueuesOf, BindingsOf, ExchangesOf;
    forall x
      ensures x in b.bindings <==> exists g :: g in endpoints + {e} && x in BindingsOf(g.Refs())
      ensures x in b.bindings ==> exists g :: g in endpoints && x in BindingsOf(g.Refs())
    {
      if g :| g in endpoints && x in BindingsOf(g.Refs()) {
        assert g in endpoints + {e};
      }
    }
    forall x
      ensures x in b.exchanges <==> exists g :: g in endpoints + {e} && x in ExchangesOf(g.Refs())
    {
      if g :| g in endpoints && x in ExchangesOf(g.Refs()) {
        assert g in endpoints + {e};
      }
    }
    forall q
      ensures q in b.queues <==> exists g :: g in endpoints + {e} && q in g.Queues()
    {
      if g :| g in endpoints && q in g.Queues() {
        assert g in endpoints + {e};
      }
    }
  }

  /**
   In every run of the in-memory protocol, what BeginProcessingAsync throws is a missing saga, which rejects the
   message, or comes from a lock, which has it retried.
   */
  lemma LockFailuresAreRetried(run: seq<Protocol.Action>, w: Id)
    requires Protocol.Exec(run).Some? && w in Protocol.Exec(run).value.workers
    requires var pc := Protocol.Exec(run).value.workers[w].pc; (pc.Done? || pc.Leaked?) && pc.outcome.Rejected?
    ensures var e := Protocol.Exec(run).value.workers[w].pc.outcome.error;
            IsLockConflict(e) <==> e != ApplicationException
  {
    ProtocolTheorems.Rejections(run, w);
  }
}
