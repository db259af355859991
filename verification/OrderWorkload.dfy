/**
 The order sample: an order is shipped once both the credit check and the inventory check are
 done. The runtime handles a message at most once per instance, in any order of delivery and
 with any redelivery, and none before the start or after the completion.
 */
module OrderWorkload {
  import opened Messages

  datatype Message = SaveOrder(orderId: Id) | CreditCheckCompleted | InventoryCheckCompleted | ShippingCompleted

  datatype Publication =
    | ProcessCreditCheck(orderId: Id)
    | CheckInventory(orderId: Id)
    | ProcessShipping(orderId: Id)
    | OrderSagaCompleted(orderId: Id)

  datatype Order = Order(orderId: Id, creditCheckCompleted: bool, inventoryCheckCompleted: bool, isCompleted: bool)

  const FRESH := Order(0, false, false, false)

  function Handled(o: Order, m: Message): Order {
    match m
    case SaveOrder(id) => o.(orderId := id)
    case CreditCheckCompleted => o.(creditCheckCompleted := true)
    case InventoryCheckCompleted => o.(inventoryCheckCompleted := true)
    case ShippingCompleted => o.(isCompleted := true)
  }

  function Published(o: Order, m: Message): seq<Publication> {
    match m
    case SaveOrder(id) => [ProcessCreditCheck(id), CheckInventory(id)]
    case CreditCheckCompleted => if o.inventoryCheckCompleted then [ProcessShipping(o.orderId)] else []
    case InventoryCheckCompleted => if o.creditCheckCompleted then [ProcessShipping(o.orderId)] else []
    case ShippingCompleted => [OrderSagaCompleted(o.orderId)]
  }

  class OrderSaga {
    var orderId: Id
    var creditCheckCompleted: bool
    var inventoryCheckCompleted: bool
    var isCompleted: bool
    var published: seq<Publication>

    constructor ()
      ensures State() == FRESH && published == []
    {
      orderId, creditCheckCompleted, inventoryCheckCompleted, isCompleted, published := 0, false, false, false, [];
    }

    function State(): Order
      reads this
    {
      Order(orderId, creditCheckCompleted, inventoryCheckCompleted, isCompleted)
    }

    predicate CheckCanShipOrder()
      reads this
    {
      creditCheckCompleted && inventoryCheckCompleted
    }

    method HandleSaveOrder(orderId: Id)
      modifies this
      ensures State() == Handled(old(State()), SaveOrder(orderId))
      ensures published == old(published) + Published(old(State()), SaveOrder(orderId))
    {
      this.orderId := orderId;
      published := published + [ProcessCreditCheck(orderId)];
      published := published + [CheckInventory(orderId)];
    }

    method HandleCreditCheck()
      modifies this
      ensures State() == Handled(old(State()), CreditCheckCompleted)
      ensures published == old(published) + Published(old(State()), CreditCheckCompleted)
    {
      creditCheckCompleted := true;
      if CheckCanShipOrder() {
        published := published + [ProcessShipping(orderId)];
      }
    }

    method HandleInventoryCheck()
      modifies this
      ensures State() == Handled(old(State()), InventoryCheckCompleted)
      ensures published == old(published) + Published(old(State()), InventoryCheckCompleted)
    {
      inventoryCheckCompleted := true;
      if CheckCanShipOrder() {
        published := published + [ProcessShipping(orderId)];
      }
    }

    method HandleShipping()
      modifies this
      ensures State() == Handled(old(State()), ShippingCompleted)
      ensures published == old(published) + Published(old(State()), ShippingCompleted)
    {
      published := published + [OrderSagaCompleted(orderId)];
      isCompleted := true;
    }
  }

  // ----- Runs -----

  datatype Run = Run(order: Order, started: bool, processed: set<Id>, handled: seq<Message>,
                     published: seq<Publication>)

  const START := Run(FRESH, false, {}, [], [])

  /** The instance handles message `id`, unless it is completed or was not started; `messages` says what each id is. */
  function Handle(messages: map<Id, Message>, r: Run, id: Id): Run
    requires id in messages
  {
    var m := messages[id];
    if r.order.isCompleted || (!r.started && !m.SaveOrder?) then r
    else Run(Handled(r.order, m), true, r.processed + {id}, r.handled + [m], r.published + Published(r.order, m))
  }

  /** A delivery of message `id`, for the first time or again: one instance handles each message at most once. */
  function Deliver(messages: map<Id, Message>, r: Run, id: Id): Run
    requires id in messages
  {
    if id in r.processed then r else Handle(messages, r, id)
  }

  function After(messages: map<Id, Message>, ids: seq<Id>): Run
    requires forall id | id in ids :: id in messages
  {
    if ids == [] then START else Deliver(messages, After(messages, ids[..|ids| - 1]), ids[|ids| - 1])
  }

  /** How many ProcessShipping messages were published. */
  function Shipments(published: seq<Publication>): nat {
    if published == [] then 0
    else Shipments(published[..|published| - 1]) + (if published[|published| - 1].ProcessShipping? then 1 else 0)
  }

  lemma {:induction false} ShipmentsOfBoth(p: seq<Publication>, q: seq<Publication>)
    ensures Shipments(p + q) == Shipments(p) + Shipments(q)
  {
    if q == [] {
      assert p + q == p;
    } else {
      assert (p + q)[..|p + q| - 1] == p + q[..|q| - 1];
      ShipmentsOfBoth(p, q[..|q| - 1]);
    }
  }

  function Count(handled: seq<Message>, m: Message): nat {
    multiset(handled)[m]
  }

  /** The checks handled after both kinds of check have been handled for the first time, that one included. */
  function Late(handled: seq<Message>): nat {
    if handled == [] then 0
    else
      var before := handled[..|handled| - 1];
      var m := handled[|handled| - 1];
      Late(before) +
      (if (m.CreditCheckCompleted? && InventoryCheckCompleted in before)
       || (m.InventoryCheckCompleted? && CreditCheckCompleted in before)
       then 1 else 0)
  }

  /** The handled deliveries of message `m`. */
  function HandledIds(messages: map<Id, Message>, processed: set<Id>, m: Message): set<Id> {
    set id | id in processed && id in messages && messages[id] == m
  }

  ghost predicate Inv(messages: map<Id, Message>, r: Run) {
    && (r.order.creditCheckCompleted <==> CreditCheckCompleted in r.handled)
    && (r.order.inventoryCheckCompleted <==> InventoryCheckCompleted in r.handled)
    && Shipments(r.published) == Late(r.handled)
    && (forall m | m in messages.Values :: Count(r.handled, m) == |HandledIds(messages, r.processed, m)|)
  }

  lemma ShipmentsOf(o: Order, m: Message)
    ensures Shipments(Published(o, m))
            == if (m.CreditCheckCompleted? && o.inventoryCheckCompleted)
              || (m.InventoryCheckCompleted? && o.creditCheckCompleted)
               then 1 else 0
  {
    var p := Published(o, m);
    if |p| == 2 {
      ShipmentsOfBoth([p[0]], [p[1]]);
      assert p == [p[0]] + [p[1]];
    }
    forall q | q in p
      ensures Shipments([q]) == if q.ProcessShipping? then 1 else 0
    {
      assert [q][..0] == [];
    }
    assert |p| == 1 ==> p == [p[0]];
  }

  lemma CountsKeep(messages: map<Id, Message>, r: Run, id: Id, m: Message)
    requires id in messages && id !in r.processed
    requires Count(r.handled, m) == |HandledIds(messages, r.processed, m)|
    ensures Count(r.handled + [messages[id]], m) == |HandledIds(messages, r.processed + {id}, m)|
  {
    var ids := HandledIds(messages, r.processed, m);
    assert HandledIds(messages, r.processed + {id}, m) == if messages[id] == m then ids + {id} else ids;
  }

  lemma LateStep(handled: seq<Message>, m: Message)
    ensures Late(handled + [m]) == Late(handled) +
      (if (m.CreditCheckCompleted? && InventoryCheckCompleted in handled)
       || (m.InventoryCheckCompleted? && CreditCheckCompleted in handled)
       then 1 else 0)
  {
    assert (handled + [m])[..|handled|] == handled;
  }

  lemma DeliverKeeps(messages: map<Id, Message>, r: Run, id: Id)
    requires Inv(messages, r) && id in messages
    ensures Inv(messages, Deliver(messages, r, id))
  {
    var r' := Deliver(messages, r, id);
    hide Shipments, HandledIds, Count, Late, Published, Handled;
    if r' != r {
      DeliverHandles(messages, r, id);
      DeliverShips(messages, r, id);
      forall m | m in messages.Values
        ensures Count(r'.handled, m) == |HandledIds(messages, r'.processed, m)|
      {
        CountsKeep(messages, r, id, m);
      }
      hide Deliver;
    }
  }

  lemma DeliverHandles(messages: map<Id, Message>, r: Run, id: Id)
    requires Inv(messages, r) && id in messages && Deliver(messages, r, id) != r
    ensures var r' := Deliver(messages, r, id);
            && (r'.order.creditCheckCompleted <==> CreditCheckCompleted in r'.handled)
            && (r'.order.inventoryCheckCompleted <==> InventoryCheckCompleted in r'.handled)
  {
    hide Shipments, HandledIds, Count, Late, Published;
    assert Deliver(messages, r, id).handled == r.handled + [messages[id]];
  }

  lemma DeliverShips(messages: map<Id, Message>, r: Run, id: Id)
    requires Inv(messages, r) && id in messages && Deliver(messages, r, id) != r
    ensures Shipments(Deliver(messages, r, id).published) == Late(Deliver(messages, r, id).handled)
  {
    hide Shipments, HandledIds, Count, Late, Published, Handled;
    LateStep(r.handled, messages[id]);
    ShipmentsOfBoth(r.published, Published(r.order, messages[id]));
    ShipmentsOf(r.order, messages[id]);
  }

  lemma {:induction false} RunsKeep(messages: map<Id, Message>, ids: seq<Id>)
    requires forall id | id in ids :: id in messages
    ensures Inv(messages, After(messages, ids))
  {
    if ids == [] {
      forall m | m in messages.Values
        ensures HandledIds(messages, {}, m) == {}
      {
      }
    } else {
      RunsKeep(messages, ids[..|ids| - 1]);
      DeliverKeeps(messages, After(messages, ids[..|ids| - 1]), ids[|ids| - 1]);
    }
  }

  /**
   For any messages, deliveries and order: shipping is asked for once per check handled when the other kind already was.
   */
  lemma ShipsForLateChecks(messages: map<Id, Message>, ids: seq<Id>)
    requires forall id | id in ids :: id in messages
    ensures Shipments(After(messages, ids).published) == Late(After(messages, ids).handled)
  {
    RunsKeep(messages, ids);
  }

  lemma {:induction false} OneOfEach(handled: seq<Message>)
    requires Count(handled, CreditCheckCompleted) <= 1 && Count(handled, InventoryCheckCompleted) <= 1
    ensures Late(handled) == if CreditCheckCompleted in handled && InventoryCheckCompleted in handled then 1 else 0
  {
    if handled != [] {
      var before := handled[..|handled| - 1];
      assert handled == before + [handled[|handled| - 1]];
      OneOfEach(before);
    }
  }

  predicate Single(messages: map<Id, Message>, m: Message) {
    forall i, j | i in messages && j in messages && messages[i] == m && messages[j] == m :: i == j
  }

  lemma SingleCount(messages: map<Id, Message>, r: Run, m: Message)
    requires Inv(messages, r) && Single(messages, m)
    ensures m in messages.Values ==> Count(r.handled, m) <= 1
  {
    var ids := HandledIds(messages, r.processed, m);
    if ids != {} {
      var id :| id in ids;
      assert ids == {id};
    }
  }

  lemma {:induction false} OnlyIssued(messages: map<Id, Message>, ids: seq<Id>, m: Message)
    requires forall id | id in ids :: id in messages
    ensures m in After(messages, ids).handled ==> m in messages.Values
  {
    if ids != [] {
      OnlyIssued(messages, ids[..|ids| - 1], m);
    }
  }

  /**
   With one credit completion and one inventory completion, in any order and with any redelivery, shipping is asked
   for at most once, and exactly once when both checks are handled.
   */
  lemma ShipsOnce(messages: map<Id, Message>, ids: seq<Id>)
    requires forall id | id in ids :: id in messages
    requires Single(messages, CreditCheckCompleted) && Single(messages, InventoryCheckCompleted)
    ensures var r := After(messages, ids);
            Shipments(r.published) == if r.order.creditCheckCompleted && r.order.inventoryCheckCompleted then 1 else 0
  {
    var r := After(messages, ids);
    RunsKeep(messages, ids);
    SingleCount(messages, r, CreditCheckCompleted);
    SingleCount(messages, r, InventoryCheckCompleted);
    OnlyIssued(messages, ids, CreditCheckCompleted);
    OnlyIssued(messages, ids, InventoryCheckCompleted);
    OneOfEach(r.handled);
  }

  predicate IsCheck(m: Message) {
    m.CreditCheckCompleted? || m.InventoryCheckCompleted?
  }

  function Other(m: Message): Message {
    if m.CreditCheckCompleted? then InventoryCheckCompleted else CreditCheckCompleted
  }

  /** The order, a check of either kind, and one of the other kind. */
  predicate Checked(messages: map<Id, Message>, o: Id, i: Id, v: Id) {
    && o in messages && i in messages && v in messages
    && messages[o].SaveOrder? && IsCheck(messages[i]) && messages[v] == Other(messages[i])
  }

  lemma Checks(messages: map<Id, Message>, o: Id, i: Id, v: Id)
    requires Checked(messages, o, i, v)
    ensures var r := After(messages, [o, i, v]);
            && r.handled == [messages[o], messages[i], messages[v]] && r.processed == {o, i, v}
            && !r.order.isCompleted && r.started
  {
    assert After(messages, []) == START;
    hide After;
    Delivers(messages, [], o);
    assert [] + [o] == [o];
    Delivers(messages, [o], i);
    assert [o] + [i] == [o, i];
    Delivers(messages, [o, i], v);
    assert [o, i] + [v] == [o, i, v];
  }

  /** Two different completions of one check for one order have it shipped twice. */
  lemma ShipsTwice(messages: map<Id, Message>, o: Id, i: Id, v: Id, j: Id)
    requires Checked(messages, o, i, v) && j in messages && j != i && messages[j] == messages[i]
    ensures Shipments(After(messages, [o, i, v, j]).published) == 2
  {
    ShipsForLateChecks(messages, [o, i, v, j]);
    Checks(messages, o, i, v);
    hide After, Late, Shipments, Count;
    Delivers(messages, [o, i, v], j);
    assert [o, i, v] + [j] == [o, i, v, j];
    LateStep([messages[o], messages[i], messages[v]], messages[j]);
    OneLate(messages[o], messages[i]);
  }

  lemma OneLate(o: Message, x: Message)
    requires o.SaveOrder? && IsCheck(x)
    ensures Late([o, x, Other(x)]) == 1
  {
    OneOfEach([o, x, Other(x)]);
  }

  /**
   With an order and a completion of each check among the messages: no delivery of them, in any order and with any
   redelivery, has the order shipped more than once if and only if each check has one completion only.
   */
  lemma ShipsAtMostOnceIff(messages: map<Id, Message>, o: Id, c: Id, v: Id)
    requires Checked(messages, o, c, v) && messages[c].CreditCheckCompleted?
    ensures (forall ids | forall id | id in ids :: id in messages :: Shipments(After(messages, ids).published) <= 1)
            <==> Single(messages, CreditCheckCompleted) && Single(messages, InventoryCheckCompleted)
  {
    if Single(messages, CreditCheckCompleted) && Single(messages, InventoryCheckCompleted) {
      forall ids | forall id | id in ids :: id in messages
        ensures Shipments(After(messages, ids).published) <= 1
      {
        ShipsOnce(messages, ids);
      }
    } else {
      hide Shipments, After;
      var x := if Single(messages, CreditCheckCompleted) then InventoryCheckCompleted else CreditCheckCompleted;
      var i, j :| i in messages && j in messages && messages[i] == x && messages[j] == x && i != j;
      var y := if x.CreditCheckCompleted? then v else c;
      ShipsTwice(messages, o, i, y, j);
    }
  }

  /** Where no message comes twice, handling whatever comes is the same as delivering it. */
  function HandleAll(messages: map<Id, Message>, ids: seq<Id>): Run
    requires forall id | id in ids :: id in messages
  {
    if ids == [] then START else Handle(messages, HandleAll(messages, ids[..|ids| - 1]), ids[|ids| - 1])
  }

  lemma {:induction false} HandlesOnce(messages: map<Id, Message>, ids: seq<Id>)
    requires (forall id | id in ids :: id in messages) && forall j, k | 0 <= j < k < |ids| :: ids[j] != ids[k]
    ensures HandleAll(messages, ids) == After(messages, ids)
    ensures forall id | id in After(messages, ids).processed :: id in ids
  {
    if ids != [] {
      var before := ids[..|ids| - 1];
      HandlesOnce(messages, before);
      hide Handled, Published;
      assert ids[|ids| - 1] !in before;
    }
  }

  // ----- What the messages say -----

  /** The order that was saved last. */
  function LastSaved(handled: seq<Message>): Option<Id> {
    if handled == [] then None
    else
      var last := handled[|handled| - 1];
      if last.SaveOrder? then Some(last.orderId) else LastSaved(handled[..|handled| - 1])
  }

  lemma {:induction false} SavedWas(handled: seq<Message>)
    ensures LastSaved(handled).Some? ==> SaveOrder(LastSaved(handled).value) in handled
    ensures (exists m :: m in handled && m.SaveOrder?) ==> LastSaved(handled).Some?
  {
    if handled != [] {
      SavedWas(handled[..|handled| - 1]);
    }
  }

  /** How often `p` is published. */
  function Times(published: seq<Publication>, p: Publication): nat {
    multiset(published)[p]
  }

  /** The saved order and the completion are those of the handled messages. */
  ghost predicate Follows(r: Run) {
    && (r.started <==> r.handled != []) && (r.started ==> LastSaved(r.handled) == Some(r.order.orderId))
    && (r.order.isCompleted <==> ShippingCompleted in r.handled)
    && (forall p | p in r.published :: SaveOrder(p.orderId) in r.handled)
  }

  /** How often every publication but ProcessShipping was made, by the handled messages. */
  ghost predicate Says(r: Run, o: Id) {
    && Times(r.published, ProcessCreditCheck(o)) == Count(r.handled, SaveOrder(o))
    && Times(r.published, CheckInventory(o)) == Count(r.handled, SaveOrder(o))
    && Times(r.published, OrderSagaCompleted(o)) == if r.order.isCompleted && r.order.orderId == o then 1 else 0
  }

  lemma HandleFollows(messages: map<Id, Message>, r: Run, id: Id)
    requires Follows(r) && id in messages
    ensures Follows(Handle(messages, r, id))
  {
    var m, r' := messages[id], Handle(messages, r, id);
    if r' != r {
      assert r'.handled[..|r.handled|] == r.handled;
      SavedWas(r.handled);
      hide LastSaved;
      assert m.SaveOrder? ==> m == SaveOrder(r'.order.orderId);
    }
  }

  lemma TimesOfBoth(p: seq<Publication>, q: seq<Publication>, x: Publication)
    ensures Times(p + q, x) == Times(p, x) + Times(q, x)
  {
  }

  lemma HandleSays(messages: map<Id, Message>, r: Run, id: Id, o: Id)
    requires Says(r, o) && id in messages
    ensures Says(Handle(messages, r, id), o)
  {
    var m, r' := messages[id], Handle(messages, r, id);
    if r' != r {
      var q := Published(r.order, m);
      TimesOfBoth(r.published, q, ProcessCreditCheck(o));
      TimesOfBoth(r.published, q, CheckInventory(o));
      TimesOfBoth(r.published, q, OrderSagaCompleted(o));
      TimesOf(r.order, m, o);
      hide Times, Published;
      assert Count(r.handled + [m], SaveOrder(o))
          == Count(r.handled, SaveOrder(o)) + if m == SaveOrder(o) then 1 else 0;
      hide Count;
    }
  }

  lemma TimesOf(order: Order, m: Message, o: Id)
    ensures var q := Published(order, m);
            && Times(q, ProcessCreditCheck(o)) == (if m == SaveOrder(o) then 1 else 0)
            && Times(q, CheckInventory(o)) == (if m == SaveOrder(o) then 1 else 0)
            && Times(q, OrderSagaCompleted(o)) == (if m == ShippingCompleted && order.orderId == o then 1 else 0)
  {
  }

  /**
   For any messages, deliveries and order: each of the two checks is asked for once per handled SaveOrder and for its
   order; the saga is completed, and says so once and for the order saved last, if and only if ShippingCompleted was
   handled; and every publication names an order that was saved.
   */
  lemma {:induction false} PublishesFor(messages: map<Id, Message>, ids: seq<Id>, o: Id)
    requires forall id | id in ids :: id in messages
    ensures var r := After(messages, ids);
            && multiset(r.published)[ProcessCreditCheck(o)] == multiset(r.handled)[SaveOrder(o)]
            && multiset(r.published)[CheckInventory(o)] == multiset(r.handled)[SaveOrder(o)]
            && (r.order.isCompleted <==> ShippingCompleted in r.handled)
            && multiset(r.published)[OrderSagaCompleted(o)]
               == (if r.order.isCompleted && LastSaved(r.handled) == Some(o) then 1 else 0)
            && (forall p | p in r.published :: SaveOrder(p.orderId) in r.handled)
  {
    RunSays(messages, ids, o);
  }

  lemma {:induction false} RunSays(messages: map<Id, Message>, ids: seq<Id>, o: Id)
    requires forall id | id in ids :: id in messages
    ensures Follows(After(messages, ids)) && Says(After(messages, ids), o)
  {
    if ids != [] {
      RunSays(messages, ids[..|ids| - 1], o);
      hide Says, Follows, Handle;
      HandleFollows(messages, After(messages, ids[..|ids| - 1]), ids[|ids| - 1]);
      HandleSays(messages, After(messages, ids[..|ids| - 1]), ids[|ids| - 1], o);
    }
  }

  /** A delivery that asks for shipping does so for the order saved last. */
  lemma ShipsLastSaved(messages: map<Id, Message>, ids: seq<Id>, id: Id, o: Id)
    requires id in messages && forall i | i in ids :: i in messages
    requires var before, after := After(messages, ids).published, After(messages, ids + [id]).published;
             multiset(after)[ProcessShipping(o)] > multiset(before)[ProcessShipping(o)]
    ensures LastSaved(After(messages, ids).handled) == Some(o)
    ensures IsCheck(messages[id]) && Other(messages[id]) in After(messages, ids).handled
  {
    RunSays(messages, ids, o);
    RunsKeep(messages, ids);
    Delivers(messages, ids, id);
    var r, m := After(messages, ids), messages[id];
    TimesOfBoth(r.published, Published(r.order, m), ProcessShipping(o));
    ShippingIs(r.order, m, o);
    hide After, LastSaved, Published, Says, Shipments, Late, Count, HandledIds;
  }

  lemma ShippingIs(order: Order, m: Message, o: Id)
    ensures Times(Published(order, m), ProcessShipping(o)) > 0 ==>
              && order.orderId == o && IsCheck(m)
              && (m.CreditCheckCompleted? ==> order.inventoryCheckCompleted)
              && (m.InventoryCheckCompleted? ==> order.creditCheckCompleted)
  {
  }

  lemma Delivers(messages: map<Id, Message>, ids: seq<Id>, id: Id)
    requires id in messages && forall i | i in ids :: i in messages
    ensures After(messages, ids + [id]) == Deliver(messages, After(messages, ids), id)
  {
    assert (ids + [id])[..|ids|] == ids;
  }
}
