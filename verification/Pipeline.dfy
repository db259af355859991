/**
 The message pipeline as classes: the outbox relay, the channel reader and the subscriber.

 Failures of publishers, of the outbox and of message processing are parameters.
 */
module Pipeline {
  import opened Messages
  import Outbox = InMemoryOutbox

  /** A channel; its items are read in the order in which they were written, and may be null. */
  class Channel<T> {
    var items: seq<Option<T>>

    constructor (items: seq<Option<T>>)
      ensures this.items == items
    {
      this.items := items;
    }

    method Write(item: T)
      modifies this
      ensures items == old(items) + [Some(item)]
    {
      items := items + [Some(item)];
    }

    /** None when there is nothing to read. */
    method TryRead() returns (item: Option<Option<T>>)
      modifies this
      ensures if old(items) == [] then item.None? && items == []
              else item == Some(old(items)[0]) && items == old(items)[1..]
    {
      if items == [] {
        return None;
      }
      item, items := Some(items[0]), items[1..];
    }
  }

  /** How many leading items are not null. */
  function NonNull<T>(items: seq<Option<T>>): (n: nat)
    ensures n <= |items| && (forall k | 0 <= k < n :: items[k].Some?) && (n < |items| ==> items[n].None?)
  {
    if items == [] || items[0].None? then 0 else 1 + NonNull(items[1..])
  }

  /**
   A batch is the longest prefix of the channel without null that is within the limit. A null within the limit ends it
   and is consumed; a negative limit throws.
   */
  method ReadMultipleAsync<T>(reader: Channel<T>, maxBatchSize: int) returns (batch: Result<seq<T>>)
    modifies reader
    ensures maxBatchSize < 0 ==> batch == Failure(ArgumentException) && reader.items == old(reader.items)
    ensures maxBatchSize >= 0 ==>
              var n := Min(maxBatchSize, NonNull(old(reader.items)));
              && batch.Success? && |batch.value| == n
              && (forall k | 0 <= k < n :: Some(batch.value[k]) == old(reader.items)[k])
              && reader.items == old(reader.items)[if n < maxBatchSize && n < |old(reader.items)| then n + 1 else n..]
  {
    if maxBatchSize < 0 {
      return Failure(ArgumentException);
    }
    var taken: seq<T> := [];
    ghost var all := reader.items;
    while |taken| < maxBatchSize
      invariant |taken| <= maxBatchSize && |taken| <= NonNull(all)
      invariant forall k | 0 <= k < |taken| :: Some(taken[k]) == all[k]
      invariant reader.items == all[|taken|..]
      decreases maxBatchSize - |taken|
    {
      var message := reader.TryRead();
      if message.None? || message.value.None? {
        break;
      }
      taken := taken + [message.value.value];
    }
    return Success(taken);
  }

  // ----- The relay -----

  /** The messages that are published, in order. */
  function Sent(messages: seq<Envelope>, failing: set<Id>): seq<Option<Envelope>> {
    if messages == [] then []
    else
      var last := messages[|messages| - 1];
      Sent(messages[..|messages| - 1], failing) + (if last.messageId in failing then [] else [Some(last)])
  }

  lemma {:induction false} SentIs(messages: seq<Envelope>, failing: set<Id>, e: Envelope)
    ensures Some(e) in Sent(messages, failing) <==> e in messages && e.messageId !in failing
  {
    if messages != [] {
      SentIs(messages[..|messages| - 1], failing, e);
    }
  }

  function Ids(messages: seq<Envelope>): set<Id> {
    set e | e in messages :: e.messageId
  }

  class OutboxProcessor {
    const outbox: Outbox.InMemoryOutboxRepository
    const publisher: Channel<Envelope>

    constructor (outbox: Outbox.InMemoryOutboxRepository, publisher: Channel<Envelope>)
      ensures this.outbox == outbox && this.publisher == publisher
    {
      this.outbox, this.publisher := outbox, publisher;
    }

    /** One message: publish, then delete; an exception of either step is swallowed. */
    method Relay(message: Envelope, unpublished: set<Id>, undeleted: set<Id>)
      modifies outbox, publisher
      ensures publisher.items
              == old(publisher.items) + (if message.messageId in unpublished then [] else [Some(message)])
      ensures outbox.messages
              == if message.messageId in unpublished + undeleted then old(outbox.messages)
                else old(outbox.messages) - {message.messageId}
    {
      if message.messageId in unpublished {
        return;
      }
      publisher.Write(message);
      if message.messageId in undeleted {
        return;
      }
      outbox.DeleteAsync(message);
    }

    /**
     `unpublished` and `undeleted` are the messages whose publication or deletion fails. A failure concerns its own
     message only; what leaves the outbox was written to the channel before, and everything else stays pending.
     */
    method ProcessPendingMessagesAsync(unpublished: set<Id>, undeleted: set<Id>) returns (messages: seq<Envelope>)
      requires forall id | id in outbox.messages :: outbox.messages[id].messageId == id
      modifies outbox, publisher
      ensures forall e :: e in messages <==> e in old(outbox.messages).Values
      ensures publisher.items == old(publisher.items) + Sent(messages, unpublished)
      ensures outbox.messages == old(outbox.messages) - (old(outbox.messages).Keys - unpublished - undeleted)
      ensures forall id | id in old(outbox.messages) && id !in outbox.messages ::
              Some(old(outbox.messages)[id]) in publisher.items
    {
      ghost var pending, before := outbox.messages, publisher.items;
      messages := outbox.ReadPendingAsync();
      hide Sent, Ids, Without;
      NothingSent(pending, before, unpublished, unpublished + undeleted);
      assert messages[..0] == [];
      for n := 0 to |messages|
        invariant publisher.items == before + Sent(messages[..n], unpublished)
        invariant outbox.messages == Without(pending, Ids(messages[..n]), unpublished + undeleted)
      {
        SentStep(messages, n, unpublished, before);
        WithoutStep(pending, Ids(messages[..n]), unpublished + undeleted, messages[n].messageId);
        Relay(messages[n], unpublished, undeleted);
      }
      assert messages[..|messages|] == messages;
      RelayEnds(pending, messages, unpublished, undeleted, before);
    }
  }

  /** What is left of `pending` when the messages `ids` are deleted, except `kept`. */
  function Without(pending: map<Id, Envelope>, ids: set<Id>, kept: set<Id>): map<Id, Envelope> {
    pending - (ids - kept)
  }

  lemma WithoutStep(pending: map<Id, Envelope>, ids: set<Id>, kept: set<Id>, id: Id)
    ensures Without(pending, ids + {id}, kept)
            == if id in kept then Without(pending, ids, kept) else Without(pending, ids, kept) - {id}
  {
  }

  lemma NothingSent(pending: map<Id, Envelope>, before: seq<Option<Envelope>>, failing: set<Id>, kept: set<Id>)
    ensures before + Sent([], failing) == before && Without(pending, Ids([]), kept) == pending
  {
  }

  lemma SentStep(messages: seq<Envelope>, n: nat, failing: set<Id>, before: seq<Option<Envelope>>)
    requires n < |messages|
    ensures Ids(messages[..n + 1]) == Ids(messages[..n]) + {messages[n].messageId}
    ensures before + Sent(messages[..n + 1], failing)
            == before + Sent(messages[..n], failing)
               + (if messages[n].messageId in failing then [] else [Some(messages[n])])
  {
    assert messages[..n + 1][..n] == messages[..n];
    assert messages[..n + 1] == messages[..n] + [messages[n]];
  }

  lemma RelayEnds(pending: map<Id, Envelope>, messages: seq<Envelope>, unpublished: set<Id>, undeleted: set<Id>,
                  before: seq<Option<Envelope>>)
    requires forall id | id in pending :: pending[id].messageId == id
    requires forall e :: e in messages <==> e in pending.Values
    ensures Without(pending, Ids(messages), unpublished + undeleted)
            == pending - (pending.Keys - unpublished - undeleted)
    ensures forall id | id in pending && id !in unpublished :: Some(pending[id]) in before + Sent(messages, unpublished)
  {
    forall id | id in pending
      ensures id in Ids(messages) && (id !in unpublished ==> Some(pending[id]) in Sent(messages, unpublished))
    {
      assert pending[id] in messages;
      SentIs(messages, unpublished, pending[id]);
    }
    assert Ids(messages) == pending.Keys;
  }

  // ----- The subscriber -----

  ghost predicate Accounted<T>(read: seq<T>, written: seq<T>, done: seq<T>, lost: seq<T>) {
    multiset(read) == multiset(written) + multiset(done) + multiset(lost)
  }

  lemma AccountStep<T>(all: seq<T>, k: nat, written: seq<T>, done: seq<T>, lost: seq<T>)
    requires k < |all| && Accounted(all[..k], written, done, lost)
    ensures Accounted(all[..k + 1], written + [all[k]], done, lost)
    ensures Accounted(all[..k + 1], written, done + [all[k]], lost)
    ensures Accounted(all[..k + 1], written, done, lost + [all[k]])
  {
    assert all[..k + 1] == all[..k] + [all[k]];
  }

  lemma AccountEnds<T>(all: seq<T>, n: nat, before: seq<T>, written: seq<T>, done: seq<T>, lost: seq<T>)
    requires n <= |all| && Accounted(all[..n], written, done, lost)
    ensures multiset(all) + multiset(before) == multiset(all[n..] + written) + multiset(before + done) + multiset(lost)
  {
    assert all == all[..n] + all[n..];
  }

  class InMemorySubscriber {
    const reader: Channel<Envelope>
    const maxMessagesBatchSize: int
    /** The messages whose processing has returned normally. */
    var finished: seq<Option<Envelope>>

    constructor (reader: Channel<Envelope>, maxMessagesBatchSize: int)
      ensures this.reader == reader && this.maxMessagesBatchSize == maxMessagesBatchSize && finished == []
    {
      this.reader, this.maxMessagesBatchSize, finished := reader, maxMessagesBatchSize, [];
    }

    /** One message of a batch: an exception other than a cancellation has it written back. */
    method ProcessMessage(message: Envelope, outcome: Option<Error>) returns (error: Option<Error>)
      modifies this`finished, reader
      ensures error == if outcome == Some(OperationCanceledException) then outcome else None
      ensures finished == old(finished) + (if outcome.None? then [Some(message)] else [])
      ensures reader.items == old(reader.items) + (if outcome.Some? && error.None? then [Some(message)] else [])
    {
      if outcome.None? {
        finished := finished + [Some(message)];
      } else if outcome.value != OperationCanceledException {
        reader.Write(message);
      } else {
        return outcome;
      }
      return None;
    }

    /** The tasks of a batch, all awaited: each message is finished, written back, or `lost` to a cancellation. */
    method ProcessBatch(batch: seq<Envelope>, outcome: Envelope -> Option<Error>, ghost read: seq<Option<Envelope>>)
      returns (error: Option<Error>, ghost written: seq<Option<Envelope>>, ghost done: seq<Option<Envelope>>,
               ghost lost: seq<Option<Envelope>>)
      requires |read| == |batch| && forall k | 0 <= k < |batch| :: read[k] == Some(batch[k])
      modifies this`finished, reader
      ensures reader.items == old(reader.items) + written && finished == old(finished) + done
      ensures forall m | m in written ::
                m.Some? && outcome(m.value).Some? && outcome(m.value) != Some(OperationCanceledException)
      ensures forall m | m in done :: m.Some? && outcome(m.value).None?
      ensures Accounted(read, written, done, lost)
      ensures forall m | m in lost :: m.Some? && outcome(m.value) == Some(OperationCanceledException)
      ensures error == if lost != [] then Some(OperationCanceledException) else None
    {
      error, written, done, lost := None, [], [], [];
      for k := 0 to |batch|
        invariant reader.items == old(reader.items) + written && finished == old(finished) + done
        invariant forall m | m in written ::
            m.Some? && outcome(m.value).Some? && outcome(m.value) != Some(OperationCanceledException)
        invariant forall m | m in done :: m.Some? && outcome(m.value).None?
        invariant Accounted(read[..k], written, done, lost)
        invariant forall m | m in lost :: m.Some? && outcome(m.value) == Some(OperationCanceledException)
        invariant error == if lost != [] then Some(OperationCanceledException) else None
      {
        hide Accounted;
        AccountStep(read, k, written, done, lost);
        var raised := outcome(batch[k]);
        var cancelled := ProcessMessage(batch[k], raised);
        if raised.None? {
          done := done + [Some(batch[k])];
        } else if cancelled.None? {
          written := written + [Some(batch[k])];
        } else {
          lost, error := lost + [Some(batch[k])], cancelled;
        }
      }
      assert read[..|batch|] == read;
    }

    /**
     One turn of the consumer loop; `outcome` is what processing a message raises. Every message read is finished,
     written back, or `lost` to an OperationCanceledException, which ends the loop once the batch is through.
     */
    method ConsumeBatch(outcome: Envelope -> Option<Error>)
      returns (error: Option<Error>, ghost lost: seq<Option<Envelope>>)
      requires forall m | m in reader.items :: m.Some?
      modifies this, reader
      ensures multiset(old(reader.items)) + multiset(old(finished))
              == multiset(reader.items) + multiset(finished) + multiset(lost)
      ensures maxMessagesBatchSize >= 0 ==>
                old(reader.items)[Min(maxMessagesBatchSize, |old(reader.items)|)..] <= reader.items
      ensures forall m | m in reader.items :: m.Some?
      ensures forall m | m in lost :: m.Some? && outcome(m.value) == Some(OperationCanceledException)
      ensures old(finished) <= finished
      ensures forall k | |old(finished)| <= k < |finished| :: finished[k].Some? && outcome(finished[k].value).None?
      ensures maxMessagesBatchSize >= 0 ==>
                forall k | |old(reader.items)| - Min(maxMessagesBatchSize, |old(reader.items)|) <= k < |reader.items| ::
                  var m := reader.items[k];
                  m.Some? && outcome(m.value).Some? && outcome(m.value) != Some(OperationCanceledException)
      ensures maxMessagesBatchSize < 0 ==> lost == []
      ensures error == if maxMessagesBatchSize < 0 then Some(ArgumentException)
                       else if lost != [] then Some(OperationCanceledException) else None
    {
      ghost var all := reader.items;
      var read := ReadMultipleAsync(reader, maxMessagesBatchSize);
      if read.Failure? {
        return Some(read.error), [];
      }
      AllRead(all);
      var batch := read.value;
      ghost var written, done;
      error, written, done, lost := ProcessBatch(batch, outcome, all[..|batch|]);
      AccountEnds(all, |batch|, old(finished), written, done, lost);
    }

    /**
     The consumer loop, one turn for each of `turns`, until it is stopped or a turn throws: no message is lost but by
     cancellation.
     */
    method ConsumeMessagesAsync(turns: seq<Envelope -> Option<Error>>)
      returns (error: Option<Error>, ghost lost: seq<Option<Envelope>>)
      requires forall m | m in reader.items :: m.Some?
      modifies this, reader
      ensures multiset(old(reader.items)) + multiset(old(finished))
              == multiset(reader.items) + multiset(finished) + multiset(lost)
      ensures error == Some(OperationCanceledException) <==> lost != []
      ensures old(finished) <= finished
      ensures forall k | |old(finished)| <= k < |finished| ::
                finished[k].Some? && exists t | 0 <= t < |turns| :: turns[t](finished[k].value).None?
    {
      lost := [];
      var n := 0;
      while n < |turns|
        invariant 0 <= n <= |turns| && lost == []
        invariant forall m | m in reader.items :: m.Some?
        invariant multiset(old(reader.items)) + multiset(old(finished)) == multiset(reader.items) + multiset(finished)
        invariant old(finished) <= finished
        invariant forall k | |old(finished)| <= k < |finished| ::
            finished[k].Some? && exists t | 0 <= t < n :: turns[t](finished[k].value).None?
      {
        error, lost := ConsumeBatch(turns[n]);
        if error.Some? {
          return;
        }
        n := n + 1;
      }
      return None, [];
    }
  }

  lemma {:induction false} AllRead(items: seq<Option<Envelope>>)
    requires forall m | m in items :: m.Some?
    ensures NonNull(items) == |items|
  {
    if items != [] {
      AllRead(items[1..]);
    }
  }
}
