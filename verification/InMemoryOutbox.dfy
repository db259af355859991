/** The in-memory outbox: a dictionary of pending envelopes by message id. */
module InMemoryOutbox {
  import opened Messages

  datatype OutboxAppendResult = Success | Duplicate

  /** The first `n` messages of the batch have ids that are not pending and do not repeat. */
  predicate AllNew(pending: map<Id, Envelope>, batch: seq<Envelope>, n: nat)
    requires n <= |batch|
  {
    && (forall k | 0 <= k < n :: batch[k].messageId !in pending)
    && (forall j, k | 0 <= j < k < n :: batch[j].messageId != batch[k].messageId)
  }

  /** The outbox after the messages of `batch` were added one by one. */
  function Added(pending: map<Id, Envelope>, batch: seq<Envelope>): map<Id, Envelope> {
    if batch == [] then pending
    else Added(pending, batch[..|batch| - 1])[batch[|batch| - 1].messageId := batch[|batch| - 1]]
  }

  /** The length of the longest prefix with new, non-repeating ids. */
  function NewPrefix(pending: map<Id, Envelope>, batch: seq<Envelope>): (n: nat)
    ensures n <= |batch| && AllNew(pending, batch, n)
    ensures n < |batch| ==> !AllNew(pending, batch, n + 1)
  {
    if batch == [] then 0
    else
      var n := NewPrefix(pending, batch[..|batch| - 1]);
      if n == |batch| - 1 && AllNew(pending, batch, |batch|) then |batch| else n
  }

  /** Adding new ids one by one keeps everything pending, and adds exactly these messages. */
  lemma {:induction false} AddedIs(pending: map<Id, Envelope>, batch: seq<Envelope>)
    requires AllNew(pending, batch, |batch|)
    ensures forall id :: id in Added(pending, batch)
                         <==> id in pending || exists k :: 0 <= k < |batch| && batch[k].messageId == id
    ensures forall id | id in pending :: Added(pending, batch)[id] == pending[id]
    ensures forall k | 0 <= k < |batch| :: Added(pending, batch)[batch[k].messageId] == batch[k]
  {
    if batch != [] {
      var n := |batch| - 1;
      AddedIs(pending, batch[..n]);
      forall k | 0 <= k < n
        ensures batch[k].messageId in Added(pending, batch[..n])
        ensures Added(pending, batch[..n])[batch[k].messageId] == batch[k]
      {
        assert batch[..n][k] == batch[k];
      }
    }
  }

  lemma Shorter(pending: map<Id, Envelope>, batch: seq<Envelope>, n: nat, m: nat)
    requires m <= n <= |batch| && AllNew(pending, batch, n)
    ensures AllNew(pending, batch, m)
  {
  }

  /** The longest new prefix is the only one that is new and cannot be extended. */
  lemma PrefixIs(pending: map<Id, Envelope>, batch: seq<Envelope>, n: nat)
    requires n <= |batch| && AllNew(pending, batch, n) && (n < |batch| ==> !AllNew(pending, batch, n + 1))
    ensures NewPrefix(pending, batch) == n
  {
    var m := NewPrefix(pending, batch);
    hide AllNew;
    if m < n {
      Shorter(pending, batch, n, m + 1);
    } else if n < m {
      Shorter(pending, batch, m, n + 1);
    }
  }

  /** What a TryAdd after `n` successful ones finds: a repeated id, or a message to add. */
  lemma AddStep(pending: map<Id, Envelope>, batch: seq<Envelope>, n: nat)
    requires n < |batch| && AllNew(pending, batch, n)
    ensures batch[n].messageId in Added(pending, batch[..n]) ==> NewPrefix(pending, batch) == n
    ensures batch[n].messageId !in Added(pending, batch[..n]) ==>
              AllNew(pending, batch, n + 1)
              && Added(pending, batch[..n + 1]) == Added(pending, batch[..n])[batch[n].messageId := batch[n]]
  {
    AddedIs(pending, batch[..n]);
    hide Added, AllNew, NewPrefix;
    NextIsNewIff(pending, batch, n, Added(pending, batch[..n]));
    if batch[n].messageId in Added(pending, batch[..n]) {
      PrefixIs(pending, batch, n);
    } else {
      AddedUnfolds(pending, batch, n);
    }
  }

  lemma NextIsNewIff(pending: map<Id, Envelope>, batch: seq<Envelope>, n: nat, after: map<Id, Envelope>)
    requires n < |batch| && AllNew(pending, batch, n)
    requires forall id :: id in after <==> id in pending || exists k :: 0 <= k < n && batch[..n][k].messageId == id
    ensures AllNew(pending, batch, n + 1) <==> batch[n].messageId !in after
  {
    assert forall k | 0 <= k < n :: batch[..n][k] == batch[k];
  }

  lemma AddedUnfolds(pending: map<Id, Envelope>, batch: seq<Envelope>, n: nat)
    requires n < |batch|
    ensures Added(pending, batch[..n + 1]) == Added(pending, batch[..n])[batch[n].messageId := batch[n]]
  {
    assert batch[..n + 1][..n] == batch[..n];
  }

  lemma AppendStarts(pending: map<Id, Envelope>, batch: seq<Envelope>)
    ensures AllNew(pending, batch, 0) && Added(pending, batch[..0]) == pending
  {
  }

  class InMemoryOutboxRepository {
    var messages: map<Id, Envelope>

    constructor ()
      ensures messages == map[]
    {
      messages := map[];
    }

    /** TryAdd for each message in turn; the first id that is already there ends the append. */
    method AppendAsync(batch: seq<Envelope>) returns (result: OutboxAppendResult)
      modifies this
      ensures messages == Added(old(messages), batch[..NewPrefix(old(messages), batch)])
      ensures result == OutboxAppendResult.Success <==> NewPrefix(old(messages), batch) == |batch|
    {
      hide Added, AllNew;
      AppendStarts(messages, batch);
      for n := 0 to |batch|
        invariant AllNew(old(messages), batch, n) && messages == Added(old(messages), batch[..n])
      {
        AddStep(old(messages), batch, n);
        if batch[n].messageId in messages {
          return Duplicate;
        }
        messages := messages[batch[n].messageId := batch[n]];
      }
      PrefixIs(old(messages), batch, |batch|);
      return OutboxAppendResult.Success;
    }

    /** The values of the dictionary, in some order. */
    method ReadPendingAsync() returns (pending: seq<Envelope>)
      ensures |pending| == |messages| && forall e :: e in pending <==> e in messages.Values
    {
      pending := [];
      var ids := messages.Keys;
      while ids != {}
        invariant ids <= messages.Keys && |pending| + |ids| == |messages|
        invariant forall e | e in pending :: e in messages.Values
        invariant forall id | id in messages.Keys - ids :: messages[id] in pending
        decreases |ids|
      {
        var id :| id in ids;
        pending := pending + [messages[id]];
        ids := ids - {id};
      }
    }

    method DeleteAsync(message: Envelope)
      modifies this
      ensures messages == old(messages) - {message.messageId}
    {
      messages := messages - {message.messageId};
    }
  }

  predicate Pending(pending: map<Id, Envelope>, e: Envelope) {
    e.messageId in pending && pending[e.messageId] == e
  }

  /** Whatever is behind the first repeated id of the batch is pending already, or is in front of it too. */
  predicate RestIsThere(pending: map<Id, Envelope>, batch: seq<Envelope>) {
    var n := NewPrefix(pending, batch);
    forall k | n <= k < |batch| :: Pending(pending, batch[k]) || exists j :: 0 <= j < n && batch[j] == batch[k]
  }

  /** An append leaves every envelope of the batch pending if and only if that holds of the batch before. */
  lemma AppendKeepsAllIff(pending: map<Id, Envelope>, batch: seq<Envelope>)
    ensures var after := Added(pending, batch[..NewPrefix(pending, batch)]);
            (forall k | 0 <= k < |batch| :: Pending(after, batch[k])) <==> RestIsThere(pending, batch)
  {
    var n := NewPrefix(pending, batch);
    var after := Added(pending, batch[..n]);
    AddedIs(pending, batch[..n]);
    hide Added, NewPrefix;
    forall k | 0 <= k < n
      ensures Pending(after, batch[k])
    {
      assert batch[..n][k] == batch[k];
    }
    forall k | n <= k < |batch|
      ensures Pending(after, batch[k]) <==> Pending(pending, batch[k]) || exists j :: 0 <= j < n && batch[j] == batch[k]
    {
      PendingAfter(pending, batch, n, after, batch[k]);
    }
  }

  lemma PendingAfter(pending: map<Id, Envelope>, batch: seq<Envelope>, n: nat, after: map<Id, Envelope>, e: Envelope)
    requires n <= |batch| && AllNew(pending, batch, n)
    requires forall id :: id in after <==> id in pending || exists k :: 0 <= k < n && batch[..n][k].messageId == id
    requires forall id | id in pending :: after[id] == pending[id]
    requires forall k | 0 <= k < n :: after[batch[..n][k].messageId] == batch[..n][k]
    ensures Pending(after, e) <==> Pending(pending, e) || exists j :: 0 <= j < n && batch[j] == e
  {
    if j :| 0 <= j < n && batch[j] == e {
      assert batch[..n][j] == e;
    }
    if Pending(after, e) && e.messageId !in pending {
      var k :| 0 <= k < n && batch[..n][k].messageId == e.messageId;
      assert batch[k] == e;
    }
  }

  /** A duplicate leaves the outbox as it was exactly when the first message of the batch is already pending. */
  lemma DuplicateAppendsNothingIff(pending: map<Id, Envelope>, batch: seq<Envelope>)
    requires NewPrefix(pending, batch) < |batch|
    ensures Added(pending, batch[..NewPrefix(pending, batch)]) == pending <==> batch[0].messageId in pending
  {
    var n := NewPrefix(pending, batch);
    AddedIs(pending, batch[..n]);
    if n > 0 {
      assert batch[..n][0] == batch[0];
    }
  }

  /** The interface promises that a duplicate batch appends nothing; this batch appends its first message. */
  lemma DuplicateAppendsPrefix(e: Envelope, f: Envelope)
    requires e.messageId != f.messageId
    ensures var pending, batch := map[f.messageId := f], [e, f];
            NewPrefix(pending, batch) == 1 && Added(pending, batch[..1]) == pending[e.messageId := e]
  {
    var pending, batch := map[f.messageId := f], [e, f];
    assert AllNew(pending, batch, 1) && batch[1].messageId in pending;
    PrefixIs(pending, batch, 1);
    assert batch[..1][..0] == [];
  }
}
