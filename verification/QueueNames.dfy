/** Names of exchanges and queues, and topic matching. */
module QueueNames {

  /** The names of one message type's exchanges and queues. */
  datatype QueueReferences = QueueReferences(
    exchangeName: string,
    queueName: string,
    routingKey: string,
    deadLetterExchangeName: string,
    deadLetterQueue: string)
  {
    function RetryExchangeName(): string { exchangeName + ".retry" }

    function RetryQueueName(): string { queueName + ".retry" }

    /** All the names: three exchanges and three queues. */
    function Names(): seq<string> {
      [exchangeName, deadLetterExchangeName, RetryExchangeName(), queueName, deadLetterQueue, RetryQueueName()]
    }
  }

  /** Lower case, for the letters of ASCII. */
  function ToLower(s: string): string {
    seq(|s|, i requires 0 <= i < |s| => if 'A' <= s[i] <= 'Z' then (s[i] as int + 32) as char else s[i])
  }

  /** No capital letter is left, and everything else stays as it is. */
  lemma LowerCase(s: string, k: nat)
    requires k < |s|
    ensures var c := ToLower(s)[k];
            && !('A' <= c <= 'Z') && (c == s[k] || 'A' <= s[k] <= 'Z')
            && ToLower(ToLower(s)) == ToLower(s) && |ToLower(s)| == |s|
  {
  }

  /** QueueReferenceFactory.BuildDefaultCreator. */
  function DefaultReferences(typeName: string, clientGroup: string): QueueReferences {
    var exchangeName := ToLower(typeName);
    var queueName := exchangeName + "." + clientGroup + ".workers";
    var dlExchangeName := exchangeName + ".dead";
    var dlQueueName := dlExchangeName + "." + clientGroup + ".workers";
    QueueReferences(exchangeName, queueName, exchangeName, dlExchangeName, dlQueueName)
  }

  /** The references of a type are computed once and cached. */
  class QueueReferenceFactory {
    const clientGroup: string
    var cache: map<string, QueueReferences>

    constructor (clientGroup: string)
      ensures Valid() && this.clientGroup == clientGroup
    {
      this.clientGroup, cache := clientGroup, map[];
    }

    predicate Valid()
      reads this
    {
      forall t | t in cache :: cache[t] == DefaultReferences(t, clientGroup)
    }

    method Create(messageType: string) returns (r: QueueReferences)
      requires Valid()
      modifies this
      ensures Valid() && r == DefaultReferences(messageType, clientGroup) && cache == old(cache)[messageType := r]
    {
      if messageType !in cache {
        cache := cache[messageType := DefaultReferences(messageType, clientGroup)];
      }
      r := cache[messageType];
    }
  }

  predicate DotFree(s: string) {
    '.' !in s
  }

  // ----- Distinct names -----

  function FirstSegment(s: string): string {
    if s == [] || s[0] == '.' then [] else [s[0]] + FirstSegment(s[1..])
  }

  lemma {:induction false} SegmentOf(a: string, rest: string)
    requires DotFree(a) && (rest == [] || rest[0] == '.')
    ensures FirstSegment(a + rest) == a
  {
    if a == [] {
      assert a + rest == rest;
    } else {
      assert (a + rest)[1..] == a[1..] + rest;
      SegmentOf(a[1..], rest);
    }
  }

  /** Every name of a type is its lower-case name and what follows, starting with a dot. */
  lemma NamesOf(typeName: string, group: string, n: string)
    requires DotFree(ToLower(typeName)) && n in DefaultReferences(typeName, group).Names()
    ensures FirstSegment(n) == ToLower(typeName)
  {
    var r := DefaultReferences(typeName, group);
    var a := r.exchangeName;
    var k :| 0 <= k < 6 && r.Names()[k] == n;
    var rest := n[|a|..];
    assert n == a + rest;
    SegmentOf(a, rest);
  }

  /** The six names of a type are pairwise distinct, and none is a name of another type, in one client group or two. */
  lemma DistinctNames(typeName: string, group: string, otherType: string, otherGroup: string)
    requires DotFree(ToLower(typeName)) && DotFree(ToLower(otherType)) && ToLower(typeName) != ToLower(otherType)
    ensures var names, others :=
            DefaultReferences(typeName, group).Names(), DefaultReferences(otherType, otherGroup).Names();
            && (forall j, k | 0 <= j < k < |names| :: names[j] != names[k])
            && (forall n, m | n in names && m in others :: n != m)
  {
    var r, q := DefaultReferences(typeName, group), DefaultReferences(otherType, otherGroup);
    forall n, m | n in r.Names() && m in q.Names()
      ensures n != m
    {
      NamesOf(typeName, group, n);
      NamesOf(otherType, otherGroup, m);
    }
    SixNames(typeName, group);
  }

  lemma SixNames(typeName: string, group: string)
    ensures var names := DefaultReferences(typeName, group).Names();
            forall j, k | 0 <= j < k < |names| :: |names[j]| != |names[k]|
  {
    var names := DefaultReferences(typeName, group).Names();
    assert |names[1]| == |names[0]| + 5 && |names[2]| == |names[0]| + 6;
    assert |names[3]| == |names[0]| + |group| + 9 && |names[4]| == |names[3]| + 5 && |names[5]| == |names[3]| + 6;
  }

  // ----- Topics (section 3.1.3.3 of AMQP 0-9-1) -----

  /** The words of a routing key or pattern, which dots separate. */
  function Words(s: string): (words: seq<string>)
    ensures |words| > 0
  {
    if s == [] then [[]]
    else
      var words := Words(s[1..]);
      if s[0] == '.' then [[]] + words else [[s[0]] + words[0]] + words[1..]
  }

  function Join(words: seq<string>): string
    requires |words| > 0
  {
    if |words| == 1 then words[0] else words[0] + "." + Join(words[1..])
  }

  lemma {:induction false} JoinWords(s: string)
    ensures Join(Words(s)) == s
  {
    if s != [] {
      JoinWords(s[1..]);
      var words := Words(s[1..]);
      if s[0] == '.' {
        assert ([[]] + words)[1..] == words;
      } else {
        assert ([[s[0]] + words[0]] + words[1..])[1..] == words[1..];
      }
    }
  }

  lemma {:induction false} WordsOfBoth(a: string, b: string)
    ensures Words(a + "." + b) == Words(a) + Words(b)
  {
    var s := a + "." + b;
    if a == [] {
      assert s[1..] == b;
    } else {
      assert s[1..] == a[1..] + "." + b;
      WordsOfBoth(a[1..], b);
    }
  }

  lemma {:induction false} OneWord(s: string)
    requires DotFree(s)
    ensures Words(s) == [s]
  {
    if s != [] {
      OneWord(s[1..]);
      assert [s[0]] + s[1..] == s;
    }
  }

  /** `*` stands for one word, `#` for any number of words. */
  predicate Matches(pattern: seq<string>, key: seq<string>)
    decreases |pattern| + |key|
  {
    if pattern == [] then key == []
    else if pattern[0] == "#" then Matches(pattern[1..], key) || (key != [] && Matches(pattern, key[1..]))
    else key != [] && (pattern[0] == "*" || pattern[0] == key[0]) && Matches(pattern[1..], key[1..])
  }

  predicate TopicMatches(pattern: string, key: string) {
    Matches(Words(pattern), Words(key))
  }

  predicate WildcardFree(s: string) {
    "*" !in Words(s) && "#" !in Words(s)
  }

  lemma {:induction false} HashMatches(key: seq<string>)
    ensures Matches(["#"], key)
  {
    if key == [] {
      assert Matches(["#"][1..], key);
    } else {
      HashMatches(key[1..]);
    }
  }

  lemma StarMatches(key: seq<string>)
    ensures Matches(["*"], key) <==> |key| == 1
  {
    assert "*"[0] != "#"[0];
    assert ["*"][1..] == [];
    assert |key| == 1 ==> key[1..] == [];
  }

  /** The pattern `*` takes the keys of one word, and the pattern `#` every key. */
  lemma Wildcards(key: string)
    ensures TopicMatches("*", key) <==> |Words(key)| == 1
    ensures TopicMatches("#", key)
  {
    OneWord("*");
    OneWord("#");
    HashMatches(Words(key));
    StarMatches(Words(key));
  }

  lemma {:induction false} MatchesOnlyItself(pattern: seq<string>, key: seq<string>)
    requires "*" !in pattern && "#" !in pattern
    ensures Matches(pattern, key) <==> pattern == key
    decreases |pattern|
  {
    if pattern != [] && key != [] {
      MatchesOnlyItself(pattern[1..], key[1..]);
      if pattern[0] == key[0] && pattern[1..] == key[1..] {
        assert pattern == [pattern[0]] + pattern[1..] && key == [key[0]] + key[1..];
      }
    }
  }

  /** A pattern without wildcard words matches exactly the key that equals it. */
  lemma ExactTopic(pattern: string, key: string)
    requires WildcardFree(pattern)
    ensures TopicMatches(pattern, key) <==> pattern == key
  {
    MatchesOnlyItself(Words(pattern), Words(key));
    JoinWords(pattern);
    JoinWords(key);
  }
}
