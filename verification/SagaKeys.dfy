/** The string under which the in-memory repository files an instance. */
module SagaKeys {
  import opened Messages

  /** InMemorySagaStateRepository.BuildKey; `SagaKey` holds the full names of the types. */
  function BuildKey(k: SagaKey): string {
    k.correlationId + "|" + k.sagaType + "|" + (if k.sagaStateType.Some? then k.sagaStateType.value else "")
  }

  /** Full type names contain no bar and are not empty. */
  predicate HasTypeNames(k: SagaKey) {
    '|' !in k.sagaType && (k.sagaStateType.Some? ==> k.sagaStateType.value != "" && '|' !in k.sagaStateType.value)
  }

  /** The length of `s` up to and with its last bar. */
  function UpToBar(s: string): nat {
    if s == [] || s[|s| - 1] == '|' then |s| else UpToBar(s[..|s| - 1])
  }

  lemma {:induction false} UpToBarIs(a: string, x: string)
    requires '|' !in x
    ensures UpToBar(a + "|" + x) == |a| + 1
  {
    var s := a + "|" + x;
    if x != [] {
      assert s[..|s| - 1] == a + "|" + x[..|x| - 1];
      UpToBarIs(a, x[..|x| - 1]);
    }
  }

  lemma LastBar(a: string, x: string, b: string, y: string)
    requires a + "|" + x == b + "|" + y && '|' !in x && '|' !in y
    ensures a == b && x == y
  {
    UpToBarIs(a, x);
    UpToBarIs(b, y);
    var s := a + "|" + x;
    assert a == s[..|a|] && b == s[..|b|];
    assert x == s[|a| + 1..] && y == s[|b| + 1..];
  }

  /** Different sagas get different keys, whatever their correlation ids contain. */
  lemma BuildKeyInjective(k: SagaKey, l: SagaKey)
    requires HasTypeNames(k) && HasTypeNames(l)
    ensures BuildKey(k) == BuildKey(l) <==> k == l
  {
    if BuildKey(k) == BuildKey(l) {
      var x := if k.sagaStateType.Some? then k.sagaStateType.value else "";
      var y := if l.sagaStateType.Some? then l.sagaStateType.value else "";
      LastBar(k.correlationId + "|" + k.sagaType, x, l.correlationId + "|" + l.sagaType, y);
      LastBar(k.correlationId, k.sagaType, l.correlationId, l.sagaType);
    }
  }
}
