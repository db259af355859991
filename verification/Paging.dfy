/** The paged saga query: filter, count, order by instance id, skip and take, with the program's 32-bit arithmetic. */
module Paging {
  import opened Messages

  const MAX_INT := 0x7fff_ffff

  /** Unchecked 32-bit arithmetic. */
  function Wrap(x: int): (r: int)
    ensures -MAX_INT - 1 <= r <= MAX_INT
    ensures -MAX_INT - 1 <= x <= MAX_INT ==> r == x
  {
    (x + 0x8000_0000) % 0x1_0000_0000 - 0x8000_0000
  }

  datatype Info = Info(instanceId: Id, sagaType: string, isCompleted: bool)

  datatype SagaQueryFilter = SagaQueryFilter(sagaType: Option<string>, isCompleted: Option<bool>, page: int,
                                             pageSize: int)

  datatype PagedResult = PagedResult(items: seq<Info>, totalCount: nat, page: int, pageSize: int)

  predicate Selected(filter: SagaQueryFilter, i: Info) {
    && (filter.sagaType.Some? ==> i.sagaType == filter.sagaType.value)
    && (filter.isCompleted.Some? ==> i.isCompleted == filter.isCompleted.value)
  }

  function Filtered(filter: SagaQueryFilter, store: seq<Info>): seq<Info> {
    if store == [] then []
    else (if Selected(filter, store[0]) then [store[0]] else []) + Filtered(filter, store[1..])
  }

  /** Skip and Take take a negative count for zero. */
  function Skip<T>(s: seq<T>, n: int): seq<T> {
    if n <= 0 then s else if n >= |s| then [] else s[n..]
  }

  function Take<T>(s: seq<T>, n: int): seq<T> {
    if n <= 0 then [] else if n >= |s| then s else s[..n]
  }

  function Page<T>(s: seq<T>, page: int, pageSize: int): seq<T> {
    Take(Skip(s, Wrap((page - 1) * pageSize)), pageSize)
  }

  function Insert(i: Info, s: seq<Info>): seq<Info> {
    if s == [] || i.instanceId <= s[0].instanceId then [i] + s else [s[0]] + Insert(i, s[1..])
  }

  function OrderById(s: seq<Info>): seq<Info> {
    if s == [] then [] else Insert(s[0], OrderById(s[1..]))
  }

  /** SqlSagaStateQuery.GetAllAsync; the in-memory query is the same without the order. */
  function GetAll(filter: SagaQueryFilter, store: seq<Info>): PagedResult {
    var query := Filtered(filter, store);
    PagedResult(Page(OrderById(query), filter.page, filter.pageSize), |query|, filter.page, filter.pageSize)
  }

  /** The endpoint's bounds; None is the bad request. */
  function GetAllEndpoint(filter: SagaQueryFilter, store: seq<Info>): Option<PagedResult> {
    if filter.page < 1 || filter.pageSize < 1 || filter.pageSize > 100 then None else Some(GetAll(filter, store))
  }

  // ----- Pages partition a sequence -----

  lemma Product(page: int, size: int)
    requires page >= 1 && size >= 1
    ensures (page - 1) * size >= 0 && page * size == (page - 1) * size + size
  {
  }

  lemma PageIs<T>(s: seq<T>, page: int, size: int)
    requires page >= 1 && size >= 1 && (page - 1) * size <= MAX_INT
    ensures (page - 1) * size >= 0 && page * size == (page - 1) * size + size
    ensures Page(s, page, size) == s[Min((page - 1) * size, |s|)..Min(page * size, |s|)]
  {
    Product(page, size);
    var n := (page - 1) * size;
    assert Wrap(n) == n;
    hide Wrap;
    if n < |s| {
      assert Skip(s, n) == s[n..];
    }
  }

  /** The pages 1 to `n`, one after the other. */
  function Pages<T>(s: seq<T>, n: nat, size: int): seq<T> {
    if n == 0 then [] else Pages(s, n - 1, size) + Page(s, n, size)
  }

  lemma Joined<T>(s: seq<T>, m: int, k: int)
    requires 0 <= m <= k
    ensures s[..Min(m, |s|)] + s[Min(m, |s|)..Min(k, |s|)] == s[..Min(k, |s|)]
  {
  }

  lemma {:induction false} PagesArePrefix<T>(s: seq<T>, n: nat, size: int)
    requires 1 <= size && |s| <= MAX_INT && (n >= 1 ==> (n - 1) * size <= MAX_INT)
    ensures n * size >= 0 && Pages(s, n, size) == s[..Min(n * size, |s|)]
  {
    if n > 0 {
      hide Page, Min;
      Product(n, size);
      if n > 1 {
        Product(n - 1, size);
      }
      PagesArePrefix(s, n - 1, size);
      PageIs(s, n, size);
      Joined(s, (n - 1) * size, n * size);
    }
  }

  function PageCount(total: nat, size: int): nat
    requires size >= 1
  {
    (total + size - 1) / size
  }

  lemma PageCountIs(total: nat, size: int)
    requires size >= 1
    ensures PageCount(total, size) * size >= total
    ensures PageCount(total, size) >= 1 ==> (PageCount(total, size) - 1) * size < total
  {
    var n := PageCount(total, size);
    assert n * size + (total + size - 1) % size == total + size - 1;
    if n >= 1 {
      Product(n, size);
    }
  }

  /** The pages up to the last, one after the other, are the sequence: no item is lost or repeated. */
  lemma PagesPartition<T>(s: seq<T>, size: int)
    requires 1 <= size && |s| <= MAX_INT
    ensures Pages(s, PageCount(|s|, size), size) == s
  {
    PageCountIs(|s|, size);
    PagesArePrefix(s, PageCount(|s|, size), size);
  }

  /** A page past the last is empty exactly when the wrapped offset is also past the end. */
  lemma LaterPageEmptyIff<T>(s: seq<T>, page: int, size: int)
    requires 1 <= size && page > PageCount(|s|, size) && s != []
    ensures Page(s, page, size) == [] <==> Wrap((page - 1) * size) >= |s|
    ensures (page - 1) * size <= MAX_INT ==> Page(s, page, size) == []
  {
    var n := (page - 1) * size;
    PageCountIs(|s|, size);
    Monotone(PageCount(|s|, size), page - 1, size);
    hide PageCount;
    var w := Wrap(n);
    assert n <= MAX_INT ==> w == n;
    hide Wrap;
    assert w < |s| ==> |Skip(s, w)| > 0;
  }

  lemma Monotone(a: nat, b: nat, size: int)
    requires a <= b && size >= 1
    ensures a * size <= b * size
  {
  }

  /** An offset that wraps around: this page, far past the last, repeats items of the first. */
  lemma OverflowRepeats<T>(s: seq<T>)
    requires 5 <= |s| <= 100
    ensures 42949674 > PageCount(|s|, 100) && Page(s, 42949674, 100) == s[4..]
  {
    assert Wrap(4294967300) == 4;
  }

  // ----- The query -----

  predicate Ordered(s: seq<Info>) {
    forall j, k | 0 <= j < k < |s| :: s[j].instanceId <= s[k].instanceId
  }

  lemma {:induction false} InsertAdds(i: Info, s: seq<Info>)
    ensures multiset(Insert(i, s)) == multiset{i} + multiset(s)
  {
    if s != [] && i.instanceId > s[0].instanceId {
      InsertAdds(i, s[1..]);
      assert s == [s[0]] + s[1..];
    }
  }

  lemma {:induction false} InsertOrders(i: Info, s: seq<Info>)
    requires Ordered(s)
    ensures Ordered(Insert(i, s)) && |Insert(i, s)| == |s| + 1
    ensures Insert(i, s)[0] == i || (s != [] && s[0].instanceId <= i.instanceId && Insert(i, s)[0] == s[0])
  {
    if s != [] && i.instanceId > s[0].instanceId {
      InsertOrders(i, s[1..]);
    }
  }

  lemma {:induction false} OrderByIdOrders(s: seq<Info>)
    ensures Ordered(OrderById(s)) && multiset(OrderById(s)) == multiset(s) && |OrderById(s)| == |s|
  {
    if s != [] {
      OrderByIdOrders(s[1..]);
      InsertOrders(s[0], OrderById(s[1..]));
      InsertAdds(s[0], OrderById(s[1..]));
      assert s == [s[0]] + s[1..];
    }
  }

  /** The filter keeps every selected item as often as it is stored, and nothing else. */
  lemma {:induction false} FilteredIs(filter: SagaQueryFilter, store: seq<Info>, i: Info)
    ensures multiset(Filtered(filter, store))[i] == if Selected(filter, i) then multiset(store)[i] else 0
  {
    if store != [] {
      FilteredIs(filter, store[1..], i);
      assert store == [store[0]] + store[1..];
    }
  }

  /** All the pages of a query, as the endpoint hands them out. */
  function AllPages(filter: SagaQueryFilter, store: seq<Info>, n: nat): seq<Info>
    requires 1 <= filter.pageSize <= 100
  {
    if n == 0 then [] else AllPages(filter, store, n - 1) + GetAllEndpoint(filter.(page := n), store).value.items
  }

  lemma {:induction false} AllPagesArePages(filter: SagaQueryFilter, store: seq<Info>, n: nat)
    requires 1 <= filter.pageSize <= 100
    ensures AllPages(filter, store, n) == Pages(OrderById(Filtered(filter, store)), n, filter.pageSize)
  {
    hide Filtered, OrderById, Page, GetAllEndpoint;
    var query := OrderById(Filtered(filter, store));
    if n > 0 {
      EndpointPage(filter, store, n);
      AllPagesArePages(filter, store, n - 1);
      assert Pages(query, n, filter.pageSize)
          == Pages(query, n - 1, filter.pageSize) + Page(query, n, filter.pageSize);
    }
  }

  lemma EndpointPage(filter: SagaQueryFilter, store: seq<Info>, n: nat)
    requires 1 <= filter.pageSize <= 100 && 1 <= n
    ensures var r := GetAllEndpoint(filter.(page := n), store);
            r.Some? && r.value.items == Page(OrderById(Filtered(filter, store)), n, filter.pageSize)
  {
    SamePages(filter, store, n);
    hide Filtered, OrderById, Page;
  }

  lemma {:induction false} SamePages(filter: SagaQueryFilter, store: seq<Info>, n: int)
    ensures Filtered(filter.(page := n), store) == Filtered(filter, store)
  {
    if store != [] {
      SamePages(filter, store[1..], n);
    }
  }

  /** Together the pages hold every selected saga exactly as often as it is stored, in the order of instance ids. */
  lemma QueryPartitions(filter: SagaQueryFilter, store: seq<Info>, i: Info)
    requires 1 <= filter.pageSize <= 100 && |store| <= MAX_INT
    ensures var total := GetAll(filter, store).totalCount;
            var pages := AllPages(filter, store, PageCount(total, filter.pageSize));
            && |pages| == total && Ordered(pages)
            && multiset(pages)[i]
               == if (filter.sagaType == None || filter.sagaType == Some(i.sagaType))
                    && (filter.isCompleted == None || filter.isCompleted == Some(i.isCompleted))
                  then multiset(store)[i] else 0
  {
    var query := Filtered(filter, store);
    OrderByIdOrders(query);
    FilteredIs(filter, store, i);
    FilteredShorter(filter, store);
    AllPagesArePages(filter, store, PageCount(|query|, filter.pageSize));
    PagesPartition(OrderById(query), filter.pageSize);
  }

  /** The endpoint answers exactly for a page from 1 on and a page size from 1 to 100, with at most that many items. */
  lemma EndpointAnswersIff(filter: SagaQueryFilter, store: seq<Info>)
    ensures var r := GetAllEndpoint(filter, store);
            && (r.Some? <==> 1 <= filter.page && 1 <= filter.pageSize <= 100)
            && (r.Some? ==> |r.value.items| <= filter.pageSize && r.value.page == filter.page)
  {
    hide Filtered, OrderById, Wrap, Skip;
  }

  lemma {:induction false} FilteredShorter(filter: SagaQueryFilter, store: seq<Info>)
    ensures |Filtered(filter, store)| <= |store|
  {
    if store != [] {
      FilteredShorter(filter, store[1..]);
    }
  }
}
