/**
 * The sequential "load every page" loop of the conversation service: request
 * pages 1, 2, ... and append what each brings until the accumulated count
 * reaches the total the last response reported, a request fails, or the page
 * cap is passed. Both loops of the service (conversations, cap 20; messages,
 * cap 100) have this shape.
 */
module Paging {
  import opened Sequences

  /** What one page request yields: the reported total and the page's items, or a failure. */
  datatype Fetched<T> = Got(total: int, items: seq<T>) | Failed

  function ItemsOf<T>(f: Fetched<T>): seq<T> {
    if f.Got? then f.items else []
  }

  /** The items of pages 1..k concatenated in page order. */
  function ItemsUpTo<T>(fetch: nat -> Fetched<T>, k: nat): seq<T>
  {
    if k == 0 then [] else ItemsUpTo(fetch, k - 1) + ItemsOf(fetch(k))
  }

  /** The loop leaves after requesting page `p`: the request failed, the
      accumulated count reached the reported total, or page `p + 1` is past the cap. */
  predicate Halts<T>(fetch: nat -> Fetched<T>, p: nat, maxPages: nat) {
    match fetch(p)
    case Failed => true
    case Got(total, _) => |ItemsUpTo(fetch, p)| >= total || p + 1 > maxPages
  }

  /** The first page, from `p` on, after which the loop leaves. */
  function StopPageFrom<T>(fetch: nat -> Fetched<T>, p: nat, maxPages: nat): nat
    requires 1 <= p
    requires p <= maxPages || p == 1
    decreases maxPages - p
  {
    if Halts(fetch, p, maxPages) then p else StopPageFrom(fetch, p + 1, maxPages)
  }

  /** The number of pages the loop requests. */
  function StopPage<T>(fetch: nat -> Fetched<T>, maxPages: nat): nat {
    StopPageFrom(fetch, 1, maxPages)
  }

  lemma {:induction false} StopPageFromIsFirstHalt<T>(fetch: nat -> Fetched<T>, p: nat, maxPages: nat)
    requires 1 <= p
    requires p <= maxPages || p == 1
    ensures var k := StopPageFrom(fetch, p, maxPages);
            p <= k <= (if maxPages < 1 then 1 else maxPages) &&
            Halts(fetch, k, maxPages) &&
            forall q :: p <= q < k ==> !Halts(fetch, q, maxPages)
    decreases maxPages - p
  {
    if !Halts(fetch, p, maxPages) {
      StopPageFromIsFirstHalt(fetch, p + 1, maxPages);
    }
  }

  /** The loop requests at least one and at most `max(1, maxPages)` pages; the last
      page it requests is the first one after which it must leave. */
  lemma StopPageIsFirstHalt<T>(fetch: nat -> Fetched<T>, maxPages: nat)
    ensures var k := StopPage(fetch, maxPages);
            1 <= k <= (if maxPages < 1 then 1 else maxPages) &&
            Halts(fetch, k, maxPages) &&
            forall q :: 1 <= q < k ==> !Halts(fetch, q, maxPages)
  {
    StopPageFromIsFirstHalt(fetch, 1, maxPages);
  }

  /** The loop leaves after page k because page k failed, its count reached the
      reported total, or the cap was reached; every earlier page succeeded below its total. */
  lemma StopConditions<T>(fetch: nat -> Fetched<T>, maxPages: nat)
    requires maxPages >= 1
    ensures var k := StopPage(fetch, maxPages);
            && 1 <= k <= maxPages
            && (k < maxPages ==> fetch(k).Failed? || |ItemsUpTo(fetch, k)| >= fetch(k).total)
            && forall q :: 1 <= q < k ==> fetch(q).Got? && |ItemsUpTo(fetch, q)| < fetch(q).total
  {
    StopPageIsFirstHalt(fetch, maxPages);
    var k := StopPage(fetch, maxPages);
    forall q | 1 <= q < k ensures fetch(q).Got? && |ItemsUpTo(fetch, q)| < fetch(q).total {
      assert !Halts(fetch, q, maxPages);
    }
  }

  /** Every page the loop requests before its last one succeeded, so the items it
      returns are exactly those of the successful pages, in page order. */
  lemma {:induction false} ItemsUpToBeforeStop<T>(fetch: nat -> Fetched<T>, maxPages: nat, q: nat)
    requires 1 <= q < StopPage(fetch, maxPages)
    ensures fetch(q).Got?
    ensures ItemsUpTo(fetch, q) == ItemsUpTo(fetch, q - 1) + fetch(q).items
  {
    StopPageIsFirstHalt(fetch, maxPages);
    assert !Halts(fetch, q, maxPages);
  }

  /** The loop itself. `requested` records the page numbers asked of the backend. */
  method CollectPages<T>(fetch: nat -> Fetched<T>, maxPages: nat)
    returns (items: seq<T>, ghost requested: seq<int>)
    ensures items == ItemsUpTo(fetch, StopPage(fetch, maxPages))
    ensures requested == PageRange(1, StopPage(fetch, maxPages))
  {
    items := [];
    requested := [];
    var currentPage: nat := 1;
    var hasMore := true;
    while hasMore
      invariant 1 <= currentPage && (currentPage <= maxPages || currentPage == 1)
      invariant hasMore ==> StopPageFrom(fetch, currentPage, maxPages) == StopPage(fetch, maxPages)
      invariant items == ItemsUpTo(fetch, currentPage - 1)
      invariant requested == PageRange(1, currentPage - 1)
      invariant !hasMore ==> StopPage(fetch, maxPages) == currentPage - 1
      decreases maxPages + 1 - currentPage
    {
      var response := fetch(currentPage);
      requested := requested + [currentPage];
      if response.Failed? {
        break;
      }
      items := items + response.items;
      hasMore := |items| < response.total;
      currentPage := currentPage + 1;
      if currentPage > maxPages {
        break;
      }
    }
  }
}
