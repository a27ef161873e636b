/**
  The paginated source the engine is exercised with: a mock `/items`
  endpoint serving pages of consecutive integers (with the total in
  `count`), the `getNextPage` resolver that asks for the next page only
  while that page would be full, and the loop that drains the sequence
  into one list of items.
 */
module ItemsApi {
  import opened Wrappers
  import Iterator

  /** Page numbers the handler accepts: it rejects every page below 1. */
  type PageNumber = p: int | p > 0 witness 1

  /** The JSON body of one `/items` response. */
  datatype ItemsResponse = ItemsResponse(items: seq<int>, count: int)

  function Max(a: int, b: int): int { if a < b then b else a }

  function Min(a: int, b: int): int { if a < b then a else b }

  /** The `n` consecutive integers starting at `first`. */
  function Consecutive(first: int, n: nat): seq<int>
  {
    seq(n, i => first + i)
  }

  /** The items the handler puts on page `page`. An array created with a
      negative length is empty, hence the clamp at 0. */
  function PageItems(page: int, perPage: int): seq<int>
  {
    seq(Max(perPage, 0), i => perPage * (page - 1) + i + 1)
  }

  /** The mock `/items` handler: `None` for a rejected page number, else the
      page filled in place, item by item, with the total as `count`. */
  method HandleItems(total: int, page: int, perPage: int) returns (r: Option<ItemsResponse>)
    ensures r.None? <==> page <= 0
    ensures r.Some? ==> r.value.count == total && |r.value.items| == Max(perPage, 0)
    ensures r.Some? ==> forall i :: 0 <= i < |r.value.items| ==> r.value.items[i] == perPage * (page - 1) + i + 1
    ensures r.Some? ==> r.value.items == PageItems(page, perPage)
  {
    if page <= 0 {
      return None;
    }
    var items := new int[Max(perPage, 0)];
    var start := perPage * (page - 1);
    var i := 0;
    while i < perPage
      invariant 0 <= i <= items.Length
      invariant forall k :: 0 <= k < i ==> items[k] == start + k + 1
    {
      items[i] := start + i + 1;
      i := i + 1;
    }
    r := Some(ItemsResponse(items[..], total));
  }

  /** The response `listItems` returns for an accepted page: the handler's
      body, decoded. */
  function ListItems(total: int, perPage: int, page: PageNumber): ItemsResponse
  {
    ItemsResponse(PageItems(page, perPage), total)
  }

  /** `n * k <= c` exactly when `n` is at most the floor of `c / k`. */
  lemma FitsBelow(n: int, k: int, c: int)
    ensures k > 0 ==> (n * k <= c <==> n <= c / k)
  {
    if k > 0 {
      var q := c / k;
      assert c == q * k + c % k && 0 <= c % k < k;
      if n <= q {
        MulMonotone(n, q, k);
      } else {
        MulMonotone(q + 1, n, k);
        assert (q + 1) * k == q * k + k;
      }
    }
  }

  lemma MulMonotone(a: int, b: int, k: nat)
    requires a <= b
    ensures a * k <= b * k
  {
    var d := b - a;
    assert b * k == a * k + d * k;
  }

  /** The test's `getNextPage`: the page after `page` when that page is
      full within `count` items, else no more pages. */
  function GetNextPage(perPage: int, lastResponse: ItemsResponse, page: PageNumber): (next: Option<PageNumber>)
    ensures next.Some? ==> next.value == page + 1
    ensures perPage > 0 ==> (next.Some? <==> page + 1 <= lastResponse.count / perPage)
    ensures perPage <= 0 && lastResponse.count >= 0 ==> next.Some?
  {
    FitsBelow(page + 1, perPage, lastResponse.count);
    var nextPage := page + 1;
    if nextPage * perPage <= lastResponse.count then Some(nextPage) else None
  }

  /** The fetcher the test hands to the engine: `listItems` with the test's
      `total` and `perPage`. */
  function Fetcher(total: int, perPage: int): PageNumber -> ItemsResponse
  {
    (page: PageNumber) => ListItems(total, perPage, page)
  }

  /** The resolver handed to the engine. */
  function Resolver(perPage: int): (ItemsResponse, PageNumber) -> Option<PageNumber>
  {
    (lastResponse, page) => GetNextPage(perPage, lastResponse, page)
  }

  /** The last page fetched when starting from page 1: the last full page,
      but never less than the first page, which is always fetched. */
  function LastPage(total: int, perPage: int): PageNumber
    requires perPage > 0
  {
    Max(total / perPage, 1)
  }

  /** The items of the responses, in order: what the test's loop pushes. */
  function AllItems(chunks: seq<ItemsResponse>): seq<int>
  {
    if chunks == [] then [] else chunks[0].items + AllItems(chunks[1..])
  }

  lemma {:induction false} AllItemsAppend(chunks: seq<ItemsResponse>, chunk: ItemsResponse)
    ensures AllItems(chunks + [chunk]) == AllItems(chunks) + chunk.items
    decreases |chunks|
  {
    if chunks != [] {
      assert (chunks + [chunk])[1..] == chunks[1..] + [chunk];
      AllItemsAppend(chunks[1..], chunk);
    }
  }

  lemma ConsecutiveSplit(first: int, n: nat, m: nat)
    ensures Consecutive(first, n) + Consecutive(first + n, m) == Consecutive(first, n + m)
  {
  }

  /** The resolver continues from page `p` exactly while `p` is before the last page. */
  lemma ContinuesBeforeLastPage(total: int, perPage: int, p: PageNumber)
    requires perPage > 0
    ensures Iterator.Step(Fetcher(total, perPage), Resolver(perPage), p) ==
      if p < LastPage(total, perPage) then Some(p + 1) else None
  {
  }

  /** From a page `p` no later than the last one, the fetches use the pages
      `p, p + 1, ...` up to the last page, cut short after `pulls` pulls. */
  lemma {:induction false} RunTokens(total: int, perPage: int, p: PageNumber, pulls: nat)
    requires perPage > 0 && p <= LastPage(total, perPage)
    ensures Iterator.Tokens(Fetcher(total, perPage), Resolver(perPage), p, pulls) ==
      Consecutive(p, Min(LastPage(total, perPage) - p + 1, pulls))
    decreases pulls
  {
    if pulls > 0 {
      ContinuesBeforeLastPage(total, perPage, p);
      if p < LastPage(total, perPage) {
        RunTokens(total, perPage, p + 1, pulls - 1);
        ConsecutiveSplit(p, 1, Min(LastPage(total, perPage) - p, pulls - 1));
      }
    }
  }

  /** From a page `p` no later than the last one, the delivered items are
      consecutive integers: those of page `p` and every page after it up to
      the last page, with no gap and no repeat between pages. */
  lemma {:induction false} RunItems(total: int, perPage: int, p: PageNumber, pulls: nat)
    requires perPage > 0 && p <= LastPage(total, perPage)
    ensures AllItems(Iterator.Pages(Fetcher(total, perPage), Resolver(perPage), p, pulls)) ==
      Consecutive(perPage * (p - 1) + 1, perPage * Min(LastPage(total, perPage) - p + 1, pulls))
    decreases pulls
  {
    var pages := Iterator.Pages(Fetcher(total, perPage), Resolver(perPage), p, pulls);
    if pulls > 0 {
      ContinuesBeforeLastPage(total, perPage, p);
      var first := perPage * (p - 1) + 1;
      var response := ListItems(total, perPage, p);
      assert response.items == Consecutive(first, perPage);
      if p < LastPage(total, perPage) {
        var next: PageNumber := p + 1;
        var rest := Iterator.Pages(Fetcher(total, perPage), Resolver(perPage), next, pulls - 1);
        assert pages == [response] + rest;
        assert pages[1..] == rest;
        RunItems(total, perPage, next, pulls - 1);
        PageThenRest(perPage, p, Min(LastPage(total, perPage) - p, pulls - 1));
      } else {
        assert pages == [response];
      }
    }
  }

  /** The items of page `p` followed by those of `n` further pages are the
      items of `n + 1` pages from page `p`. */
  lemma PageThenRest(perPage: nat, p: int, n: nat)
    ensures Consecutive(perPage * (p - 1) + 1, perPage) + Consecutive(perPage * (p + 1 - 1) + 1, perPage * n)
      == Consecutive(perPage * (p - 1) + 1, perPage * (n + 1))
  {
    assert perPage * (p + 1 - 1) + 1 == perPage * (p - 1) + 1 + perPage;
    assert perPage + perPage * n == perPage * (n + 1);
    ConsecutiveSplit(perPage * (p - 1) + 1, perPage, perPage * n);
  }

  /** Starting from page 1, `pulls` pulls deliver the pages 1 up to the last
      page (or fewer, if the consumer stops early), and their items are the
      integers from 1 on, `perPage` per page. */
  lemma ItemsRun(total: int, perPage: int, pulls: nat)
    requires perPage > 0
    ensures Iterator.Tokens(Fetcher(total, perPage), Resolver(perPage), 1, pulls) ==
      Consecutive(1, Min(LastPage(total, perPage), pulls))
    ensures |Iterator.Pages(Fetcher(total, perPage), Resolver(perPage), 1, pulls)| == Min(LastPage(total, perPage), pulls)
    ensures AllItems(Iterator.Pages(Fetcher(total, perPage), Resolver(perPage), 1, pulls)) ==
      Consecutive(1, perPage * Min(LastPage(total, perPage), pulls))
  {
    RunTokens(total, perPage, 1, pulls);
    RunItems(total, perPage, 1, pulls);
    Iterator.PagesAreFetchedTokens(Fetcher(total, perPage), Resolver(perPage), 1, pulls);
  }

  /** The resolver stops after the last full page: a `total` above `perPage`
      that is not a multiple of it gives floor(total/perPage) pages, so the
      partial last page is never fetched, and a `total` below `perPage`
      gives one page that still holds `perPage` items. */
  lemma DroppedTail(total: int, perPage: int, pulls: nat)
    requires perPage > 0 && pulls > LastPage(total, perPage)
    ensures perPage <= total ==>
      |AllItems(Iterator.Pages(Fetcher(total, perPage), Resolver(perPage), 1, pulls))| == total - total % perPage
    ensures total < perPage ==>
      |AllItems(Iterator.Pages(Fetcher(total, perPage), Resolver(perPage), 1, pulls))| == perPage
  {
    ItemsRun(total, perPage, pulls);
    var last := LastPage(total, perPage);
    assert |AllItems(Iterator.Pages(Fetcher(total, perPage), Resolver(perPage), 1, pulls))| == perPage * last;
    FitsBelow(1, perPage, total);
    if perPage <= total {
      assert last == total / perPage;
      assert total == perPage * (total / perPage) + total % perPage;
    } else {
      assert last == 1;
    }
  }

  /** The numbers of the test: 20 items in pages of 5 from page 1 come as
      four pages, pages 1 to 4, holding 1 to 20. */
  lemma TwentyItemsInFourPages(pulls: nat)
    requires pulls >= 4
    ensures Iterator.Tokens(Fetcher(20, 5), Resolver(5), 1, pulls) == [1, 2, 3, 4]
    ensures |Iterator.Pages(Fetcher(20, 5), Resolver(5), 1, pulls)| == 4
    ensures AllItems(Iterator.Pages(Fetcher(20, 5), Resolver(5), 1, pulls)) == Consecutive(1, 20)
  {
    assert LastPage(20, 5) == 4;
    ItemsRun(20, 5, pulls);
  }

  /** Without a positive page size the sequence never ends: for a total of
      at least 0 every pull fetches, so the test's loop would not stop. */
  lemma {:induction false} EndlessWithoutPageSize(total: int, perPage: int, pulls: nat)
    requires perPage <= 0 <= total
    ensures |Iterator.Tokens(Fetcher(total, perPage), Resolver(perPage), 1, pulls)| == pulls
  {
    forall q: PageNumber
      ensures Iterator.Step(Fetcher(total, perPage), Resolver(perPage), q).Some?
    {
      assert GetNextPage(perPage, ListItems(total, perPage, q), q).Some?;
    }
    Iterator.NeverEnds(Fetcher(total, perPage), Resolver(perPage), 1, pulls);
  }

  /** The test's consumer: a fresh sequence from page 1, pulled until it
      ends, each page's items pushed onto one list. */
  method CollectItems(total: int, perPage: int) returns (allItems: seq<int>)
    requires perPage > 0
    ensures allItems == Consecutive(1, perPage * LastPage(total, perPage))
  {
    var iterable := new Iterator.PageIterator(Fetcher(total, perPage), Iterator.IterableOptions(1, Resolver(perPage)));
    allItems := [];
    var chunk := iterable.Advance();
    ItemsRun(total, perPage, iterable.pulls);
    while chunk.Some?
      invariant iterable.Valid()
      invariant iterable.fetch == Fetcher(total, perPage) && iterable.getNextPage == Resolver(perPage)
      invariant iterable.initialPage == 1
      invariant iterable.yielded == Iterator.Pages(Fetcher(total, perPage), Resolver(perPage), 1, iterable.pulls)
      invariant |iterable.yielded| <= LastPage(total, perPage)
      invariant chunk.Some? ==> allItems + chunk.value.items == AllItems(iterable.yielded)
      invariant chunk.None? ==> allItems == AllItems(iterable.yielded) && |iterable.yielded| < iterable.pulls
      decreases LastPage(total, perPage) - |iterable.yielded| + if chunk.Some? then 1 else 0
    {
      allItems := allItems + chunk.value.items;
      ghost var before := iterable.yielded;
      chunk := iterable.Advance();
      ItemsRun(total, perPage, iterable.pulls);
      if chunk.Some? {
        AllItemsAppend(before, chunk.value);
      }
    }
    ItemsRun(total, perPage, iterable.pulls);
  }

  /** The test `iterable`: 20 items in pages of 5 are all collected, from 1
      to 20. */
  method IterableTest() returns (allItems: seq<int>)
    ensures |allItems| == 20 && allItems[0] == 1 && allItems[|allItems| - 1] == 20
  {
    var total := 20;
    var perPage := 5;
    allItems := CollectItems(total, perPage);
    assert LastPage(total, perPage) == 4;
  }
}
