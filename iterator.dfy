/**
  The pagination engine `toIterable`: given a page fetcher and a next-page
  resolver, it produces the page responses one pull at a time.

  The fetcher is a total function `Page -> Res` (the `await` is only a
  suspension point), and the resolver maps the last response and the page
  that produced it to `Some(next page)` or `None` (for `null`/`undefined`).
  The pure functions `Tokens` and `Pages` say what the first `pulls` pulls
  fetch; the class `PageIterator` is the generator itself and is proved to
  agree with them.
 */
module Iterator {
  import opened Wrappers

  /** The resolver's answer for the page fetched with cursor `p`. */
  function Step<Page, Res>(fetch: Page -> Res, getNextPage: (Res, Page) -> Option<Page>, p: Page): Option<Page>
  {
    getNextPage(fetch(p), p)
  }

  /** The cursor of the fetch numbered `k` (from 0), starting at `p`: the
      resolver applied `k` times, or `None` when it gave up before. */
  function NthPage<Page, Res>(fetch: Page -> Res, getNextPage: (Res, Page) -> Option<Page>, p: Page, k: nat): Option<Page>
    decreases k
  {
    if k == 0 then Some(p)
    else match Step(fetch, getNextPage, p)
      case None => None
      case Some(q) => NthPage(fetch, getNextPage, q, k - 1)
  }

  /** The cursors handed to the fetcher during the first `pulls` pulls of a
      sequence that starts at `p`. */
  function Tokens<Page, Res>(fetch: Page -> Res, getNextPage: (Res, Page) -> Option<Page>, p: Page, pulls: nat): (ts: seq<Page>)
    ensures |ts| <= pulls
    ensures pulls > 0 ==> |ts| > 0 && ts[0] == p
    decreases pulls
  {
    if pulls == 0 then []
    else match Step(fetch, getNextPage, p)
      case None => [p]
      case Some(q) => [p] + Tokens(fetch, getNextPage, q, pulls - 1)
  }

  /** The responses delivered by the first `pulls` pulls of a sequence that
      starts at `p`: fetch, resolve, deliver, then stop or move the cursor. */
  function Pages<Page, Res>(fetch: Page -> Res, getNextPage: (Res, Page) -> Option<Page>, p: Page, pulls: nat): (rs: seq<Res>)
    ensures |rs| <= pulls
    ensures pulls > 0 ==> |rs| > 0 && rs[0] == fetch(p)
    decreases pulls
  {
    if pulls == 0 then []
    else
      var response := fetch(p);
      match getNextPage(response, p)
      case None => [response]
      case Some(q) => [response] + Pages(fetch, getNextPage, q, pulls - 1)
  }

  /** Exactly one fetch per delivered response: the i-th response is the
      fetcher applied to the i-th cursor. */
  lemma {:induction false} PagesAreFetchedTokens<Page, Res>(fetch: Page -> Res, getNextPage: (Res, Page) -> Option<Page>, p: Page, pulls: nat)
    ensures |Pages(fetch, getNextPage, p, pulls)| == |Tokens(fetch, getNextPage, p, pulls)|
    ensures forall i :: 0 <= i < |Pages(fetch, getNextPage, p, pulls)| ==>
      Pages(fetch, getNextPage, p, pulls)[i] == fetch(Tokens(fetch, getNextPage, p, pulls)[i])
    decreases pulls
  {
    if pulls > 0 {
      match Step(fetch, getNextPage, p)
      case None =>
      case Some(q) =>
        PagesAreFetchedTokens(fetch, getNextPage, q, pulls - 1);
    }
  }

  /** The first fetch uses the initial page and fetch `i` uses the page
      obtained by resolving `i` times; fetch `i` happens within `pulls` pulls
      exactly when `i < pulls` and the resolver has not yet given up. */
  lemma {:induction false} TokensAreNthPages<Page, Res>(fetch: Page -> Res, getNextPage: (Res, Page) -> Option<Page>, p: Page, pulls: nat, i: nat)
    ensures i < |Tokens(fetch, getNextPage, p, pulls)| <==> i < pulls && NthPage(fetch, getNextPage, p, i).Some?
    ensures i < |Tokens(fetch, getNextPage, p, pulls)| ==>
      NthPage(fetch, getNextPage, p, i) == Some(Tokens(fetch, getNextPage, p, pulls)[i])
    decreases pulls
  {
    if pulls > 0 && i > 0 {
      match Step(fetch, getNextPage, p)
      case None =>
      case Some(q) =>
        TokensAreNthPages(fetch, getNextPage, q, pulls - 1, i - 1);
    }
  }

  /** One more pull after `n` full pulls fetches once more, and extends the
      cursors by the resolver's answer for the last page unless it was `None`. */
  lemma {:induction false} TokensGrow<Page, Res>(fetch: Page -> Res, getNextPage: (Res, Page) -> Option<Page>, p: Page, n: nat)
    requires 0 < n == |Tokens(fetch, getNextPage, p, n)|
    ensures var last := Tokens(fetch, getNextPage, p, n)[n - 1];
      Step(fetch, getNextPage, last).None? ==> Tokens(fetch, getNextPage, p, n + 1) == Tokens(fetch, getNextPage, p, n)
    ensures var last := Tokens(fetch, getNextPage, p, n)[n - 1];
      Step(fetch, getNextPage, last).Some? ==>
        Tokens(fetch, getNextPage, p, n + 1) == Tokens(fetch, getNextPage, p, n) + [Step(fetch, getNextPage, last).value]
    decreases n
  {
    if n > 1 {
      match Step(fetch, getNextPage, p)
      case None =>
      case Some(q) =>
        TokensGrow(fetch, getNextPage, q, n - 1);
    }
  }

  /** Once a pull has come back empty the sequence has ended: no further pull
      ever fetches again. */
  lemma {:induction false} TokensStop<Page, Res>(fetch: Page -> Res, getNextPage: (Res, Page) -> Option<Page>, p: Page, n: nat, m: nat)
    requires |Tokens(fetch, getNextPage, p, n)| < n <= m
    ensures Tokens(fetch, getNextPage, p, m) == Tokens(fetch, getNextPage, p, n)
    decreases n
  {
    match Step(fetch, getNextPage, p)
    case None =>
    case Some(q) =>
      TokensStop(fetch, getNextPage, q, n - 1, m - 1);
  }

  /** A pull after the sequence ended, or after the resolver answered `None`
      for the last page fetched, fetches nothing. */
  lemma NoFetchAfterEnd<Page, Res>(fetch: Page -> Res, getNextPage: (Res, Page) -> Option<Page>, p: Page, n: nat)
    requires var ts := Tokens(fetch, getNextPage, p, n);
      0 < |ts| && (|ts| < n || Step(fetch, getNextPage, ts[|ts| - 1]).None?)
    ensures Tokens(fetch, getNextPage, p, n + 1) == Tokens(fetch, getNextPage, p, n)
  {
    if |Tokens(fetch, getNextPage, p, n)| < n {
      TokensStop(fetch, getNextPage, p, n, n + 1);
    } else {
      TokensGrow(fetch, getNextPage, p, n);
    }
  }

  /** A resolver that never answers `None` makes the sequence unbounded:
      every pull fetches. */
  lemma {:induction false} NeverEnds<Page, Res>(fetch: Page -> Res, getNextPage: (Res, Page) -> Option<Page>, p: Page, pulls: nat)
    requires forall q :: Step(fetch, getNextPage, q).Some?
    ensures |Tokens(fetch, getNextPage, p, pulls)| == pulls
    decreases pulls
  {
    if pulls > 0 {
      NeverEnds(fetch, getNextPage, Step(fetch, getNextPage, p).value, pulls - 1);
    }
  }

  /** The engine has no cap of its own: the sequence is finite when a measure
      on pages drops with every page the resolver answers, and then no more
      than `measure(p) + 1` fetches ever happen. */
  lemma {:induction false} EndsWithinMeasure<Page, Res>(fetch: Page -> Res, getNextPage: (Res, Page) -> Option<Page>, measure: Page -> nat, p: Page, pulls: nat)
    requires forall q :: Step(fetch, getNextPage, q).Some? ==> measure(Step(fetch, getNextPage, q).value) < measure(q)
    ensures |Tokens(fetch, getNextPage, p, pulls)| <= measure(p) + 1
    decreases pulls
  {
    if pulls > 0 {
      match Step(fetch, getNextPage, p)
      case None =>
      case Some(q) =>
        EndsWithinMeasure(fetch, getNextPage, measure, q, pulls - 1);
    }
  }

  /** The responses fetched with the cursors `ts`, in order. */
  function Fetches<Page, Res>(fetch: Page -> Res, ts: seq<Page>): (rs: seq<Res>)
    ensures |rs| == |ts|
  {
    if ts == [] then [] else Fetches(fetch, ts[..|ts| - 1]) + [fetch(ts[|ts| - 1])]
  }

  /** The resolver calls made for the cursors `ts`, in order: each with the
      response fetched with that cursor and the cursor itself. */
  function ResolverCalls<Page, Res>(fetch: Page -> Res, ts: seq<Page>): (cs: seq<(Res, Page)>)
    ensures |cs| == |ts|
  {
    if ts == [] then [] else ResolverCalls(fetch, ts[..|ts| - 1]) + [(fetch(ts[|ts| - 1]), ts[|ts| - 1])]
  }

  /** Fetching with one more cursor adds one response and one resolver call. */
  lemma LogsGrow<Page, Res>(fetch: Page -> Res, ts: seq<Page>, t: Page)
    ensures Fetches(fetch, ts + [t]) == Fetches(fetch, ts) + [fetch(t)]
    ensures ResolverCalls(fetch, ts + [t]) == ResolverCalls(fetch, ts) + [(fetch(t), t)]
  {
    assert (ts + [t])[..|ts|] == ts;
  }

  /** Entry `i` of `Fetches(fetch, ts)` is the response for cursor `ts[i]`. */
  lemma {:induction false} FetchesAt<Page, Res>(fetch: Page -> Res, ts: seq<Page>, i: nat)
    requires i < |ts|
    ensures Fetches(fetch, ts)[i] == fetch(ts[i])
    decreases |ts|
  {
    if i < |ts| - 1 {
      FetchesAt(fetch, ts[..|ts| - 1], i);
    }
  }

  /** The delivered pages are exactly the fetcher applied to the cursors, in
      order: fetching and delivering never get out of step. */
  lemma FetchesArePages<Page, Res>(fetch: Page -> Res, getNextPage: (Res, Page) -> Option<Page>, p: Page, pulls: nat)
    ensures Fetches(fetch, Tokens(fetch, getNextPage, p, pulls)) == Pages(fetch, getNextPage, p, pulls)
  {
    var ts := Tokens(fetch, getNextPage, p, pulls);
    PagesAreFetchedTokens(fetch, getNextPage, p, pulls);
    forall i | 0 <= i < |ts|
      ensures Fetches(fetch, ts)[i] == Pages(fetch, getNextPage, p, pulls)[i]
    {
      FetchesAt(fetch, ts, i);
    }
  }

  /** The two callbacks and the start page passed to `toIterable`. */
  datatype IterableOptions<!Page, !Res> = IterableOptions(initialPage: Page, getNextPage: (Res, Page) -> Option<Page>)

  /** Where the generator's body is: not yet entered, paused at its `yield`,
      or past its `break`. */
  datatype Phase = Created | SuspendedAtYield | Completed

  /** The async generator returned by `toIterable`. */
  class PageIterator<Page, Res> {
    const fetch: Page -> Res
    const getNextPage: (Res, Page) -> Option<Page>
    ghost const initialPage: Page

    /** The cursor `page` and the `nextPage` answer kept across the `yield`. */
    var page: Page
    var nextPage: Option<Page>
    var phase: Phase

    /** Number of pulls so far, and logs of the callback calls and yields. */
    ghost var pulls: nat
    ghost var fetched: seq<Page>
    ghost var resolved: seq<(Res, Page)>
    ghost var yielded: seq<Res>

    ghost predicate Valid()
      reads this
    {
      fetched == Tokens(fetch, getNextPage, initialPage, pulls) &&
      resolved == ResolverCalls(fetch, fetched) && yielded == Fetches(fetch, fetched) &&
      (phase == Created <==> pulls == 0) &&
      (phase == Completed <==> |fetched| < pulls) &&
      (phase == Created ==> page == initialPage) &&
      (phase != Created ==>
         |fetched| > 0 && page == fetched[|fetched| - 1] &&
         nextPage == Step(fetch, getNextPage, page))
    }

    /** `toIterable(func, options)`: nothing is fetched until the first pull. */
    constructor (func: Page -> Res, options: IterableOptions<Page, Res>)
      ensures Valid()
      ensures fetch == func && getNextPage == options.getNextPage && initialPage == options.initialPage
      ensures phase == Created && page == options.initialPage
      ensures pulls == 0 && fetched == [] && resolved == [] && yielded == []
    {
      fetch := func;
      getNextPage := options.getNextPage;
      initialPage := options.initialPage;
      page := options.initialPage;
      nextPage := None;
      phase := Created;
      pulls := 0;
      fetched := [];
      resolved := [];
      yielded := [];
    }

    /** The body of the generator's loop up to its `yield`: fetch with the
        cursor, ask the resolver with that response and cursor, keep its
        answer, and pause. `page` must be the cursor the specification
        fetches next. */
    method FetchResolveYield() returns (response: Res)
      requires fetched == Tokens(fetch, getNextPage, initialPage, pulls) && |fetched| == pulls
      requires resolved == ResolverCalls(fetch, fetched) && yielded == Fetches(fetch, fetched)
      requires Tokens(fetch, getNextPage, initialPage, pulls + 1) == fetched + [page]
      modifies this
      ensures Valid()
      ensures phase == SuspendedAtYield && page == old(page) && pulls == old(pulls) + 1
      ensures response == fetch(page) && fetched == old(fetched) + [page]
      ensures resolved == old(resolved) + [(response, page)] && yielded == old(yielded) + [response]
      ensures yielded == Pages(fetch, getNextPage, initialPage, pulls)
    {
      LogsGrow(fetch, fetched, page);
      FetchesArePages(fetch, getNextPage, initialPage, pulls + 1);
      response := fetch(page);
      fetched := fetched + [page];
      nextPage := getNextPage(response, page);
      resolved := resolved + [(response, page)];
      yielded := yielded + [response];
      phase := SuspendedAtYield;
      pulls := pulls + 1;
    }

    /** A pull that finds the sequence over: the generator leaves its loop
        (or has already left it) without calling either callback. */
    method Finish()
      requires Valid()
      requires phase == Completed || (phase == SuspendedAtYield && nextPage.None?)
      modifies this
      ensures Valid()
      ensures phase == Completed && pulls == old(pulls) + 1
      ensures page == old(page) && fetched == old(fetched) && resolved == old(resolved) && yielded == old(yielded)
      ensures yielded == Pages(fetch, getNextPage, initialPage, pulls)
    {
      NoFetchAfterEnd(fetch, getNextPage, initialPage, pulls);
      FetchesArePages(fetch, getNextPage, initialPage, pulls + 1);
      phase := Completed;
      pulls := pulls + 1;
    }

    /** One pull of the generator: `Some(response)` for an element, `None`
        for the end of the sequence. */
    method Advance() returns (r: Option<Res>)
      requires Valid()
      modifies this
      ensures Valid()
      ensures pulls == old(pulls) + 1
      ensures yielded == Pages(fetch, getNextPage, initialPage, pulls)
      ensures r.Some? ==>
        r.value == fetch(page) && fetched == old(fetched) + [page] &&
        resolved == old(resolved) + [(r.value, page)] && yielded == old(yielded) + [r.value]
      ensures r.None? ==>
        fetched == old(fetched) && resolved == old(resolved) && yielded == old(yielded) && phase == Completed
      ensures old(phase) == Created ==> r.Some? && page == initialPage
      ensures old(phase) == SuspendedAtYield ==> (r.Some? <==> old(nextPage).Some?)
      ensures old(phase) == Completed ==> r.None?
      ensures page == if old(phase) == SuspendedAtYield && old(nextPage).Some? then old(nextPage).value else old(page)
    {
      if phase == Completed {
        Finish();
        return None;
      }
      if phase == SuspendedAtYield {
        // resumed after the yield: stop on a missing next page, else move the cursor
        if nextPage.None? {
          Finish();
          return None;
        }
        TokensGrow(fetch, getNextPage, initialPage, pulls);
        page := nextPage.value;
      }
      var response := FetchResolveYield();
      r := Some(response);
    }
  }
}
