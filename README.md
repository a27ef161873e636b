# Paginated response iterator, in Dafny

This project models `toIterable`, a small engine that turns a paginated data
source into one lazy sequence of page responses. The caller supplies two
callbacks:

- a fetcher, which gets one page for a page token;
- a resolver (`getNextPage`), which looks at the last response and the token
  that produced it and returns the next token, or `null`/`undefined` for "no
  more pages".

Each pull of the sequence fetches once with the current cursor, asks the
resolver, and yields the response. On the next pull the generator resumes
after its `yield`. It stops there if the resolver's answer was empty, and
otherwise moves the cursor to the answer and fetches again.

The project also models the concrete source the repository's test uses:

- a mock `/items` handler that serves pages of consecutive integers;
- a resolver that continues while the next page would be full;
- the loop that collects every item;
- the test's own numbers (20 items in pages of 5).

Files:

- `wrappers.dfy`: `Option`. Its `None` stands for both `null` and `undefined`.
- `iterator.dfy` (module `Iterator`): the engine. The pure functions `Tokens`
  and `Pages` give the cursors fetched and the responses delivered by the first
  `pulls` pulls. Lemmas about them cover order, the one-to-one match between
  fetches and deliveries, termination and the end state. The class
  `PageIterator` is the generator. Its fields are the cursor `page`, the
  resolver answer `nextPage` kept across the `yield`, and a `phase`: created,
  suspended at the `yield`, or completed. Ghost logs record every fetch,
  resolver call and yield, and the class is proved to agree with `Tokens` and
  `Pages` on every pull.
- `items_api.dfy` (module `ItemsApi`): the test's data source and resolver, its
  consumer loop, and the test's assertions.

## Model

`ItemsApi.ListItems`, `ItemsApi.Fetcher` and `ItemsApi.Resolver` are adapters with no contract of their own. `ListItems` is the decoded response of `listItems` (iterator.test.ts:62-78). `Fetcher` and `Resolver` are the two callbacks the test hands to `toIterable` (iterator.test.ts:84 and 86). What they do is stated by `HandleItems`, `GetNextPage` and the run lemmas below.

| member | source | states |
|---|---|---|
| `Iterator.Tokens` | iterator.ts:14-25 | within `pulls` pulls the fetcher is called at most `pulls` times, and the first call uses the initial page |
| `Iterator.Pages` | iterator.ts:15-25 | within `pulls` pulls at most `pulls` responses are delivered; the first is the response for the initial page; a response is still delivered when the resolver says no more pages |
| `Iterator.PagesAreFetchedTokens` | iterator.ts:16-19 | exactly one delivered response per fetch: there are as many responses as fetches, and response i is the fetcher applied to cursor i |
| `Iterator.FetchesArePages` | iterator.ts:16-19 | the delivered sequence is exactly the fetcher mapped over the cursors, in order |
| `Iterator.TokensAreNthPages` | iterator.ts:14-25 | fetch i uses the page reached by applying the resolver i times to the initial page; fetch i happens within `pulls` pulls if and only if i < `pulls` and the resolver has not said stop before it |
| `Iterator.TokensGrow` | iterator.ts:21-25 | after n pulls that all fetched, the next pull fetches with the resolver's answer for the last page, or fetches nothing if that answer was empty |
| `Iterator.TokensStop` | iterator.ts:21-22 | once a pull has fetched nothing, no later pull fetches again (the end state is final) |
| `Iterator.NoFetchAfterEnd` | iterator.ts:17-22 | a pull that comes after an empty resolver answer, or after the end, fetches nothing |
| `Iterator.NeverEnds` | iterator.ts:15 | if the resolver never returns the sentinel, every pull fetches: the engine has no cap |
| `Iterator.EndsWithinMeasure` | iterator.ts:15-25 | if some measure on pages drops with every page the resolver returns, there are at most measure(initial page) + 1 fetches, whatever the number of pulls |
| `Iterator.PageIterator.constructor` | iterator.ts:13-14 | creating the sequence performs no fetch and no resolver call; the cursor starts at `initialPage` |
| `Iterator.PageIterator.FetchResolveYield` | iterator.ts:16-19 | one fetch with the current cursor, then one resolver call with that response and that cursor; the answer is kept and the response is returned; the cursor does not move |
| `Iterator.PageIterator.Finish` | iterator.ts:21-22 | the pull that ends the sequence, and every pull after it, calls neither callback and leaves the cursor alone |
| `Iterator.PageIterator.Advance` | iterator.ts:15-26 | each pull keeps the logs equal to `Tokens`/`Pages` for the pulls made so far. The first pull fetches `initialPage`. A later pull fetches once, with the previous resolver answer as the new cursor, if that answer was present; otherwise it ends the sequence without fetching. After the end every pull returns nothing. The cursor only ever changes to a non-empty resolver answer |
| `ItemsApi.HandleItems` | iterator.test.ts:29-42 | page numbers below 1 are rejected. Otherwise the page has exactly `perPage` items (none for a negative `perPage`), item i is `perPage*(page-1)+i+1`, and `count` is the total. This is the page the engine's fetcher returns |
| `ItemsApi.GetNextPage` | iterator.test.ts:86-93 | returns `page + 1` when it returns anything; for a positive `perPage` it continues if and only if `page + 1` is at most floor(`count`/`perPage`), i.e. the next page is full; for `perPage <= 0` and a non-negative `count` it always continues |
| `ItemsApi.ContinuesBeforeLastPage` | iterator.test.ts:84-93 | with this fetcher and resolver, the sequence continues from page p exactly while p is before the last page, max(1, floor(total/perPage)) |
| `ItemsApi.RunTokens` | iterator.test.ts:84-93 | from a page p, the fetches use p, p+1, … up to the last page, cut short by the number of pulls |
| `ItemsApi.RunItems` | iterator.test.ts:31-36 | from a page p, the delivered items are consecutive integers starting at `perPage*(p-1)+1`, `perPage` per page: pages follow each other with no gap and no repeat |
| `ItemsApi.ItemsRun` | iterator.test.ts:81-100 | from page 1, n pulls fetch pages 1 to min(last page, n), deliver that many responses, and their items are 1, 2, … , `perPage` times that many |
| `ItemsApi.DroppedTail` | iterator.test.ts:86-93 | once the sequence has ended, a total of at least `perPage` gives `total - total % perPage` items, so a partial last page is never fetched; a total below `perPage` still gives one full page of `perPage` items |
| `ItemsApi.TwentyItemsInFourPages` | iterator.test.ts:81-104 | with total 20, 5 per page and initial page 1, the pages fetched are 1, 2, 3, 4; four responses are delivered, and their items are 1 to 20 |
| `ItemsApi.EndlessWithoutPageSize` | iterator.test.ts:84-93 | with `perPage <= 0` and a total of at least 0, every pull from page 1 fetches: the sequence never ends |
| `ItemsApi.CollectItems` | iterator.test.ts:96-100 | draining a fresh sequence from page 1 and pushing each page's items gives exactly the integers 1 to `perPage` times the last page |
| `ItemsApi.IterableTest` | iterator.test.ts:80-105 | the test's assertions: 20 items collected, the first is 1, the last is 20 |

## Left out

- The async generator protocol and promises: the fetcher is a plain total function and each pull is a call of `Advance`. A consumer that stops early simply stops calling `Advance`. The generator's `return`/`throw` methods are not modelled.
- The fetcher and the resolver are mathematical functions, so calling one twice with the same arguments gives the same result. A JavaScript callback with side effects or changing answers is not captured. The ghost logs still record each call made.
- Exceptions: a fetcher that rejects, or a resolver that throws, is not modelled. If the resolver throws, no element is yielded for that step. With the test's data source, the handler's rejection of a page below 1 is `None` in `HandleItems`. The engine's fetcher there takes a `PageNumber` (an integer of at least 1), so that rejection cannot happen in a run from page 1.
- The `{page}` wrapper object (`PaginationOptions`) is collapsed into the page itself. The TypeScript generic types become Dafny type parameters.
- The mock server setup and lifecycle, the HTTP request in `listItems`, its status check and JSON decoding, and the query-string parsing are left out. `ListItems` is the decoded response the handler builds. JavaScript `Number` values are modelled as unbounded integers.
- ItemsApi.CollectItems: requires `perPage > 0`. With `perPage <= 0` and a non-negative total, the resolver never returns `null`, so the test's loop would not terminate; `EndlessWithoutPageSize` proves that every pull then fetches.
- A total above `perPage` that is not a multiple of it gives floor(total/perPage) pages, one fewer than ceil(total/perPage): the resolver continues only while the next page is full, so the partial last page is never fetched. A total below `perPage` gives one full page of `perPage` items, more than the total, because the handler never trims a page to the total. `DroppedTail` states the result.
- `IterableOptions` is an immutable value copied when the object is built. The source reads `options.initialPage` on the first pull and `options.getNextPage` on every pull, so a caller that changes `options` in the meantime is not captured.
