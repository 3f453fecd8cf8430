# Zillow listing scraper — a verified model of its sequential core

The scraper asks Zillow's search endpoint for one page of New York listings at
a time. A page's listings (`cat1.searchResults.listResults`) go onto an asyncio
queue as one batch. That batch is then drained into six-field records. The
loop moves on to the next page until a page fails.

This project models three parts of that core:

- the payload and response classification of `fetch_page`;
- the extraction of `fetch_data`, including its two-level exception handling;
- the `while True` loop of `main`.

The modules are:

- `json.dfy` (module `Json`): decoded JSON values. It also holds the few
  Python operations the scraper applies to them: truthiness, `dict.get`, and
  path lookup and update.
- `async_queue.dfy` (module `AsyncQueue`): the part of `asyncio.Queue` in use.
  It is a class with a FIFO `seq` of batches and the unfinished-task counter
  that `put` raises, `task_done` lowers and `join` waits on.
- `fetch_data.dfy` (module `FetchData`): `fetch_data` is an imperative method
  over the queue, and its `for` loop over the items is the method
  `ProjectItems`. Both are proved against the functions `Project`,
  `ExtractItems` and `ExtractBatch`, which state what one dequeued batch
  yields.
- `fetch_page.dfy` (module `FetchPage`): the request payload as a template with
  two slots. `ListResults` and `Classify` decide from the HTTP outcome what is
  enqueued. `fetch_page` is a method over the queue, proved against `Classify`.
- `scraper.dfy` (module `Scraper`): `main`'s paging loop as the method `Run`.
  It is proved against the function `Harvest`, which gives the run page by
  page. The lemmas about `Harvest` state where the loop stops and what it
  gathers.

HTTP is a parameter `send: Json -> Outcome`. It maps a request body to a raised
error, or to a status with a decoded or undecodable body.

A skipped `task_done` leaves a task unfinished. `queue.join()` then waits
forever, since nothing else calls `task_done`. The model records this as the
loop's stop reason `JoinBlocked`.

## Model

| member | source | states |
|---|---|---|
| Json.Truthy | fetch_page.py:104 | a value is falsy exactly when it is None, False, 0, a zero float, or an empty str, list or dict |
| Json.DictGet | fetch_page.py:102 | `.get` on a non-dict fails (AttributeError); on a dict it gives the value the key path `[key]` reaches, or the default when the key is absent |
| AsyncQueue.Queue.constructor | main.py:29 | a new queue holds no batch and no unfinished task |
| AsyncQueue.Queue.Empty | fetch_data.py:34 | true exactly when no batch is waiting |
| AsyncQueue.Queue.Put | fetch_page.py:105 | appends the batch at the tail and adds one unfinished task |
| AsyncQueue.Queue.Get | fetch_data.py:35 | returns the oldest batch and removes only it; the unfinished counter is unchanged |
| AsyncQueue.Queue.TaskDone | fetch_data.py:51 | succeeds exactly when a task is unfinished and then lowers the counter by one; otherwise it fails (ValueError) and changes nothing |
| AsyncQueue.Queue.Join | main.py:51 | returns exactly when no task is unfinished |
| FetchData.Project | fetch_data.py:37-45 | the record has exactly the six keys, each holding the item's value for that key, or None when the key is absent |
| FetchData.ExtractItems | fetch_data.py:35-50 | the loop completes iff every item is a dict; records are the projections of the items in order, as many as the items when it completes; otherwise the item after the last record is the non-dict one that stopped it |
| FetchData.ExtractBatch | fetch_data.py:35-59 | every record has the six keys; a list batch behaves as `ExtractItems`; any other batch gives no record and completes exactly when it is an empty str or dict |
| FetchData.ProjectItems | fetch_data.py:35-50 | the records built and whether the loop ran to its end are exactly what `ExtractItems` gives for the items |
| FetchData.MixedBatch | fetch_data.py:35-59 | a dict item followed by a non-dict gives that one record; in the other order it gives none; in both orders `task_done` is skipped |
| FetchData.FetchData | fetch_data.py:31-59 | an empty queue gives `[]` and the queue is unchanged; otherwise exactly the head batch is removed, the result is its extraction, and the counter drops by one exactly when the loop completed and a task was unfinished |
| FetchPage.Payload | fetch_page.py:33-71 | `searchQueryState.pagination.currentPage` holds the page number and `requestId` the request id |
| FetchPage.SetPaginationSlot | fetch_page.py:34-60 | writing the page slot inside `searchQueryState` changes that slot and nothing else there |
| FetchPage.SetPageSlot | fetch_page.py:57-58 | writing the page slot of the payload template changes that slot and nothing else |
| FetchPage.SetRequestIdSlot | fetch_page.py:69 | writing the request id slot changes that slot and nothing else |
| FetchPage.PayloadIsTemplate | fetch_page.py:33-71 | with both slots cleared, every payload is the same constant template; two payloads are equal iff their page numbers and request ids are |
| FetchPage.ListResults | fetch_page.py:102 | the `.get` chain raises exactly when it meets a non-dict; it yields a truthy value exactly when the strict path `cat1.searchResults.listResults` does, and then that value |
| FetchPage.Classify | fetch_page.py:89-125 | a batch is produced iff the status is 200, the body decodes and `listResults` is truthy; that batch is the `listResults` value |
| FetchPage.FetchPage | fetch_page.py:14-125 | returns True iff `Classify` gives a batch; then exactly that batch is appended and one task added; otherwise the queue and counter are unchanged |
| Scraper.PageResult | main.py:40-48 | a page yields something exactly when its response has status 200, decodes and has a truthy `listResults`; it is then the extraction of that `listResults` value, made of six-field records |
| Scraper.Harvest | main.py:38-55 | at least one fetch; the final page is the start page plus the fetches, less one when the last fetch failed |
| Scraper.HarvestStopsAtFirstFailure | main.py:38-55 | every page before the last fetched succeeded and was fully drained; the run stops on a failed fetch iff the last page failed, and otherwise on a page whose batch was not fully drained |
| Scraper.HarvestRunsToFirstFailure | main.py:38-55 | when k pages succeed fully and the next fails, the run makes exactly k + 1 fetches and stops on that page |
| Scraper.HarvestBoundIrrelevant | main.py:38 | the run does not depend on which failing page is named as the bound |
| Scraper.HarvestSixFields | main.py:47-48 | when every page's records have the six fields, so does everything the loop gathers |
| Scraper.FetchAndDrain | main.py:40-52 | fetched iff the page yields a batch; the records are that page's extraction; the join returns iff the extraction completed; the queue is then empty with one task left unfinished exactly when the join blocks |
| Scraper.Run | main.py:28-55 | the records, final page and stop reason are those of `Harvest` from page 1; the calls are (1, 3), (2, 4), … with one per fetch; `requestId == currentPage + 2` |

## Left out

- The aiohttp session, `session.put`, the URL, headers and cookies (fetch_page.py:73-91): network I/O. The whole exchange is the parameter `send`, whose result is an `Outcome`.
- `json.dumps` of the payload and `response.json()`: the payload is modelled as the JSON value before serialisation, and decoding as "decoded value or `ContentTypeError`/`ValueError`".
- asyncio scheduling (`create_task`, `await task`) and the blocking of `queue.join()`: the run is sequential. A join that would wait forever ends the model's loop with stop reason `JoinBlocked` instead of hanging.
- Logging, `logging.basicConfig`, `time.time()`, the pandas DataFrame, `print` and the commented-out CSV export (main.py:35, 57-69): side effects with no bearing on the state.
- `BACKOFF_INTERVALS` (fetch_page.py:12): declared and never used.
- Json.Truthy: floats are exact decimal mantissa/exponent pairs, both in the map bounds (fetch_page.py:37-40) and in decoded responses. Binary floating-point rounding is not modelled. So a decoded literal that Python rounds to `0.0` (such as `1e-400`) counts as truthy here, though Python treats it as falsy at `if start_point:` (fetch_page.py:104).
- Dict key order: records are maps, so the column order of the DataFrame is not modelled.
- FetchData.FetchData: the `current_page` argument is only used in log messages, so the method does not take it.
- Scraper.Run: requires a page (`bound + 1`) that ends the loop, either because `fetch_page` returns False or because its batch leaves a task unfinished and the join blocks. A run where every page succeeds and drains forever does not terminate in the source and is not modelled.
- Scraper.Run: `main`'s `except Exception` around `fetch_page` (main.py:41-43) is not modelled. `fetch_page` catches every `Exception` itself, so that handler is unreachable.
- FetchData.FetchData: the `except asyncio.QueueEmpty` handler (fetch_data.py:55-56) is unreachable and not modelled: `await queue.get()` waits and never raises it. The same holds for the inner `except TypeError` (fetch_data.py:47-50), because `.get` on a dict cannot raise it.
- AsyncQueue.Queue.Get: requires a non-empty queue. Its only caller checks `queue.empty()` first, and the waiting on an empty queue is not modelled.
- The code has no retry, no backoff, no bound on the queue, no worker pool and no cancellation, so the model has none either. A non-dict item ends its batch rather than being skipped, and `task_done` is then skipped (`FetchData.MixedBatch`).
