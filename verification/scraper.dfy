/** `main`: the paging loop. Each page is fetched onto the queue, drained into
    records, and the loop moves on to the next page until a page fails. */
module Scraper {
  import opened Json
  import opened AsyncQueue
  import opened FetchData
  import opened FetchPage

  /** Why the loop left off: a page whose fetch returned False, or a
      `queue.join()` that waits forever because `task_done` was skipped. */
  datatype Stop = NoResults | JoinBlocked

  /** The state the loop ends in: the records gathered, how many times
      `fetch_page` was called, the final `current_page`, and why it stopped. */
  datatype Harvested = Harvested(records: seq<Record>, fetches: nat, finalPage: int, stop: Stop)

  /** What one pass of the loop yields for a page: None when `fetch_page`
      returns False, otherwise what `fetch_data` makes of the enqueued batch.
      The request id sent with a page is always the page number plus two. */
  function PageResult(send: Json -> Outcome, page: int): (r: Option<Extraction>)
    ensures var o := send(Payload(page, page + 2));
            r.Some? <==>
              o.Responded? && o.status == 200 && o.body.Decoded? &&
              At(o.body.data, ListPath).Some? && Truthy(At(o.body.data, ListPath).value)
    ensures r.Some? ==>
              r.value == ExtractBatch(At(send(Payload(page, page + 2)).body.data, ListPath).value)
    ensures r.Some? ==> SixFieldRecords(r.value.records)
  {
    match Classify(send(Payload(page, page + 2)))
    case None => None
    case Some(batch) => Some(ExtractBatch(batch))
  }

  /** The run of the loop from `page` on, given what each page yields, where
      page `bound + 1` is known to end the loop, by failing or by leaving a
      task unfinished (any such page will do; the result does not depend on
      it). */
  function Harvest(pages: int -> Option<Extraction>, page: int, bound: int): (h: Harvested)
    requires page <= bound + 1
    requires pages(bound + 1).None? || !pages(bound + 1).value.completed
    decreases bound + 1 - page
    ensures h.fetches >= 1
    ensures h.finalPage == page + h.fetches - (if h.stop == NoResults then 1 else 0)
    ensures h.finalPage <= bound + 1 || (h.finalPage == bound + 2 && h.stop == JoinBlocked)
  {
    match pages(page)
    case None => Harvested([], 1, page, NoResults)
    case Some(e) =>
      if !e.completed then Harvested(e.records, 1, page + 1, JoinBlocked)
      else
        var rest := Harvest(pages, page + 1, bound);
        Harvested(e.records + rest.records, rest.fetches + 1, rest.finalPage, rest.stop)
  }

  /** Every page before the last one fetched succeeded and was fully drained;
      the last one is the first that failed, or the first whose batch held a
      non-dict item. No page after it is fetched. */
  lemma {:induction false} HarvestStopsAtFirstFailure(pages: int -> Option<Extraction>, page: int, bound: int)
    requires page <= bound + 1
    requires pages(bound + 1).None? || !pages(bound + 1).value.completed
    ensures var h := Harvest(pages, page, bound);
            (forall p :: page <= p < page + h.fetches - 1 ==> pages(p).Some? && pages(p).value.completed) &&
            (h.stop == NoResults <==> pages(page + h.fetches - 1).None?) &&
            (h.stop == JoinBlocked ==> !pages(page + h.fetches - 1).value.completed)
    decreases bound + 1 - page
  {
    match pages(page)
    case None =>
    case Some(e) =>
      if e.completed {
        HarvestStopsAtFirstFailure(pages, page + 1, bound);
      }
  }

  /** Conversely, when the `k` pages from `page` on succeed and are fully
      drained and the next one fails, the loop makes exactly `k + 1` calls and
      stops on that failing page. */
  lemma {:induction false} HarvestRunsToFirstFailure(pages: int -> Option<Extraction>, page: int, k: nat, bound: int)
    requires forall p :: page <= p < page + k ==> pages(p).Some? && pages(p).value.completed
    requires pages(page + k).None?
    requires page <= bound + 1
    requires pages(bound + 1).None? || !pages(bound + 1).value.completed
    ensures var h := Harvest(pages, page, bound);
            h.fetches == k + 1 && h.finalPage == page + k && h.stop == NoResults
    decreases k
  {
    if k > 0 {
      assert pages(page).Some?;
      if page == bound + 1 {
        assert false;
      }
      HarvestRunsToFirstFailure(pages, page + 1, k - 1, bound);
    }
  }

  /** The run does not depend on which page ending the loop was named as the
      bound. */
  lemma {:induction false} HarvestBoundIrrelevant(pages: int -> Option<Extraction>, page: int, b1: int, b2: int)
    requires page <= b1 + 1 && (pages(b1 + 1).None? || !pages(b1 + 1).value.completed)
    requires page <= b2 + 1 && (pages(b2 + 1).None? || !pages(b2 + 1).value.completed)
    ensures Harvest(pages, page, b1) == Harvest(pages, page, b2)
    decreases b1 + 1 - page
  {
    match pages(page)
    case None =>
    case Some(e) =>
      if e.completed {
        HarvestBoundIrrelevant(pages, page + 1, b1, b2);
      }
  }

  /** Every record is a dict with exactly the six fields. */
  ghost predicate SixFieldRecords(records: seq<Record>) {
    forall i :: 0 <= i < |records| ==> records[i].Keys == Fields
  }

  /** When every page's records have the six fields, so does everything the
      loop gathers. */
  lemma {:induction false} HarvestSixFields(pages: int -> Option<Extraction>, page: int, bound: int)
    requires forall p :: pages(p).Some? ==> SixFieldRecords(pages(p).value.records)
    requires page <= bound + 1
    requires pages(bound + 1).None? || !pages(bound + 1).value.completed
    ensures SixFieldRecords(Harvest(pages, page, bound).records)
    decreases bound + 1 - page
  {
    match pages(page)
    case None =>
    case Some(e) =>
      if e.completed {
        HarvestSixFields(pages, page + 1, bound);
        var rest := Harvest(pages, page + 1, bound).records;
        assert forall i :: 0 <= i < |e.records + rest| ==>
          (e.records + rest)[i] == if i < |e.records| then e.records[i] else rest[i - |e.records|];
      }
  }

  /** The calls so far asked for pages 1, 2, 3, ... in order, each with the
      request id two ahead of the page. */
  ghost predicate CallsInOrder(calls: seq<(int, int)>) {
    forall i :: 0 <= i < |calls| ==> calls[i] == (i + 1, i + 3)
  }

  /** The next call, for page |calls| + 1, keeps the calls in order. */
  lemma CallsExtend(calls: seq<(int, int)>)
    requires CallsInOrder(calls)
    ensures CallsInOrder(calls + [(|calls| + 1, |calls| + 3)])
  {
  }

  lemma ConcatAssociative<T>(a: seq<T>, b: seq<T>, c: seq<T>)
    ensures (a + b) + c == a + (b + c)
  {
  }

  /** One pass of the loop body of `main()`: fetch the page, and if that
      succeeded, drain the queue into records and wait on `queue.join()`.
      `joined` is false when that wait never ends. */
  method FetchAndDrain(send: Json -> Outcome, ghost pages: int -> Option<Extraction>,
                       currentPage: int, requestId: int, queue: Queue)
    returns (fetched: bool, records: seq<Record>, joined: bool)
    requires forall p {:trigger PageResult(send, p)} :: pages(p) == PageResult(send, p)
    requires requestId == currentPage + 2
    requires queue.batches == [] && queue.unfinished == 0
    modifies queue
    ensures (fetched <==> pages(currentPage).Some?) &&
            (fetched ==> records == pages(currentPage).value.records &&
                         (joined <==> pages(currentPage).value.completed))
    ensures queue.batches == []
    ensures queue.unfinished == if fetched && !joined then 1 else 0
  {
    assert pages(currentPage) == PageResult(send, currentPage);
    records, joined := [], false;
    fetched := FetchPage.FetchPage(send, currentPage, requestId, queue);
    if fetched {
      records := FetchData.FetchData(queue);
      joined := queue.Join();
    }
  }

  /** `main()` without the session, the timer and the DataFrame. `send`
      answers each request body; `pages` names what each page yields and
      `bound` a page that ends the loop, by failing or by leaving a task
      unfinished, so that the run can be stated page by page.
      `calls` lists the (page, request id) pairs passed to `fetch_page`. */
  method Run(send: Json -> Outcome, ghost pages: int -> Option<Extraction>, ghost bound: nat)
    returns (detailData: seq<Record>, currentPage: int, requestId: int, stop: Stop,
             ghost calls: seq<(int, int)>)
    requires forall p {:trigger PageResult(send, p)} :: pages(p) == PageResult(send, p)
    requires pages(bound + 1).None? || !pages(bound + 1).value.completed
    ensures var h := Harvest(pages, 1, bound);
            detailData == h.records && currentPage == h.finalPage && stop == h.stop &&
            |calls| == h.fetches && CallsInOrder(calls)
    ensures requestId == currentPage + 2
  {
    var queue := new Queue();
    currentPage, requestId, detailData, calls := 1, 3, [], [];
    while true
      invariant 1 <= currentPage <= bound + 1
      invariant requestId == currentPage + 2
      invariant |calls| == currentPage - 1 && CallsInOrder(calls)
      // At each loop boundary the queue is drained and no task is pending.
      invariant queue.batches == [] && queue.unfinished == 0
      invariant var h, rest := Harvest(pages, 1, bound), Harvest(pages, currentPage, bound);
                h.records == detailData + rest.records &&
                h.fetches == currentPage - 1 + rest.fetches &&
                h.finalPage == rest.finalPage && h.stop == rest.stop
      decreases bound + 1 - currentPage
    {
      CallsExtend(calls);
      calls := calls + [(currentPage, requestId)];
      var fetched, records, joined := FetchAndDrain(send, pages, currentPage, requestId, queue);
      if !fetched {
        stop := NoResults;
        return;
      }
      if joined {
        ConcatAssociative(detailData, records, Harvest(pages, currentPage + 1, bound).records);
      }
      detailData := detailData + records;
      currentPage := currentPage + 1;
      requestId := requestId + 1;
      if !joined {
        stop := JoinBlocked;
        return;
      }
    }
  }
}
