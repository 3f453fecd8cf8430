/** `fetch_data`: take one batch off the queue and project each item onto the
    six-field record, with the source's two levels of exception handling. */
module FetchData {
  import opened Json
  import opened AsyncQueue

  /** One output row: a dict from field name to the item's value. */
  type Record = map<string, Json>

  const Fields: set<string> :=
    {"id", "address", "addressCity", "addressState", "addressStreet", "addressZipcode"}

  /** The dict built for one mapping item: `item.get(key)` for each field. */
  function Project(item: map<string, Json>): (r: Record)
    ensures r.Keys == Fields
    ensures forall k :: k in r ==> r[k] == if k in item then item[k] else JNull
  {
    map[
      "id" := if "id" in item then item["id"] else JNull,
      "address" := if "address" in item then item["address"] else JNull,
      "addressCity" := if "addressCity" in item then item["addressCity"] else JNull,
      "addressState" := if "addressState" in item then item["addressState"] else JNull,
      "addressStreet" := if "addressStreet" in item then item["addressStreet"] else JNull,
      "addressZipcode" := if "addressZipcode" in item then item["addressZipcode"] else JNull
    ]
  }

  /** What one call leaves behind: the list it returns, and whether it reached
      `task_done` (the loop ran to its end). */
  datatype Extraction = Extraction(records: seq<Record>, completed: bool)

  /** What the `for` loop over the items of a list batch yields. A non-dict
      item makes `.get` raise AttributeError, which the inner
      `except TypeError` does not catch, so the loop and `task_done` are
      skipped. */
  function ExtractItems(items: seq<Json>): (e: Extraction)
    ensures e.completed <==> forall i :: 0 <= i < |items| ==> items[i].JObject?
    ensures |e.records| <= |items|
    ensures e.completed ==> |e.records| == |items|
    ensures forall i :: 0 <= i < |e.records| ==>
              items[i].JObject? && e.records[i] == Project(items[i].fields)
    ensures !e.completed ==> !items[|e.records|].JObject?
  {
    if items == [] then Extraction([], true)
    else if !items[0].JObject? then Extraction([], false)
    else
      var rest := ExtractItems(items[1..]);
      Extraction([Project(items[0].fields)] + rest.records, rest.completed)
  }

  /** The effect of iterating over any dequeued batch. */
  function ExtractBatch(batch: Json): (e: Extraction)
    ensures forall i :: 0 <= i < |e.records| ==> e.records[i].Keys == Fields
    ensures e.completed ==> batch.JArray? || !Truthy(batch)
    ensures batch.JArray? ==> e == ExtractItems(batch.items)
    ensures !batch.JArray? ==> e.records == []
    ensures !batch.JArray? ==> (e.completed <==> batch == JString([]) || batch == JObject(map[]))
  {
    match batch
    case JArray(xs) => ExtractItems(xs)
    // A str yields one-character strs and a dict yields its str keys; a str
    // has no `.get`, so a non-empty one stops at its first item.
    case JString(s) => Extraction([], s == [])
    case JObject(m) => Extraction([], m == map[])
    // Not iterable: the `for` statement itself raises TypeError, outside the
    // inner handler.
    case _ => Extraction([], false)
  }

  /** A list batch holding one dict and one non-dict item: the order of the
      two decides whether the dict's record is returned, and in neither order
      is `task_done` reached. */
  lemma MixedBatch(good: map<string, Json>, bad: Json)
    requires !bad.JObject?
    ensures ExtractBatch(JArray([JObject(good), bad])) == Extraction([Project(good)], false)
    ensures ExtractBatch(JArray([bad, JObject(good)])) == Extraction([], false)
  {
    assert [JObject(good), bad][1..] == [bad];
    assert ExtractItems([bad]) == Extraction([], false);
    assert [Project(good)] + [] == [Project(good)];
  }

  /** The `for` loop over the items of a batch: projects each item in turn,
      and stops at the first non-dict item, whose `.get` raises. */
  method ProjectItems(items: seq<Json>) returns (records: seq<Record>, completed: bool)
    ensures Extraction(records, completed) == ExtractItems(items)
  {
    records := [];
    var i := 0;
    while i < |items|
      invariant 0 <= i <= |items|
      invariant forall k :: 0 <= k < i ==> items[k].JObject?
      invariant |records| == i
      invariant forall k :: 0 <= k < i ==> records[k] == Project(items[k].fields)
    {
      if !items[i].JObject? {
        return records, false;
      }
      records := records + [Project(items[i].fields)];
      i := i + 1;
    }
    completed := true;
  }

  /** `fetch_data(current_page, queue)`; the page number only appears in log
      messages. */
  method FetchData(q: Queue) returns (records: seq<Record>)
    modifies q
    ensures old(q.batches) == [] ==>
              records == [] && q.batches == [] && q.unfinished == old(q.unfinished)
    ensures old(q.batches) != [] ==>
              var e := ExtractBatch(old(q.batches)[0]);
              records == e.records &&
              q.batches == old(q.batches)[1..] &&
              q.unfinished == if e.completed && old(q.unfinished) > 0
                              then old(q.unfinished) - 1 else old(q.unfinished)
  {
    records := [];
    var empty := q.Empty();
    if empty {
      return;
    }
    var batch := q.Get();
    var items: seq<Json>;
    match batch {
      case JArray(xs) =>
        items := xs;
      case JString(s) =>
        if s != [] {
          return;
        }
        items := [];
      case JObject(m) =>
        if m != map[] {
          return;
        }
        items := [];
      case _ =>
        return;
    }
    var completed;
    records, completed := ProjectItems(items);
    if !completed {
      // AttributeError: the outer handler returns the records so far.
      return;
    }
    // A ValueError from `task_done` is caught by the outer handler too.
    var done := q.TaskDone();
  }
}
