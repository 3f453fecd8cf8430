/** `fetch_page`: build the search request for one page, send it, and decide
    from the response whether a batch of listings goes onto the queue. */
module FetchPage {
  import opened Json
  import opened AsyncQueue

  /** Where the two arguments land in the request body. */
  const PagePath: seq<string> := ["searchQueryState", "pagination", "currentPage"]
  const RequestIdPath: seq<string> := ["requestId"]

  /** Where the listings are read from in the response body. */
  const ListPath: seq<string> := ["cat1", "searchResults", "listResults"]

  /** The `searchQueryState` part of the request, with the page slot open. */
  function SearchQueryState(page: Json): Json {
    JObject(map[
      "isMapVisible" := JBool(false),
      "mapBounds" := JObject(map[
        "west" := JFloat(-7451938436914065, -14),
        "east" := JFloat(-734399776308594, -13),
        "south" := JFloat(40405685665239744, -15),
        "north" := JFloat(40988741695224775, -15)
      ]),
      "regionSelection" := JArray([JObject(map["regionId" := JInt(6181), "regionType" := JInt(6)])]),
      "filterState" := JObject(map[
        "sortSelection" := JObject(map["value" := JString("globalrelevanceex")]),
        "isAllHomes" := JObject(map["value" := JBool(true)])
      ]),
      "isListVisible" := JBool(true),
      "pagination" := JObject(map["currentPage" := page])
    ])
  }

  /** The request body before `json.dumps`, with its two slots left open: a
      fixed search over one region (New York, region 6181). */
  function Template(page: Json, requestId: Json): Json {
    JObject(map[
      "searchQueryState" := SearchQueryState(page),
      "wants" := JObject(map[
        "cat1" := JArray([JString("listResults")]),
        "cat2" := JArray([JString("total")])
      ]),
      "requestId" := requestId,
      "isDebugRequest" := JBool(false)
    ])
  }

  /** The request body for one page. */
  function Payload(currentPage: int, requestId: int): (p: Json)
    ensures At(p, PagePath) == Some(JInt(currentPage))
    ensures At(p, RequestIdPath) == Some(JInt(requestId))
  {
    Template(JInt(currentPage), JInt(requestId))
  }

  /** Writing the page slot inside `searchQueryState` changes nothing else there. */
  lemma SetPaginationSlot(page: Json, v: Json)
    ensures SetAt(SearchQueryState(page), PagePath[1..], v) == SearchQueryState(v)
  {
    var state := SearchQueryState(page);
    var newPagination := JObject(map["currentPage" := v]);
    assert SetAt(state.fields["pagination"], ["currentPage"], v) == newPagination by {
      assert ["currentPage"][1..] == [];
    }
    assert state.fields["pagination" := newPagination] == SearchQueryState(v).fields;
    assert PagePath[1..] == ["pagination", "currentPage"];
    assert PagePath[1..][1..] == ["currentPage"];
  }

  /** Writing the page slot of the template changes that slot and nothing else. */
  lemma SetPageSlot(page: Json, requestId: Json, v: Json)
    ensures SetAt(Template(page, requestId), PagePath, v) == Template(v, requestId)
  {
    SetPaginationSlot(page, v);
    var t := Template(page, requestId);
    assert t.fields["searchQueryState" := SearchQueryState(v)] == Template(v, requestId).fields;
  }

  /** Writing the request id slot changes that slot and nothing else. */
  lemma SetRequestIdSlot(page: Json, requestId: Json, v: Json)
    ensures SetAt(Template(page, requestId), RequestIdPath, v) == Template(page, v)
  {
    assert RequestIdPath[1..] == [];
  }

  /** Every payload is the template with the page number and the request id
      written into its two slots, and nothing else depends on the arguments. */
  lemma PayloadIsTemplate(c1: int, r1: int, c2: int, r2: int)
    ensures SetAt(SetAt(Payload(c1, r1), PagePath, JNull), RequestIdPath, JNull) == Template(JNull, JNull)
    ensures SetAt(SetAt(Payload(c1, r1), PagePath, JNull), RequestIdPath, JNull)
         == SetAt(SetAt(Payload(c2, r2), PagePath, JNull), RequestIdPath, JNull)
    ensures Payload(c1, r1) == Payload(c2, r2) <==> c1 == c2 && r1 == r2
  {
    SetPageSlot(JInt(c1), JInt(r1), JNull);
    SetRequestIdSlot(JNull, JInt(r1), JNull);
    SetPageSlot(JInt(c2), JInt(r2), JNull);
    SetRequestIdSlot(JNull, JInt(r2), JNull);
  }

  /** The ways `session.put` can raise; each is caught by one of the handlers. */
  datatype RequestError = ClientResponseError | ClientError | TimeoutError | OtherError

  /** The ways `response.json()` can raise. */
  datatype DecodeError = ContentTypeError | JsonValueError

  datatype Body = Decoded(data: Json) | Undecodable(error: DecodeError)

  /** What the HTTP exchange produced. */
  datatype Outcome = Raised(error: RequestError) | Responded(status: int, body: Body)

  /** `json_data.get('cat1', {}).get('searchResults', {}).get('listResults')`;
      None when a step is applied to a non-dict and raises AttributeError. A
      missing key falls back to an empty dict (or None at the last step), so
      the chain gives a truthy value exactly when the strict path does. */
  function ListResults(data: Json): (r: Option<Json>)
    ensures r.None? <==>
              !data.JObject? ||
              ("cat1" in data.fields && !data.fields["cat1"].JObject?) ||
              ("cat1" in data.fields && "searchResults" in data.fields["cat1"].fields &&
               !data.fields["cat1"].fields["searchResults"].JObject?)
    ensures (r.Some? && Truthy(r.value)) <==> At(data, ListPath).Some? && Truthy(At(data, ListPath).value)
    ensures r.Some? && Truthy(r.value) ==> r == At(data, ListPath)
  {
    match DictGet(data, "cat1", JObject(map[]))
    case None => None
    case Some(cat1) =>
      match DictGet(cat1, "searchResults", JObject(map[]))
      case None => None
      case Some(searchResults) => DictGet(searchResults, "listResults", JNull)
  }

  /** The batch `fetch_page` puts on the queue for a given outcome, if any. */
  function Classify(o: Outcome): (r: Option<Json>)
    ensures r.Some? <==>
              o.Responded? && o.status == 200 && o.body.Decoded? &&
              At(o.body.data, ListPath).Some? && Truthy(At(o.body.data, ListPath).value)
    ensures r.Some? ==> r == At(o.body.data, ListPath)
  {
    match o
    case Raised(_) => None
    case Responded(status, body) =>
      if status != 200 then None
      else match body
        case Undecodable(_) => None
        case Decoded(data) =>
          match ListResults(data)
          case None => None
          case Some(start) => if Truthy(start) then Some(start) else None
  }

  /** `fetch_page(session, url, current_page, request_id, queue)`; `send` stands
      for the session's HTTP PUT of the payload. */
  method FetchPage(send: Json -> Outcome, currentPage: int, requestId: int, q: Queue)
    returns (added: bool)
    modifies q
    ensures added <==> Classify(send(Payload(currentPage, requestId))).Some?
    ensures q.batches == if added
                         then old(q.batches) + [Classify(send(Payload(currentPage, requestId))).value]
                         else old(q.batches)
    ensures q.unfinished == if added then old(q.unfinished) + 1 else old(q.unfinished)
  {
    var payload := Payload(currentPage, requestId);
    var response := send(payload);
    match response {
      case Raised(_) =>
        return false;
      case Responded(status, body) =>
        if status != 200 {
          return false;
        }
        match body {
          case Undecodable(_) =>
            return false;
          case Decoded(data) =>
            var start := ListResults(data);
            if start.None? {
              // AttributeError, caught by the last handler.
              return false;
            }
            if Truthy(start.value) {
              q.Put(start.value);
              return true;
            }
            return false;
        }
    }
  }
}
