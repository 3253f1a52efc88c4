/** The Scout engine backed by the Elasticsearch client: it turns model
    collections into index and delete calls, builds the search request and
    reads ids and totals out of the raw response. */
module Engine {
  import opened Values
  import opened Searchable
  import opened Transport
  import opened IndexCommand

  /** The window every search body starts with. */
  const DefaultFrom: int := 0
  const DefaultSize: int := 5000

  // ---------------------------------------------------------------------
  // Request parameters

  /** getRequestBody(): the model's index name merged with further options. */
  function RequestBody(m: Model, options: map<string, Value>): (p: map<string, Value>)
    requires "index" !in options
    ensures p.Keys == {"index"} + options.Keys
    ensures p["index"] == Str(m.searchableAs)
    ensures forall k :: k in options ==> p[k] == options[k]
  {
    Merge(map["index" := Str(m.searchableAs)], options)
  }

  /** The parameters update() sends for one model. */
  function IndexParams(m: Model): (p: map<string, Value>)
    ensures p.Keys == {"index", "id", "body"}
    ensures p["index"] == Str(m.searchableAs) && p["id"] == m.key && p["body"] == Dict(m.document)
  {
    RequestBody(m, map["id" := m.key, "body" := Dict(m.document)])
  }

  /** The parameters delete() sends for one model: no body. */
  function DeleteParams(m: Model): (p: map<string, Value>)
    ensures p.Keys == {"index", "id"}
    ensures p["index"] == Str(m.searchableAs) && p["id"] == m.key
  {
    RequestBody(m, map["id" := m.key])
  }

  /** One index call per model, in collection order. */
  function IndexRequests(models: seq<Model>): (reqs: seq<Request>)
    ensures |reqs| == |models|
    ensures forall i :: 0 <= i < |models| ==> reqs[i] == IndexDoc(IndexParams(models[i]))
  {
    if models == [] then [] else [IndexDoc(IndexParams(models[0]))] + IndexRequests(models[1..])
  }

  /** One delete call per model, in collection order. */
  function DeleteRequests(models: seq<Model>): (reqs: seq<Request>)
    ensures |reqs| == |models|
    ensures forall i :: 0 <= i < |models| ==> reqs[i] == DeleteDoc(DeleteParams(models[i]))
  {
    if models == [] then [] else [DeleteDoc(DeleteParams(models[0]))] + DeleteRequests(models[1..])
  }

  // ---------------------------------------------------------------------
  // Sending a batch: `each` with a closure that calls the client. An
  // exception from the client leaves the closure and `each` unhandled, so
  // the batch stops at the first request that raises.

  /** The requests actually sent, and how the batch ended, when `reqs` are
      sent in order to a remote that raises `failure(r)` for request r. */
  function Dispatch(reqs: seq<Request>, failure: Request -> Option<string>): (r: (seq<Request>, Outcome))
    ensures |r.0| <= |reqs|
    ensures reqs != [] ==> |r.0| >= 1
    ensures r.1.Done? ==> r.0 == reqs
  {
    if reqs == [] then ([], Done)
    else match failure(reqs[0])
      case Some(msg) => ([reqs[0]], Raised(msg))
      case None => Prefixed([reqs[0]], Dispatch(reqs[1..], failure))
  }

  function Prefixed(pre: seq<Request>, t: (seq<Request>, Outcome)): (seq<Request>, Outcome)
  {
    (pre + t.0, t.1)
  }

  /** What a batch sends is always a prefix of the batch, in batch order. */
  lemma {:induction false} DispatchSendsPrefix(reqs: seq<Request>, failure: Request -> Option<string>)
    ensures Dispatch(reqs, failure).0 == reqs[..|Dispatch(reqs, failure).0|]
  {
    if reqs != [] && failure(reqs[0]).None? {
      DispatchSendsPrefix(reqs[1..], failure);
    }
  }

  /** A batch completes exactly when no request in it raises, and then every
      request was sent. */
  lemma {:induction false} DispatchDoneIff(reqs: seq<Request>, failure: Request -> Option<string>)
    ensures Dispatch(reqs, failure).1 == Done <==> forall i :: 0 <= i < |reqs| ==> failure(reqs[i]).None?
    ensures Dispatch(reqs, failure).1 == Done ==> Dispatch(reqs, failure).0 == reqs
  {
    if reqs != [] && failure(reqs[0]).None? {
      DispatchDoneIff(reqs[1..], failure);
      forall i | 1 <= i < |reqs| ensures reqs[i] == reqs[1..][i - 1] { }
    }
  }

  /** A batch that ends with an exception ends with the request that raised
      it; every request before that one succeeded. */
  lemma {:induction false} DispatchRaisedAtLast(reqs: seq<Request>, failure: Request -> Option<string>)
    requires Dispatch(reqs, failure).1.Raised?
    ensures var (sent, outcome) := Dispatch(reqs, failure);
      |sent| >= 1 && failure(sent[|sent| - 1]) == Some(outcome.message) &&
      forall j :: 0 <= j < |sent| - 1 ==> failure(sent[j]).None?
  {
    if failure(reqs[0]).None? {
      DispatchRaisedAtLast(reqs[1..], failure);
      var rest := Dispatch(reqs[1..], failure).0;
      var sent := Dispatch(reqs, failure).0;
      assert sent == [reqs[0]] + rest;
      forall j | 1 <= j < |sent| ensures sent[j] == rest[j - 1] { }
    }
  }

  /** One iteration of the sending loop. */
  lemma {:induction false} DispatchStep(reqs: seq<Request>, i: nat, failure: Request -> Option<string>)
    requires i < |reqs|
    ensures Dispatch(reqs[i..], failure) ==
      match failure(reqs[i])
      case Some(msg) => ([reqs[i]], Raised(msg))
      case None => Prefixed([reqs[i]], Dispatch(reqs[i + 1..], failure))
  {
  }

  /** After a run of requests that all succeeded, the rest of the batch is
      sent as a batch of its own. */
  lemma {:induction false} DispatchAfter(reqs: seq<Request>, i: nat, failure: Request -> Option<string>)
    requires i <= |reqs|
    requires forall j :: 0 <= j < i ==> failure(reqs[j]).None?
    ensures Dispatch(reqs, failure) == Prefixed(reqs[..i], Dispatch(reqs[i..], failure))
  {
    if i == 0 {
      assert reqs[..0] == [] && reqs[0..] == reqs;
      assert [] + Dispatch(reqs, failure).0 == Dispatch(reqs, failure).0;
    } else {
      DispatchAfter(reqs, i - 1, failure);
      DispatchStep(reqs, i - 1, failure);
      var rest := Dispatch(reqs[i..], failure);
      assert reqs[..i] == reqs[..i - 1] + [reqs[i - 1]];
      assert reqs[..i - 1] + ([reqs[i - 1]] + rest.0) == reqs[..i] + rest.0;
    }
  }

  /** A batch whose first raising request is the i-th sends exactly the
      requests up to and including that one. */
  lemma {:induction false} DispatchRaisesAt(reqs: seq<Request>, i: nat, failure: Request -> Option<string>)
    requires i < |reqs|
    requires forall j :: 0 <= j < i ==> failure(reqs[j]).None?
    requires failure(reqs[i]).Some?
    ensures Dispatch(reqs, failure) == (reqs[..i + 1], Raised(failure(reqs[i]).value))
  {
    DispatchAfter(reqs, i, failure);
    DispatchStep(reqs, i, failure);
    assert reqs[..i + 1] == reqs[..i] + [reqs[i]];
  }

  /** update() on a collection whose index calls all succeed sends exactly
      one index call per model, in order, and nothing else. */
  lemma {:induction false} UpdateSendsOnePerModel(models: seq<Model>, failure: Request -> Option<string>)
    requires forall i :: 0 <= i < |models| ==> failure(IndexDoc(IndexParams(models[i]))).None?
    ensures Dispatch(IndexRequests(models), failure) == (IndexRequests(models), Done)
  {
    DispatchDoneIff(IndexRequests(models), failure);
  }

  /** delete() on a collection whose delete calls all succeed sends exactly
      one delete call per model, in order, and nothing else. */
  lemma {:induction false} DeleteSendsOnePerModel(models: seq<Model>, failure: Request -> Option<string>)
    requires forall i :: 0 <= i < |models| ==> failure(DeleteDoc(DeleteParams(models[i]))).None?
    ensures Dispatch(DeleteRequests(models), failure) == (DeleteRequests(models), Done)
  {
    DispatchDoneIff(DeleteRequests(models), failure);
  }

  // ---------------------------------------------------------------------
  // Search

  /** getSearchableFields(): the model's own list, or none when its class
      does not define `searchableFields()`. */
  function SearchableFields(m: Model): (fields: seq<string>)
    ensures m.fields.None? ==> fields == []
    ensures m.fields.Some? ==> fields == m.fields.value
  {
    m.fields.GetOr([])
  }

  /** The match term: the builder's query, or the empty string for a null
      query (a literal empty term, not a match-all). */
  function QueryText(b: Builder): (q: string)
    ensures b.query.None? ==> q == ""
    ensures b.query.Some? ==> q == b.query.value
  {
    b.query.GetOr("")
  }

  /** The `multi_match` clause: a phrase-prefix match of the query text
      over the model's searchable fields, and nothing else. */
  function MultiMatch(b: Builder): (mm: map<string, Value>)
    ensures mm.Keys == {"query", "fields", "type"}
    ensures mm["type"] == Str("phrase_prefix")
    ensures mm["query"] == Str(QueryText(b))
    ensures mm["fields"].List? && StringsOf(mm["fields"].items) == SearchableFields(b.model)
  {
    StringsRoundTrip(SearchableFields(b.model));
    map[
      "query" := Str(QueryText(b)),
      "fields" := List(Strings(SearchableFields(b.model))),
      "type" := Str("phrase_prefix")]
  }

  /** The search body: the window 0..5000 and the multi_match query. */
  function SearchBody(b: Builder): (body: map<string, Value>)
    ensures body.Keys == {"from", "size", "query"}
    ensures body["from"] == Int(0) && body["size"] == Int(5000)
    ensures body["query"] == Dict(map["multi_match" := Dict(MultiMatch(b))])
  {
    map[
      "from" := Int(DefaultFrom),
      "size" := Int(DefaultSize),
      "query" := Dict(map["multi_match" := Dict(MultiMatch(b))])]
  }

  /** performSearch(): the request body for the builder, merged with the
      caller's top-level options. */
  function SearchParams(b: Builder, options: map<string, Value>): (p: map<string, Value>)
    requires options.Keys !! {"index", "body"}
    ensures p.Keys == {"index", "body"} + options.Keys
    ensures forall k :: k in options ==> p[k] == options[k]
  {
    Merge(Merge(RequestBody(b.model, map[]), map["body" := Dict(SearchBody(b))]), options)
  }

  /** The body of every search: the window 0..5000 and a phrase-prefix
      multi_match of the query text over the searchable fields. */
  lemma SearchBodyShape(b: Builder)
    ensures var body := Dict(SearchBody(b));
      && Lookup(body, ["from"]) == Some(Int(0))
      && Lookup(body, ["size"]) == Some(Int(5000))
      && Lookup(body, ["query", "multi_match", "type"]) == Some(Str("phrase_prefix"))
      && Lookup(body, ["query", "multi_match", "query"]) == Some(Str(QueryText(b)))
      && Lookup(body, ["query", "multi_match", "fields"]) == Some(List(Strings(SearchableFields(b.model))))
  {
    var body := SearchBody(b);
    var query := map["multi_match" := Dict(MultiMatch(b))];
    var mm := MultiMatch(b);
    LookupStep(body, ["from"]);
    LookupStep(body, ["size"]);
    LookupStep(mm, ["type"]);
    LookupStep(mm, ["query"]);
    LookupStep(mm, ["fields"]);
    LookupStep(query, ["multi_match", "type"]);
    LookupStep(query, ["multi_match", "query"]);
    LookupStep(query, ["multi_match", "fields"]);
    LookupStep(body, ["query", "multi_match", "type"]);
    LookupStep(body, ["query", "multi_match", "query"]);
    LookupStep(body, ["query", "multi_match", "fields"]);
  }

  /** The request's `index` is the model's index name and its `body` is the
      search body. */
  lemma SearchParamsEntries(b: Builder, options: map<string, Value>)
    requires options.Keys !! {"index", "body"}
    ensures SearchParams(b, options)["index"] == Str(b.model.searchableAs)
    ensures SearchParams(b, options)["body"] == Dict(SearchBody(b))
  {
  }

  /** The search request targets the model's index, asks for the window
      0..5000 in its body and holds a phrase-prefix multi_match over the
      model's searchable fields with the builder's query text. */
  lemma SearchRequestShape(b: Builder, options: map<string, Value>)
    requires options.Keys !! {"index", "body"}
    ensures var p := Dict(SearchParams(b, options));
      && Lookup(p, ["index"]) == Some(Str(b.model.searchableAs))
      && Lookup(p, ["body", "from"]) == Some(Int(0))
      && Lookup(p, ["body", "size"]) == Some(Int(5000))
      && Lookup(p, ["body", "query", "multi_match", "type"]) == Some(Str("phrase_prefix"))
      && Lookup(p, ["body", "query", "multi_match", "query"]) == Some(Str(QueryText(b)))
      && Lookup(p, ["body", "query", "multi_match", "fields"]) == Some(List(Strings(SearchableFields(b.model))))
  {
    var p := SearchParams(b, options);
    SearchParamsEntries(b, options);
    SearchBodyShape(b);
    LookupStep(p, ["index"]);
    LookupStep(p, ["body", "from"]);
    LookupStep(p, ["body", "size"]);
    LookupStep(p, ["body", "query", "multi_match", "type"]);
    LookupStep(p, ["body", "query", "multi_match", "query"]);
    LookupStep(p, ["body", "query", "multi_match", "fields"]);
  }

  /** The searched fields, read back from the request, are exactly the
      model's searchable fields. */
  lemma SearchFieldsRoundTrip(b: Builder, options: map<string, Value>)
    requires options.Keys !! {"index", "body"}
    ensures var fields := Lookup(Dict(SearchParams(b, options)), ["body", "query", "multi_match", "fields"]);
      fields.Some? && fields.value.List? && StringsOf(fields.value.items) == SearchableFields(b.model)
  {
    SearchRequestShape(b, options);
    StringsRoundTrip(SearchableFields(b.model));
  }

  /** The top-level offset paginate() asks for. */
  function Offset(perPage: int, page: int): (from: int)
    ensures page == 1 ==> from == 0
    ensures page >= 1 && perPage >= 0 ==> from >= 0
  {
    (page - 1) * perPage
  }

  /** paginate()'s options: top-level `from` and `size`. */
  function PageOptions(perPage: int, page: int): (options: map<string, Value>)
    ensures options.Keys !! {"index", "body"}
  {
    map["from" := Int(Offset(perPage, page)), "size" := Int(perPage)]
  }

  /** paginate() adds the top-level window and leaves the body's window at
      0..5000. */
  lemma PaginateRequestShape(b: Builder, perPage: int, page: int)
    ensures var p := Dict(SearchParams(b, PageOptions(perPage, page)));
      && Lookup(p, ["from"]) == Some(Int((page - 1) * perPage))
      && Lookup(p, ["size"]) == Some(Int(perPage))
      && Lookup(p, ["body", "from"]) == Some(Int(0))
      && Lookup(p, ["body", "size"]) == Some(Int(5000))
  {
    var p := SearchParams(b, PageOptions(perPage, page));
    SearchRequestShape(b, PageOptions(perPage, page));
    LookupStep(p, ["from"]);
    LookupStep(p, ["size"]);
  }

  /** Pages are consecutive windows: page 1 starts at 0, each page starts
      where the previous one ends, and no page from 1 on starts below 0. */
  lemma PageWindows(perPage: nat, page: int)
    requires page >= 1
    ensures Offset(perPage, 1) == 0
    ensures Offset(perPage, page + 1) == Offset(perPage, page) + perPage
    ensures Offset(perPage, page) >= 0
  {
  }

  // ---------------------------------------------------------------------
  // Reading responses

  /** mapIds(): the `_id` of every hit, in hit order. */
  function MapIds(r: RawResponse): (ids: seq<string>)
    ensures |ids| == |r.hits|
    ensures forall i :: 0 <= i < |ids| ==> ids[i] == r.hits[i].id
  {
    IdsOf(r.hits)
  }

  function IdsOf(hits: seq<Hit>): (ids: seq<string>)
    ensures |ids| == |hits|
    ensures forall i :: 0 <= i < |ids| ==> ids[i] == hits[i].id
  {
    if hits == [] then [] else [hits[0].id] + IdsOf(hits[1..])
  }

  /** What map() does with a response: return the model's empty collection,
      or ask the model for its instances with these ids (in this order). */
  datatype Mapping = NewCollection | ScoutModelsByIds(ids: seq<string>)

  /** map(): no hits give an empty collection without a lookup; otherwise
      the ordered hit ids are passed to `getScoutModelsByIds`. */
  function Map(r: RawResponse): (mapping: Mapping)
    ensures mapping.NewCollection? <==> r.hits == []
    ensures mapping.ScoutModelsByIds? ==> mapping.ids == MapIds(r) && |mapping.ids| >= 1
  {
    if r.hits == [] then NewCollection else ScoutModelsByIds(MapIds(r))
  }

  /** getTotalCount(): `hits.total.value`, or 0 when it is absent. */
  function TotalCount(r: RawResponse): (n: nat)
    ensures r.total.Some? ==> n == r.total.value
    ensures r.total.None? ==> n == 0
  {
    r.total.GetOr(0)
  }

  // ---------------------------------------------------------------------
  // The engine

  class ElasticSearchEngine {
    const client: Client
    /** The create command flush() runs; it shares the engine's client. */
    const command: ElasticSearchIndex

    predicate Valid() {
      command.client == client
    }

    constructor (client: Client)
      ensures Valid() && this.client == client
      ensures fresh(command) && command.errors == []
    {
      this.client := client;
      command := new ElasticSearchIndex(client);
    }

    /** update(): `each` model, in order, sends its index call. */
    method Update(models: seq<Model>) returns (outcome: Outcome)
      modifies client
      ensures client.sent == old(client.sent) + Dispatch(IndexRequests(models), client.failure).0
      ensures outcome == Dispatch(IndexRequests(models), client.failure).1
    {
      outcome := SendEach(IndexRequests(models));
    }

    /** delete(): nothing for an empty collection; otherwise `each` model, in
        order, sends its delete call. */
    method Delete(models: seq<Model>) returns (outcome: Outcome)
      modifies client
      ensures client.sent == old(client.sent) + Dispatch(DeleteRequests(models), client.failure).0
      ensures outcome == Dispatch(DeleteRequests(models), client.failure).1
      ensures models == [] ==> client.sent == old(client.sent) && outcome == Done
    {
      if models == [] {
        return Done;
      }
      outcome := SendEach(DeleteRequests(models));
    }

    /** Collection `each` over a closure that sends one request per item: the
        requests go out in order, and an exception from the client ends the
        iteration and propagates. */
    method SendEach(reqs: seq<Request>) returns (outcome: Outcome)
      modifies client
      ensures client.sent == old(client.sent) + Dispatch(reqs, client.failure).0
      ensures outcome == Dispatch(reqs, client.failure).1
    {
      var i := 0;
      while i < |reqs|
        invariant 0 <= i <= |reqs|
        invariant client.sent == old(client.sent) + reqs[..i]
        invariant forall j :: 0 <= j < i ==> client.failure(reqs[j]).None?
      {
        var o := client.Send(reqs[i]);
        assert reqs[..i + 1] == reqs[..i] + [reqs[i]];
        if o.Raised? {
          DispatchRaisesAt(reqs, i, client.failure);
          return o;
        }
        i := i + 1;
      }
      DispatchDoneIff(reqs, client.failure);
      assert reqs[..i] == reqs;
      return Done;
    }

    /** performSearch(): one search call with the builder's request. */
    method PerformSearch(b: Builder, options: map<string, Value>) returns (result: SearchResult)
      requires options.Keys !! {"index", "body"}
      modifies client
      ensures client.sent == old(client.sent) + [Request.Search(SearchParams(b, options))]
      ensures result == client.SearchAnswer(SearchParams(b, options))
    {
      result := client.SendSearch(SearchParams(b, options));
    }

    /** search(): performSearch() with no extra options. */
    method Search(b: Builder) returns (result: SearchResult)
      modifies client
      ensures client.sent == old(client.sent) + [Request.Search(SearchParams(b, map[]))]
      ensures result == client.SearchAnswer(SearchParams(b, map[]))
    {
      result := PerformSearch(b, map[]);
    }

    /** paginate(): performSearch() with the page's top-level window. */
    method Paginate(b: Builder, perPage: int, page: int) returns (result: SearchResult)
      modifies client
      ensures client.sent == old(client.sent) + [Request.Search(SearchParams(b, PageOptions(perPage, page)))]
      ensures result == client.SearchAnswer(SearchParams(b, PageOptions(perPage, page)))
    {
      result := PerformSearch(b, PageOptions(perPage, page));
    }

    /** flush(): delete the model's index, then run the create command for
        the model's class. An exception from the delete call propagates and
        the index is not created again; the command reports its own errors. */
    method Flush(m: Model) returns (outcome: Outcome)
      requires Valid()
      modifies client, command
      ensures var del := Request.DeleteIndex(map["index" := Str(m.searchableAs)]);
        outcome == client.Answer(del) &&
        (outcome.Raised? ==>
          client.sent == old(client.sent) + [del] && command.errors == old(command.errors)) &&
        (outcome.Done? ==>
          var create := Request.CreateIndex(CreateParams(m));
          client.sent == old(client.sent) + [del, create] &&
          command.errors == old(command.errors) + Reported(client.Answer(create)))
    {
      outcome := client.Send(Request.DeleteIndex(map["index" := Str(m.searchableAs)]));
      if outcome.Raised? {
        return;
      }
      command.Provision(m);
    }

    /** createIndex(): one create-index call naming the index, with the
        caller's options merged in. */
    method CreateIndex(name: string, options: map<string, Value>) returns (outcome: Outcome)
      requires "index" !in options
      modifies client
      ensures var p := Merge(map["index" := Str(name)], options);
        client.sent == old(client.sent) + [Request.CreateIndex(p)] &&
        p["index"] == Str(name) && p.Keys == {"index"} + options.Keys &&
        outcome == client.Answer(Request.CreateIndex(p))
    {
      outcome := client.Send(Request.CreateIndex(Merge(map["index" := Str(name)], options)));
    }

    /** deleteIndex(): one delete-index call naming only the index. */
    method DeleteIndex(name: string) returns (outcome: Outcome)
      modifies client
      ensures client.sent == old(client.sent) + [Request.DeleteIndex(map["index" := Str(name)])]
      ensures outcome == client.Answer(Request.DeleteIndex(map["index" := Str(name)]))
    {
      outcome := client.Send(Request.DeleteIndex(map["index" := Str(name)]));
    }
  }
}
