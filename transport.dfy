/** The Elasticsearch client as the adapter sees it: an endpoint that records
    every request it is sent and answers each with success, an exception, or
    (for a search) a raw response. What the remote cluster does with a request
    is not modelled; which requests raise and what a search answers are
    parameters of the client. */
module Transport {
  import opened Values

  /** One call on the client, with the parameter array it was given. */
  datatype Request =
    | IndexDoc(params: map<string, Value>)      // $client->index($params)
    | DeleteDoc(params: map<string, Value>)     // $client->delete($params)
    | Search(params: map<string, Value>)        // $client->search($params)
    | CreateIndex(params: map<string, Value>)   // $client->indices()->create($params)
    | DeleteIndex(params: map<string, Value>)   // $client->indices()->delete($params)

  /** The result of an effect: it completed, or the client raised an exception
      with this message. */
  datatype Outcome = Done | Raised(message: string)

  /** A hit of a search response, as far as the adapter reads it: its `_id`. */
  datatype Hit = Hit(id: string)

  /** A raw search response: `hits.hits` in engine order and
      `hits.total.value`, which may be absent. */
  datatype RawResponse = RawResponse(hits: seq<Hit>, total: Option<nat>)

  datatype SearchResult = Answered(response: RawResponse) | SearchRaised(message: string)

  class Client {
    /** Every request sent so far, oldest first. */
    var sent: seq<Request>
    /** The exception message the remote answers a request with, if any. */
    const failure: Request -> Option<string>
    /** The response the remote gives to a search that does not raise. */
    const reply: map<string, Value> -> RawResponse

    constructor (failure: Request -> Option<string>, reply: map<string, Value> -> RawResponse)
      ensures sent == []
      ensures this.failure == failure && this.reply == reply
    {
      sent := [];
      this.failure := failure;
      this.reply := reply;
    }

    /** Sends a request that has no response body the adapter reads. */
    method Send(req: Request) returns (outcome: Outcome)
      modifies this
      ensures sent == old(sent) + [req]
      ensures outcome == Answer(req)
    {
      sent := sent + [req];
      outcome := Answer(req);
    }

    /** Sends a search request and returns the response. */
    method SendSearch(params: map<string, Value>) returns (result: SearchResult)
      modifies this
      ensures sent == old(sent) + [Search(params)]
      ensures result == SearchAnswer(params)
    {
      sent := sent + [Search(params)];
      result := SearchAnswer(params);
    }

    /** What the remote answers to a request: an exception or success. */
    function Answer(req: Request): (outcome: Outcome)
      ensures outcome.Done? <==> failure(req).None?
      ensures failure(req).Some? ==> outcome.message == failure(req).value
    {
      match failure(req)
      case Some(m) => Raised(m)
      case None => Done
    }

    /** What the remote answers to a search: an exception or the response. */
    function SearchAnswer(params: map<string, Value>): (result: SearchResult)
      ensures result.Answered? <==> failure(Search(params)).None?
      ensures result.Answered? ==> result.response == reply(params)
      ensures result.SearchRaised? ==> result.message == failure(Search(params)).value
    {
      match failure(Search(params))
      case Some(m) => SearchRaised(m)
      case None => Answered(reply(params))
    }
  }
}
