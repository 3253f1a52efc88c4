/** The `scout:elasticsearch:create {model}` console command: it creates the
    model's index with a fixed analysis schema. */
module IndexCommand {
  import opened Values
  import opened Searchable
  import opened Transport

  /** Token filters Elasticsearch provides without a declaration. */
  const BuiltinFilters: set<string> := {"lowercase"}

  /** The token filters the index declares: `words_splitter`, a word
      delimiter that keeps the original token and the concatenation of all
      parts. */
  function Filters(): (filters: map<string, Value>)
    ensures filters.Keys == {"words_splitter"}
    ensures filters["words_splitter"].Dict?
    ensures filters["words_splitter"].entries.Keys == {"type", "preserve_original", "catenate_all"}
  {
    map["words_splitter" := Dict(map[
      "type" := Str("word_delimiter"),
      "preserve_original" := Bool(true),
      "catenate_all" := Bool(true)])]
  }

  /** The analyzers the index declares: `default`, a custom analyzer that
      strips HTML, splits on the standard tokenizer, lower-cases and then
      splits words. */
  function Analyzers(): (analyzers: map<string, Value>)
    ensures analyzers.Keys == {"default"}
    ensures analyzers["default"].Dict?
    ensures analyzers["default"].entries.Keys == {"type", "tokenizer", "char_filter", "filter"}
  {
    map["default" := Dict(map[
      "type" := Str("custom"),
      "tokenizer" := Str("standard"),
      "char_filter" := List([Str("html_strip")]),
      "filter" := List([Str("lowercase"), Str("words_splitter")])])]
  }

  /** The names of the token filters an analyzer definition applies, in order. */
  function FilterChain(analyzer: Value): seq<string>
  {
    match Lookup(analyzer, ["filter"])
    case Some(List(items)) => StringsOf(items)
    case _ => []
  }

  /** The schema's settings: the word-delimiter filter keeps the original
      token and the concatenation of all parts; the custom analyzer strips
      HTML, uses the standard tokenizer, and applies exactly `lowercase` and
      then `words_splitter`. */
  lemma DefaultSchema()
    ensures Filters().Keys == {"words_splitter"}
    ensures Lookup(Dict(Filters()), ["words_splitter", "type"]) == Some(Str("word_delimiter"))
    ensures Lookup(Dict(Filters()), ["words_splitter", "preserve_original"]) == Some(Bool(true))
    ensures Lookup(Dict(Filters()), ["words_splitter", "catenate_all"]) == Some(Bool(true))
    ensures Analyzers().Keys == {"default"}
    ensures Lookup(Dict(Analyzers()), ["default", "type"]) == Some(Str("custom"))
    ensures Lookup(Dict(Analyzers()), ["default", "tokenizer"]) == Some(Str("standard"))
    ensures Lookup(Dict(Analyzers()), ["default", "char_filter"]) == Some(List([Str("html_strip")]))
    ensures Lookup(Dict(Analyzers()), ["default", "filter"]) == Some(List([Str("lowercase"), Str("words_splitter")]))
    ensures FilterChain(Analyzers()["default"]) == ["lowercase", "words_splitter"]
  {
  }

  /** Every filter an analyzer applies is built in or declared by Filters(). */
  lemma AnalyzerFiltersDeclared()
    ensures forall a, f :: a in Analyzers() && f in FilterChain(Analyzers()[a]) ==>
      f in BuiltinFilters || f in Filters()
  {
  }

  /** The create-index request for a model: its index name and the schema
      under `body.settings.index.analysis`. */
  function CreateParams(m: Model): (p: map<string, Value>)
    ensures p.Keys == {"index", "body"}
    ensures p["index"] == Str(m.searchableAs)
  {
    map[
      "index" := Str(m.searchableAs),
      "body" := Dict(map["settings" := Dict(map["index" := Dict(map["analysis" := Dict(map[
        "filter" := Dict(Filters()),
        "analyzer" := Dict(Analyzers())])])])])]
  }

  /** The create request names the model's index and carries Filters() and
      Analyzers() under `body.settings.index.analysis`. */
  lemma CreateRequestShape(m: Model)
    ensures Lookup(Dict(CreateParams(m)), ["index"]) == Some(Str(m.searchableAs))
    ensures Lookup(Dict(CreateParams(m)), ["body", "settings", "index", "analysis", "filter"]) == Some(Dict(Filters()))
    ensures Lookup(Dict(CreateParams(m)), ["body", "settings", "index", "analysis", "analyzer"]) == Some(Dict(Analyzers()))
  {
    var p := CreateParams(m);
    var body := p["body"].entries;
    var settings := body["settings"].entries;
    var index := settings["index"].entries;
    var analysis := index["analysis"].entries;
    LookupStep(p, ["index"]);
    LookupStep(analysis, ["filter"]);
    LookupStep(analysis, ["analyzer"]);
    LookupStep(index, ["analysis", "filter"]);
    LookupStep(index, ["analysis", "analyzer"]);
    LookupStep(settings, ["index", "analysis", "filter"]);
    LookupStep(settings, ["index", "analysis", "analyzer"]);
    LookupStep(body, ["settings", "index", "analysis", "filter"]);
    LookupStep(body, ["settings", "index", "analysis", "analyzer"]);
    LookupStep(p, ["body", "settings", "index", "analysis", "filter"]);
    LookupStep(p, ["body", "settings", "index", "analysis", "analyzer"]);
  }

  /** What `new $model()` followed by `searchableAs()` yields for a class
      that exists:
      - a searchable model;
      - an Eloquent model without the Searchable trait, whose
        `searchableAs()` call is forwarded to the query builder and raises
        a `BadMethodCallException` (an `Exception`) with this message;
      - a PHP `Error`, which no `catch (Exception $e)` takes: one raised by
        the instantiation itself (an abstract class, a constructor with
        required arguments) or by calling the undefined `searchableAs()` on
        an object that is not a model. */
  datatype Instance =
    | Instantiated(model: Model)
    | NotSearchable(message: string)
    | Uncaught(error: string)

  /** The message the command prints for a class name that does not resolve. */
  function Unresolved(modelClass: string): (msg: string)
    ensures |msg| > |modelClass|
    ensures msg[..|modelClass|] == modelClass
    ensures msg[|modelClass|..] == " could not be resolved."
  {
    modelClass + " could not be resolved."
  }

  /** The lines an outcome of the create call prints: the exception's
      message, or nothing. */
  function Reported(outcome: Outcome): (lines: seq<string>)
    ensures outcome.Done? <==> lines == []
    ensures outcome.Raised? ==> lines == [outcome.message]
  {
    match outcome
    case Done => []
    case Raised(msg) => [msg]
  }

  class ElasticSearchIndex {
    /** The shared client (the `elasticsearch` singleton). */
    const client: Client
    /** The lines written to the console with `error()`, oldest first. */
    var errors: seq<string>

    constructor (client: Client)
      ensures this.client == client && errors == []
    {
      this.client := client;
      errors := [];
    }

    /** handle(): resolve the class named by the argument, instantiate it,
        then create its index. `classes` maps every class name that exists
        to what instantiating it yields. A PHP `Error`, from the
        instantiation or from `searchableAs()` on an object that is not a
        model, is not an `Exception` and propagates; a model without the
        Searchable trait raises an `Exception` inside the try block and its
        message is printed. */
    method Handle(modelClass: string, classes: map<string, Instance>) returns (outcome: Outcome)
      modifies this, client
      ensures modelClass !in classes ==>
        client.sent == old(client.sent) && errors == old(errors) + [Unresolved(modelClass)] &&
        outcome == Done
      ensures modelClass in classes && classes[modelClass].Uncaught? ==>
        client.sent == old(client.sent) && errors == old(errors) &&
        outcome == Raised(classes[modelClass].error)
      ensures modelClass in classes && classes[modelClass].NotSearchable? ==>
        client.sent == old(client.sent) && errors == old(errors) + [classes[modelClass].message] &&
        outcome == Done
      ensures modelClass in classes && classes[modelClass].Instantiated? ==>
        var req := CreateIndex(CreateParams(classes[modelClass].model));
        client.sent == old(client.sent) + [req] &&
        errors == old(errors) + Reported(client.Answer(req)) &&
        outcome == Done
    {
      if modelClass !in classes {
        errors := errors + [Unresolved(modelClass)];
        return Done;
      }
      match classes[modelClass]
      case Uncaught(e) =>
        outcome := Raised(e);
      case NotSearchable(msg) =>
        errors := errors + [msg];
        outcome := Done;
      case Instantiated(m) =>
        Provision(m);
        outcome := Done;
    }

    /** The body of handle() once the class has resolved: one create-index
        call; an exception from it is printed, never propagated. */
    method Provision(m: Model)
      modifies this, client
      ensures client.sent == old(client.sent) + [CreateIndex(CreateParams(m))]
      ensures errors == old(errors) + Reported(client.Answer(CreateIndex(CreateParams(m))))
    {
      var outcome := client.Send(CreateIndex(CreateParams(m)));
      if outcome.Raised? {
        errors := errors + [outcome.message];
      }
    }
  }
}
