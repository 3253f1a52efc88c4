# Laravel Scout engine for Elasticsearch — a Dafny model

This project models the core of a Laravel Scout search driver that talks to
Elasticsearch through the official PHP client:

- the engine (`ElasticSearchEngine`): how it turns a collection of searchable
  models into `index` and `delete` calls on the client, how it builds the
  phrase-prefix `multi_match` search request with its default window and the
  pagination overlay, how it reads hit ids and the total hit count out of a raw
  response, and how `flush` deletes and re-creates a model's index;
- the console command `scout:elasticsearch:create {model}`
  (`ElasticSearchIndex`): the fixed analysis schema (one `word_delimiter`
  filter, one custom `default` analyzer) and the create-index request built
  from it, with its guard for a class that does not resolve and its catch-all
  error path.

The Elasticsearch client is modelled as `Transport.Client`, an object that
appends every request it is sent to `sent` and answers each one from two
parameters fixed when it is built: `failure` says which requests the remote
answers with an exception (and its message), `reply` says what a search that
does not raise returns. PHP arrays are `Values.Value`; `array_merge_recursive`,
which the code only ever applies to arrays whose keys do not collide, is
`Values.Merge`, a disjoint map union.

Files:

- `values.dfy` — PHP values, `Merge`, path lookup into nested arrays.
- `searchable.dfy` — what the engine reads from a model and a query builder.
- `transport.dfy` — requests, raw responses, the recording client.
- `index_command.dfy` — the create-index command.
- `engine.dfy` — the engine.

The code makes these choices, and the model follows them:

- A batch `update` or `delete` does not collect per-model failures. The
  client's first exception leaves the `each` loop and propagates, and the
  remaining models are not sent (`Engine.Dispatch`).
- `flush` does not tolerate a missing index: an exception from the
  delete-index call propagates and the index is not created again.
- A model without `searchableFields()` is searched with an empty `fields`
  list. There is no error and no fallback field.
- A create-index conflict inside the console command is printed as the
  exception's message and not propagated. `createIndex` on the engine
  propagates it.
- In the console command, only the `searchableAs()` call and the create call
  sit inside the `try`, and the `catch` takes only an `Exception`. An Eloquent
  model without the Searchable trait raises a `BadMethodCallException` from
  `searchableAs()`, and its message is printed. A PHP `Error` escapes the
  command: one raised by `new $model()` itself, or by `searchableAs()` on a
  class that is not a model.

## Model

| member | source | states |
|---|---|---|
| `Values.Merge` | app-modules/search/src/Engine/ElasticSearchEngine.php:235-240 | merging two arrays with disjoint keys keeps every entry of both and adds no other key |
| `Engine.RequestBody` | app-modules/search/src/Engine/ElasticSearchEngine.php:235-240 | the request holds `index = searchableAs()` plus exactly the given options, unchanged |
| `Engine.IndexParams` | app-modules/search/src/Engine/ElasticSearchEngine.php:30-36 | an index call carries exactly `index = searchableAs()`, `id = getKey()` and `body = toSearchableArray()` |
| `Engine.DeleteParams` | app-modules/search/src/Engine/ElasticSearchEngine.php:52-57 | a delete call carries exactly `index` and `id`, and no body |
| `Engine.IndexRequests` | app-modules/search/src/Engine/ElasticSearchEngine.php:28-37 | one index call per model, the i-th for the i-th model |
| `Engine.DeleteRequests` | app-modules/search/src/Engine/ElasticSearchEngine.php:46-58 | one delete call per model, the i-th for the i-th model |
| `Engine.Dispatch` | app-modules/search/src/Engine/ElasticSearchEngine.php:28-58 | a batch sends at most its calls, at least its first one when it has any, and all of them when it completes |
| `Engine.DispatchSendsPrefix` | app-modules/search/src/Engine/ElasticSearchEngine.php:30-37 | the calls a batch sends are always a prefix of its calls, in batch order |
| `Engine.DispatchDoneIff` | app-modules/search/src/Engine/ElasticSearchEngine.php:30-37 | a batch completes if and only if none of its calls raises, and then it has sent every call |
| `Engine.DispatchRaisedAtLast` | app-modules/search/src/Engine/ElasticSearchEngine.php:52-58 | a batch that raises stops at the call that raised, with that call's message; every earlier call succeeded |
| `Engine.DispatchAfter` | app-modules/search/src/Engine/ElasticSearchEngine.php:30-37 | after a run of successful calls, the rest of the batch behaves as a batch of its own |
| `Engine.DispatchRaisesAt` | app-modules/search/src/Engine/ElasticSearchEngine.php:30-37 | if the i-th call is the first that raises, the batch sends exactly calls 0..i and raises its message |
| `Engine.UpdateSendsOnePerModel` | app-modules/search/src/Engine/ElasticSearchEngine.php:28-37 | when no index call raises, update sends exactly one index call per model, in collection order, and nothing else |
| `Engine.DeleteSendsOnePerModel` | app-modules/search/src/Engine/ElasticSearchEngine.php:46-58 | when no delete call raises, delete sends exactly one delete call per model, in order |
| `Engine.ElasticSearchEngine.SendEach` | app-modules/search/src/Engine/ElasticSearchEngine.php:30-37 | the `each` loop appends to the client log exactly the calls `Dispatch` sends and returns its outcome |
| `Engine.ElasticSearchEngine.Update` | app-modules/search/src/Engine/ElasticSearchEngine.php:28-38 | the log grows by the index calls that `Dispatch` sends for the collection; the outcome is the batch's |
| `Engine.ElasticSearchEngine.Delete` | app-modules/search/src/Engine/ElasticSearchEngine.php:46-59 | the log grows by the delete calls that `Dispatch` sends; an empty collection sends nothing and completes |
| `Engine.SearchableFields` | app-modules/search/src/Engine/ElasticSearchEngine.php:101-108 | no `searchableFields()` method gives the empty list; otherwise exactly that method's list |
| `Engine.QueryText` | app-modules/search/src/Engine/ElasticSearchEngine.php:82 | the match term is the builder's query, or `''` when it is null |
| `Engine.MultiMatch` | app-modules/search/src/Engine/ElasticSearchEngine.php:81-85 | the multi_match clause has exactly `query`, `fields` and `type`; the type is `phrase_prefix`, the query the query text, and the fields read back as the searchable fields |
| `Engine.SearchBody` | app-modules/search/src/Engine/ElasticSearchEngine.php:77-87 | the search body has exactly `from = 0`, `size = 5000` and `query = {multi_match: …}` |
| `Engine.SearchParams` | app-modules/search/src/Engine/ElasticSearchEngine.php:74-90 | the search request has top-level keys `index`, `body` and the caller's options, which pass through unchanged |
| `Engine.SearchParamsEntries` | app-modules/search/src/Engine/ElasticSearchEngine.php:76-88 | the request's `index` is `searchableAs()` and its `body` is the search body |
| `Engine.SearchBodyShape` | app-modules/search/src/Engine/ElasticSearchEngine.php:77-87 | the body asks for `from = 0`, `size = 5000` and a `phrase_prefix` multi_match of the query text over the searchable fields |
| `Engine.SearchRequestShape` | app-modules/search/src/Engine/ElasticSearchEngine.php:74-90 | the full request, read by path: `index`, `body.from = 0`, `body.size = 5000`, and the multi_match `type`, `query` and `fields` |
| `Engine.SearchFieldsRoundTrip` | app-modules/search/src/Engine/ElasticSearchEngine.php:83 | the field names read back from the request are exactly the model's searchable fields |
| `Engine.Offset` | app-modules/search/src/Engine/ElasticSearchEngine.php:119 | page 1 starts at offset 0; no page from 1 on, with a non-negative page size, starts below 0 |
| `Engine.PageOptions` | app-modules/search/src/Engine/ElasticSearchEngine.php:118-121 | paginate's options never collide with `index` or `body` |
| `Engine.PaginateRequestShape` | app-modules/search/src/Engine/ElasticSearchEngine.php:116-122 | paginate adds top-level `from = (page-1)*perPage` and `size = perPage`, and leaves `body.from = 0` and `body.size = 5000` |
| `Engine.PageWindows` | app-modules/search/src/Engine/ElasticSearchEngine.php:119 | page 1 starts at 0, each page starts where the previous ends, and no page from 1 on starts below 0 |
| `Engine.ElasticSearchEngine.PerformSearch` | app-modules/search/src/Engine/ElasticSearchEngine.php:74-93 | exactly one search call with the built request; the result is the client's answer to it |
| `Engine.ElasticSearchEngine.Search` | app-modules/search/src/Engine/ElasticSearchEngine.php:64-67 | search is performSearch with no options |
| `Engine.ElasticSearchEngine.Paginate` | app-modules/search/src/Engine/ElasticSearchEngine.php:116-122 | paginate is performSearch with the page's window as options |
| `Engine.MapIds` | app-modules/search/src/Engine/ElasticSearchEngine.php:130-135 | one id per hit, the i-th id being the i-th hit's `_id` |
| `Engine.IdsOf` | app-modules/search/src/Engine/ElasticSearchEngine.php:152-155 | plucking `_id` keeps the hits' order and count |
| `Engine.Map` | app-modules/search/src/Engine/ElasticSearchEngine.php:144-158 | no hits, and only then, gives an empty collection without a lookup; otherwise the ordered hit ids are passed to `getScoutModelsByIds` |
| `Engine.TotalCount` | app-modules/search/src/Engine/ElasticSearchEngine.php:184-187 | `hits.total.value` when present, 0 when absent |
| `Engine.ElasticSearchEngine.Flush` | app-modules/search/src/Engine/ElasticSearchEngine.php:195-204 | a delete-index call for `searchableAs()` goes first; if it raises, nothing else is sent and the exception propagates; otherwise the create command's request follows |
| `Engine.ElasticSearchEngine.CreateIndex` | app-modules/search/src/Engine/ElasticSearchEngine.php:211-218 | exactly one create-index call, naming the given index and carrying the options |
| `Engine.ElasticSearchEngine.DeleteIndex` | app-modules/search/src/Engine/ElasticSearchEngine.php:225-228 | exactly one delete-index call, carrying only the given index name |
| `Engine.ElasticSearchEngine.constructor` | app-modules/search/src/Engine/ElasticSearchEngine.php:18-20 | the engine wraps the given client; the create command it runs shares that client |
| `IndexCommand.Filters` | app-modules/search/src/Console/Commands/Scout/ElasticSearchIndex.php:67-76 | the filters declare exactly `words_splitter`, whose settings are exactly `type`, `preserve_original` and `catenate_all` |
| `IndexCommand.Analyzers` | app-modules/search/src/Console/Commands/Scout/ElasticSearchIndex.php:83-93 | the analyzers declare exactly `default`, whose settings are exactly `type`, `tokenizer`, `char_filter` and `filter` |
| `IndexCommand.DefaultSchema` | app-modules/search/src/Console/Commands/Scout/ElasticSearchIndex.php:67-93 | exactly one filter `words_splitter` (`word_delimiter`, `preserve_original = true`, `catenate_all = true`) and one analyzer `default` (`custom`, `standard`, char filters exactly `[html_strip]`, filters exactly `[lowercase, words_splitter]`) |
| `IndexCommand.AnalyzerFiltersDeclared` | app-modules/search/src/Console/Commands/Scout/ElasticSearchIndex.php:69-91 | every filter an analyzer applies is a built-in one or is declared by `filters()` |
| `IndexCommand.CreateParams` | app-modules/search/src/Console/Commands/Scout/ElasticSearchIndex.php:44-56 | the create request has exactly the keys `index` and `body`, with `index = searchableAs()` |
| `IndexCommand.CreateRequestShape` | app-modules/search/src/Console/Commands/Scout/ElasticSearchIndex.php:44-56 | `body.settings.index.analysis.filter` is `filters()` and `.analyzer` is `analyzers()` |
| `IndexCommand.Unresolved` | app-modules/search/src/Console/Commands/Scout/ElasticSearchIndex.php:38 | the message is the class name followed by " could not be resolved." |
| `IndexCommand.Reported` | app-modules/search/src/Console/Commands/Scout/ElasticSearchIndex.php:57-59 | an exception prints its message as the only line; success prints nothing |
| `IndexCommand.ElasticSearchIndex.constructor` | app-modules/search/src/Console/Commands/Scout/ElasticSearchIndex.php:12-17 | the command holds the given client and has printed nothing |
| `IndexCommand.ElasticSearchIndex.Handle` | app-modules/search/src/Console/Commands/Scout/ElasticSearchIndex.php:35-60 | an unresolvable class prints "`<model>` could not be resolved." and sends nothing; a PHP `Error` (from `new $model()`, or from `searchableAs()` on a class that is not a model) sends and prints nothing and propagates; an Eloquent model without the Searchable trait prints the message of the `BadMethodCallException` and sends nothing; a searchable model sends exactly one create request and prints the message of any exception from it, which does not propagate |
| `IndexCommand.ElasticSearchIndex.Provision` | app-modules/search/src/Console/Commands/Scout/ElasticSearchIndex.php:41-59 | one create-index call for the model; a raised message is printed, success prints nothing |

## Left out

- `lazyMap` (ElasticSearchEngine.php:167-176) is not modelled. It only wraps results in a lazy collection, and for a non-empty result it calls `all()` on the hit array, which is not a collection.
- `usesSoftDelete` (ElasticSearchEngine.php:248-251) is not modelled. It depends on runtime trait reflection and nothing calls it.
- `__call` (ElasticSearchEngine.php:260-263) is not modelled. It forwards any method to the client library, whose surface is not part of this model.
- The service provider's singleton and engine registration, and the demo route, are wiring with no logic. `SearchServiceProvider.php` and `routes/web.php` are not part of this model. The one fact used from them is that the command and the engine share one client (`Engine.ElasticSearchEngine.constructor`).
- The network, TLS, retries and what the cluster does with a request (conflicts, missing indices, stored documents). Which requests raise, and what a search returns, are parameters of `Transport.Client`.
- `Engine.ElasticSearchEngine.Flush`: runs the command's post-guard body (`Provision`) directly instead of dispatching `scout:elasticsearch:create` through Artisan. `get_class` of a live model always resolves. `new $model()` is taken to have the same `searchableAs()` as the flushed model. The command's exit status is not modelled.
- `IndexCommand.ElasticSearchIndex.Handle`: `class_exists`, `new $model()` and `searchableAs()` are modelled by a map from existing class names to what instantiating the class yields (a searchable model, an Eloquent model without the Searchable trait, or a PHP `Error`). The command's return value (its exit status) is not modelled.
- `Searchable.Model`: a model's own methods (`searchableAs()`, `getKey()`, `toSearchableArray()`, `searchableFields()`) are taken not to raise. An exception from one inside the `each` closure would end the batch like a client exception, after the earlier calls were sent, and one in `performSearch` would propagate before the search call. `Engine.UpdateSendsOnePerModel` and `Engine.DeleteSendsOnePerModel` rest on this.
- `Values.Value`: has no null and no float. A document from `toSearchableArray()` with a nullable column or a float field cannot be represented. No property reads the document's contents, which pass through to the index call unchanged.
- `Values.Merge`: models `array_merge_recursive` only for arrays with disjoint keys, the only way the adapter uses it. Colliding keys, which PHP would merge into lists, are excluded by its precondition.
- Key order of PHP associative arrays is not modelled. Elasticsearch does not depend on it, and list order (the analyzer's filter chain, the searchable fields) is kept.
- `Engine.Offset`: PHP integers are 64-bit and overflow to floats. The model computes `(page - 1) * perPage` on unbounded integers.
- `Engine.Map`: `getScoutModelsByIds` belongs to the model layer. The model states which call `map` makes and with which ids, not which entities that call returns.
- `Transport.Hit`: each hit is taken to have an `_id`, as every Elasticsearch hit does. `pluck('_id')` on a hit without one (which would give null) is not modelled.
