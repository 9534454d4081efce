# Percosert: percolate, then index

A Dafny model of the REST handler `RestPercosertAction` of an Elasticsearch
fork. A `PUT /{index}/{type}[/{id}]/_percosert` request carries a document
whose `query` field holds a percolate query. The handler does three things:

1. It percolates the document.
2. In the percolate success callback, it builds an index request. The
   document source is the submitted body with `query` removed and
   `percosert` set to the percolate matches. The write options come from
   the URL parameters.
3. It indexes that document and answers with `ok`, `_index`, `_type`,
   `_id`, `_version` and, when the index response has them, `matches`. The
   status is CREATED for version 1 and OK for any other version.

The collaborators are inputs to the model (a `Collaborators` value): the
percolate outcome, the index outcome, and for each response the handler
sends, whether the channel throws. The handler's behaviour is a trace of
events: `PercolateCalled(index, type, document)`, `IndexCalled(request)`, `Sent(response)` and
`SendFailed(response, exception)`.

Modules:

- `Wrappers`: Option and Result.
- `Json`: document values, and the string array that a list of matches
  becomes.
- `Rest`: exceptions, statuses, responses, and field lookup in a response
  body.
- `DocumentRewrite`: the rewrite rule (source lines 111-118).
- `ResponseComposition`: the `Fields` constants, the success body and the
  status choice (lines 152-171, 208-215).
- `IndexRequestAssembly`: the REST request, the setter calls on the index
  request in call order, the op_type check and the write options (lines
  100-147).
- `RestPercosertAction`: the handler. `Handled` is its specification as a
  function. The imperative methods `HandleRequest`, `OnPercolateResponse`,
  `BuildIndexRequest`, `SubmitIndexRequest` and `HandleCreate` do the work
  step by step: they update local copies of the source map and the setter
  list one step at a time, and they build the matches array in a loop. Each method is proved equal
  to its specification.
- `PercosertProperties`: the guarantees, proved over every combination of
  collaborator outcomes.

The model follows the code as written; in particular:

- The op_type check happens after percolation succeeds, not before any
  backend call.
- A rejected op_type sends BAD_REQUEST and the handler keeps going. The
  index call is still made when that send succeeds, so up to two responses
  reach the client. If the send throws an IOException, the handler stops
  there. Any other exception from the send goes to the percolate listener's
  onFailure, which sends an error response, and nothing is indexed.
- The success body takes `matches` only from the index response. It never
  falls back to the percolate matches.

## Model

| member | source | states |
|---|---|---|
| `DocumentRewrite.Rewrite` | src/main/java/org/elasticsearch/rest/action/index/RestPercosertAction.java:111-118 | the indexed document has no `query` key. Its `percosert` key holds the matches in order, even when there are none, and replaces any value the caller put there. Its keys are the submitted keys minus `query` plus `percosert`, and every other key keeps its value. |
| `DocumentRewrite.RewriteCharacterised` | src/main/java/org/elasticsearch/rest/action/index/RestPercosertAction.java:111-118 | any map with the three properties above is the rewrite, so the properties determine the indexed document |
| `DocumentRewrite.RewriteIgnoresReservedKeys` | src/main/java/org/elasticsearch/rest/action/index/RestPercosertAction.java:113-118 | what the caller put under `query` or `percosert` has no effect on the indexed document |
| `DocumentRewrite.RewriteIdempotent` | src/main/java/org/elasticsearch/rest/action/index/RestPercosertAction.java:113-118 | rewriting an already rewritten document with the same matches gives the same document |
| `Json.StringsOfStringArray` | src/main/java/org/elasticsearch/rest/action/index/RestPercosertAction.java:159-165 | reading the matches array back gives the same identifiers in the same order |
| `Rest.ThrowableResponse` | src/main/java/org/elasticsearch/rest/action/index/RestPercosertAction.java:193-200 | the error response renders the caught exception, with the status that exception maps to (any status, BAD_REQUEST included) |
| `ResponseComposition.SuccessStatus` | src/main/java/org/elasticsearch/rest/action/index/RestPercosertAction.java:167-170 | CREATED exactly when the version is 1; OK for every other version |
| `ResponseComposition.SuccessBodyRoundTrip` | src/main/java/org/elasticsearch/rest/action/index/RestPercosertAction.java:152-166 | a client reading the success body gets back the index response's index, type, id and version, and its matches in order when it has any |
| `ResponseComposition.SuccessBodyKeys` | src/main/java/org/elasticsearch/rest/action/index/RestPercosertAction.java:153-166 | the body lists `ok` = true, `_index`, `_type`, `_id` and `_version` in that order, with the index response's values. `matches` comes sixth, and it is present exactly when the index response's matches are non-null. |
| `ResponseComposition.ComposeSuccess` | src/main/java/org/elasticsearch/rest/action/index/RestPercosertAction.java:152-171 | building the body field by field, with the matches array appended one value at a time, gives the success response; its status is CREATED exactly for version 1 |
| `IndexRequestAssembly.PrepareIndexRequest` | src/main/java/org/elasticsearch/rest/action/index/RestPercosertAction.java:100-125 | the build fails exactly when the ttl, the body, the timeout, the version or the version type fails to parse, and it fails with the first such exception in that order. On success the request keeps the REST index, type and id, and its source is the rewrite. |
| `IndexRequestAssembly.PreparedSettings` | src/main/java/org/elasticsearch/rest/action/index/RestPercosertAction.java:103-125 | the built request makes one setter call per parameter: eight calls, nine with ttl. ttl is set exactly when the parameter is present, with its value. Routing is set before parent, and the timeout is the given one or the default. Timestamp, refresh, version, version type and the percolate flag are set as given. Op type, replication and consistency are not set yet, so no call overrides another. |
| `IndexRequestAssembly.CheckOpType` | src/main/java/org/elasticsearch/rest/action/index/RestPercosertAction.java:126-139 | no op_type leaves the request as it is; `percosert` selects INDEX; any other value is rejected and the verdict names it |
| `IndexRequestAssembly.BadRequestResponse` | src/main/java/org/elasticsearch/rest/action/index/RestPercosertAction.java:131-133 | the rejection is a BAD_REQUEST response |
| `IndexRequestAssembly.BadRequestNamesOpType` | src/main/java/org/elasticsearch/rest/action/index/RestPercosertAction.java:131-133 | the rejection body is exactly one `error` field, whose message contains the offending op_type verbatim |
| `IndexRequestAssembly.WriteOptions` | src/main/java/org/elasticsearch/rest/action/index/RestPercosertAction.java:140-147 | a parser that throws aborts with its exception, replication first; otherwise the write options are built |
| `IndexRequestAssembly.WriteOptionsSettings` | src/main/java/org/elasticsearch/rest/action/index/RestPercosertAction.java:140-147 | replication and consistency are each set exactly when given, with the parsed value. Every call in the write options is one of these two, one per given parameter. |
| `RestPercosertAction.Handled` | src/main/java/org/elasticsearch/rest/action/index/RestPercosertAction.java:79-206 | every request starts with the percolate call on the request's index and type and has at least one more event |
| `RestPercosertAction.AfterPercolate` | src/main/java/org/elasticsearch/rest/action/index/RestPercosertAction.java:93-191 | the percolate success callback always produces at least one event (its properties are the PercosertProperties lemmas) |
| `RestPercosertAction.Dispatch` | src/main/java/org/elasticsearch/rest/action/index/RestPercosertAction.java:140-185 | the index step always produces at least one event (its properties are the PercosertProperties lemmas) |
| `RestPercosertAction.HandleRequest` | src/main/java/org/elasticsearch/rest/action/index/RestPercosertAction.java:79-206 | the step-by-step handler produces exactly the trace `Handled` specifies |
| `RestPercosertAction.OnPercolateResponse` | src/main/java/org/elasticsearch/rest/action/index/RestPercosertAction.java:93-191 | the percolate success callback, op_type check included, produces exactly the events `AfterPercolate` specifies |
| `RestPercosertAction.BuildIndexRequest` | src/main/java/org/elasticsearch/rest/action/index/RestPercosertAction.java:100-125 | the setter calls, made one at a time, and the step-by-step removal of `query` and put of `percosert` on a local copy of the source map build exactly `PrepareIndexRequest` |
| `RestPercosertAction.SubmitIndexRequest` | src/main/java/org/elasticsearch/rest/action/index/RestPercosertAction.java:140-185 | replication, consistency, the index call and the index listener produce exactly the events `Dispatch` specifies |
| `RestPercosertAction.ForceOpType` | src/main/java/org/elasticsearch/rest/action/index/RestPercosertAction.java:73 | the registered handler sets op_type to `percosert` and changes no other parameter |
| `RestPercosertAction.HandleCreate` | src/main/java/org/elasticsearch/rest/action/index/RestPercosertAction.java:69-76 | the registered handler behaves as the main handler on the request with op_type forced |
| `PercosertProperties.IndexCalledExactlyWhen` | src/main/java/org/elasticsearch/rest/action/index/RestPercosertAction.java:91-148 | the index call happens at most once. It happens exactly when four things hold: percolation succeeded; the request built; the op_type check did not end the request; and replication and consistency parsed. |
| `PercosertProperties.ResponsesPerRequest` | src/main/java/org/elasticsearch/rest/action/index/RestPercosertAction.java:126-200 | every request gets at least one response attempt. At most one response is delivered (at most two attempted), except that a rejected op_type adds the BAD_REQUEST (then at most two delivered and three attempted). |
| `PercosertProperties.PercolateFailureShortCircuits` | src/main/java/org/elasticsearch/rest/action/index/RestPercosertAction.java:193-200 | a failed percolation gets exactly one error response carrying the failure, and the index call never happens |
| `PercosertProperties.PercolateOnceAndFirst` | src/main/java/org/elasticsearch/rest/action/index/RestPercosertAction.java:81-91 | the percolate call is the first event and the only percolate call. It percolates the request body on the request's index and type. |
| `PercosertProperties.IndexedDocument` | src/main/java/org/elasticsearch/rest/action/index/RestPercosertAction.java:81-118 | an index call implies percolation succeeded. Its document is the rewrite of the very body that was percolated: no `query` key, and `percosert` holds the percolate matches in order. Every other submitted key keeps its value, and no key is added. It targets the REST index, type and id. |
| `PercosertProperties.IndexedWriteOptions` | src/main/java/org/elasticsearch/rest/action/index/RestPercosertAction.java:103-147 | the index call's setter log is exactly the built request's calls, then INDEX when op_type is `percosert`, then the write options, so no value is overridden. ttl, replication and consistency are set exactly when supplied, with their values. Routing is set before parent, and the timeout is the given one or the default. Timestamp, refresh, version, version type and the percolate flag reach the call as given. CREATE is never requested. |
| `PercosertProperties.ResponseOrigins` | src/main/java/org/elasticsearch/rest/action/index/RestPercosertAction.java:126-200 | every response is one of three: the success response of the index response, the op_type rejection, or the error response of an exception the handler caught. Caught exceptions are the percolate failure, the build failure, the replication or consistency failure, the index failure, or a channel fault on the first or second send. After the index call, its listener answers with the success response or with the index failure. |
| `PercosertProperties.FieldResponseStatuses` | src/main/java/org/elasticsearch/rest/action/index/RestPercosertAction.java:126-171 | of the responses the handler builds field by field, a CREATED one means an index response with version 1, and a BAD_REQUEST one is the op_type rejection |
| `PercosertProperties.RejectedOpTypeKeepsGoing` | src/main/java/org/elasticsearch/rest/action/index/RestPercosertAction.java:126-148 | a rejected op_type's BAD_REQUEST is the first response. The index call still happens exactly when that send succeeds and the write options parse. An IOException from that send ends the request. Any other exception from that send is answered with its own error response, and the request ends. |
| `PercosertProperties.BuildFailureAnswered` | src/main/java/org/elasticsearch/rest/action/index/RestPercosertAction.java:100-125 | when building the index request throws (ttl, body, timeout, version or version_type), the whole handling is the percolate call plus one error response carrying that exception |
| `PercosertProperties.WriteOptionsFailureAnswered` | src/main/java/org/elasticsearch/rest/action/index/RestPercosertAction.java:140-147 | when replication or consistency fails to parse, the handling ends with one error response carrying that exception, after the BAD_REQUEST if op_type was rejected, and nothing is indexed |
| `PercosertProperties.IndexListenerAnswers` | src/main/java/org/elasticsearch/rest/action/index/RestPercosertAction.java:148-184 | the index listener's answer ends the handling: the error response for the index failure, or the success response. If the channel throws on the success response, what it threw is answered with its own error response. |
| `PercosertProperties.CreateRouteNeverRejects` | src/main/java/org/elasticsearch/rest/action/index/RestPercosertAction.java:69-76 | through the registered routes the op_type rejection is never sent. Every response is the success response or an error response, and at most one response is delivered. |
| `PercosertProperties.CreateRouteIndexesWithIndexOp` | src/main/java/org/elasticsearch/rest/action/index/RestPercosertAction.java:73 | through the registered routes every index call asks for the INDEX op type and never for CREATE |

## Left out

- Route registration and the HTTP method and path table (lines 65-66): routing plumbing. Only the forced op_type of the registered handler is modelled.
- Threading flags and `prefer_local` (lines 82-90): they do not change what the handler does. The percolate call records the index, the type and the percolated document.
- The percolated document is the parse outcome of the request body, not its raw bytes.
- The listeners run as sequential steps after the handler returns. If an exception escapes a listener's onFailure (anything but an IOException from sending), processing of that request ends. A re-entry through a synchronous callback is not modelled.
- Logging (lines 72, 96-98, 135, 182, 197): output only. The loop at lines 96-98 only logs.
- JSON parsing and rendering: the body is a `map<string, Value>`, or the exception the parser throws, and insertion order is not kept. The success body is an ordered list of fields. How an exception is rendered is not part of this model: each exception carries the status it maps to as an unconstrained value. Floating-point values are not modelled either.
- Parsing of ttl, timeout, version, version_type, replication and consistency: each parameter carries its parse outcome (absent, the parsed value, or the exception). Refresh parsing does not throw, so it is an optional flag.
- IndexRequest internals: how `parent` sets routing, the default op type and refresh flag, and the value of `DEFAULT_TIMEOUT`. The setter calls are recorded in call order instead. The raw source set at line 109 is replaced at line 118, so only the final source is kept.
- Exception classes: only IOException is told apart from other exceptions, because the handler catches IOException alone at line 134. A failure to build a response counts as the channel throwing for that response.
- The percolate and index engines: their outcomes are inputs.
