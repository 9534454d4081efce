/** The percolate-then-index handler: percolate the submitted document, and
    from the percolate success callback index the rewritten document, then
    answer through the channel. The asynchronous callbacks run as sequential
    steps driven by the collaborators' outcomes. */
module RestPercosertAction {
  import opened Wrappers
  import opened Json
  import opened Rest
  import opened DocumentRewrite
  import opened ResponseComposition
  import opened IndexRequestAssembly

  /** What the collaborators do for one request: the percolate result (the
      matches, in the order returned) or its failure, the index result or its
      failure, and for the n-th response the handler sends, whether the channel
      (building or sending the response) throws. Sends beyond the end of
      `channel` succeed. */
  datatype Collaborators = Collaborators(
    percolate: Result<seq<string>, Exception>,
    index: Result<IndexResponse, Exception>,
    channel: seq<Option<Exception>>)

  /** What the handler does, in order. The percolate call records the
      document it percolates: the request body, as its parse outcome. */
  datatype Event =
    | PercolateCalled(index: string, typeName: string, document: Result<map<string, Value>, Exception>)
    | IndexCalled(request: IndexRequest)
    | Sent(response: RestResponse)
    | SendFailed(response: RestResponse, error: Exception)

  /** Whether the channel throws on the n-th response. */
  function Fault(channel: seq<Option<Exception>>, n: nat): Option<Exception>
  {
    if n < |channel| then channel[n] else None
  }

  /** The n-th response: delivered, or the channel throws. */
  function Send(r: RestResponse, channel: seq<Option<Exception>>, n: nat): Event
  {
    match Fault(channel, n)
    case None => Sent(r)
    case Some(e) => SendFailed(r, e)
  }

  /** The listeners' onFailure: one error response for the exception. A failure
      to send it is logged and ends the request. */
  function Respond(e: Exception, channel: seq<Option<Exception>>, n: nat): seq<Event>
  {
    [Send(ThrowableResponse(e), channel, n)]
  }

  /** Everything the handler does for one request, with the collaborators'
      outcomes given. */
  function Handled(req: RestRequest, env: Collaborators): (t: seq<Event>)
    ensures |t| >= 2 && t[0] == PercolateCalled(req.index, req.typeName, req.content)
  {
    [PercolateCalled(req.index, req.typeName, req.content)] +
    match env.percolate
    case Failure(e) => Respond(e, env.channel, 0)
    case Success(matches) => AfterPercolate(req, matches, env)
  }

  /** The percolate success callback: build the index request, check op_type,
      add the write options, index. Exceptions thrown while building go to the
      percolate listener's onFailure. */
  function AfterPercolate(req: RestRequest, matches: seq<string>, env: Collaborators): (t: seq<Event>)
    ensures |t| >= 1
  {
    match PrepareIndexRequest(req, matches)
    case Failure(e) => Respond(e, env.channel, 0)
    case Success(ir) =>
      match CheckOpType(req.opType)
      case Unspecified => Dispatch(req, ir, env, 0)
      case IndexOp => Dispatch(req, ir.(settings := ir.settings + [SetOpType(Index)]), env, 0)
      case Rejected(s) =>
        var bad := BadRequestResponse(s);
        match Fault(env.channel, 0)
        case None => [Sent(bad)] + Dispatch(req, ir, env, 1)
        case Some(IOException(m, st)) => [SendFailed(bad, IOException(m, st))]
        case Some(e) => [SendFailed(bad, e)] + Respond(e, env.channel, 1)
  }

  /** From the write options to the answer; `n` responses were sent before. */
  function Dispatch(req: RestRequest, ir: IndexRequest, env: Collaborators, n: nat): (t: seq<Event>)
    ensures |t| >= 1
  {
    match WriteOptions(req)
    case Failure(e) => Respond(e, env.channel, n)
    case Success(options) =>
      [IndexCalled(ir.(settings := ir.settings + options))] +
      match env.index
      case Failure(e) => Respond(e, env.channel, n)
      case Success(response) =>
        match Fault(env.channel, n)
        case None => [Sent(SuccessResponse(response))]
        case Some(e) => [SendFailed(SuccessResponse(response), e)] + Respond(e, env.channel, n + 1)
  }

  /** The handler, step by step: the percolate call, then its listener. */
  method HandleRequest(request: RestRequest, env: Collaborators) returns (trace: seq<Event>)
    ensures trace == Handled(request, env)
  {
    trace := [PercolateCalled(request.index, request.typeName, request.content)];
    match env.percolate {
      case Failure(e) =>
        trace := trace + Respond(e, env.channel, 0);
      case Success(percResponse) =>
        var events := OnPercolateResponse(request, percResponse, env);
        trace := trace + events;
    }
  }

  /** The percolate success callback: build the index request, check op_type,
      then hand over to the index step. */
  method OnPercolateResponse(request: RestRequest, percResponse: seq<string>, env: Collaborators)
    returns (events: seq<Event>)
    ensures events == AfterPercolate(request, percResponse, env)
  {
    var built := BuildIndexRequest(request, percResponse);
    if built.Failure? {
      events := Respond(built.error, env.channel, 0);
      return;
    }
    var indexRequest := built.value;
    var sends: nat := 0;
    events := [];
    if request.opType.Some? {
      if request.opType.value == PERCOSERT_OP_TYPE {
        indexRequest := indexRequest.(settings := indexRequest.settings + [SetOpType(Index)]);
      } else {
        var bad := BadRequestResponse(request.opType.value);
        var thrown := Fault(env.channel, sends);
        events := [Send(bad, env.channel, sends)];
        sends := sends + 1;
        if thrown.Some? {
          if thrown.value.IOException? {
            return;
          }
          events := events + Respond(thrown.value, env.channel, sends);
          return;
        }
      }
    }
    var rest := SubmitIndexRequest(request, indexRequest, env, sends);
    events := events + rest;
  }

  /** The setters on a new index request and the step-by-step rewrite of a
      local copy of the source map, in the handler's order; the first
      exception aborts. */
  method BuildIndexRequest(request: RestRequest, percResponse: seq<string>)
    returns (built: Result<IndexRequest, Exception>)
    ensures built == PrepareIndexRequest(request, percResponse)
  {
    var settings := [Routing(request.routing), Parent(request.parent), Timestamp(request.timestamp)];
    match request.ttl {
      case Malformed(e) =>
        return Failure(e);
      case Given(ms) =>
        settings := settings + [Ttl(ms)];
      case Absent =>
    }
    if request.content.Failure? {
      return Failure(request.content.error);
    }
    var requestMap := request.content.value;
    if QUERY in requestMap {
      requestMap := requestMap - {QUERY};
    }
    requestMap := requestMap[PERCOSERT := StringArray(percResponse)];
    if request.timeout.Malformed? {
      return Failure(request.timeout.error);
    }
    settings := settings + [Timeout(TimeoutOf(request.timeout)), Refresh(request.refresh)];
    if request.version.Failure? {
      return Failure(request.version.error);
    }
    settings := settings + [Version(request.version.value)];
    if request.versionType.Malformed? {
      return Failure(request.versionType.error);
    }
    var versionType := if request.versionType.Given? then Some(request.versionType.value) else None;
    settings := settings + [VersionTypeSetting(versionType), Percolate(request.percolate)];
    assert settings == InitialSettings(request, request.version.value, versionType);
    assert requestMap == Rewrite(request.content.value, percResponse);
    built := Success(IndexRequest(request.index, request.typeName, request.id, requestMap, settings));
  }

  /** Replication and consistency, the index call and the index listener;
      `sends` responses were sent before. */
  method SubmitIndexRequest(request: RestRequest, indexRequest: IndexRequest, env: Collaborators, sends: nat)
    returns (events: seq<Event>)
    ensures events == Dispatch(request, indexRequest, env, sends)
  {
    var settings := indexRequest.settings;
    if request.replication.Malformed? {
      return Respond(request.replication.error, env.channel, sends);
    }
    if request.replication.Given? {
      settings := settings + [Replication(request.replication.value)];
    }
    if request.consistency.Malformed? {
      return Respond(request.consistency.error, env.channel, sends);
    }
    if request.consistency.Given? {
      settings := settings + [Consistency(request.consistency.value)];
    }
    assert settings == indexRequest.settings + WriteOptions(request).value;
    events := [IndexCalled(indexRequest.(settings := settings))];
    match env.index {
      case Failure(e) =>
        events := events + Respond(e, env.channel, sends);
      case Success(response) =>
        var ok := ComposeSuccess(response);
        var thrown := Fault(env.channel, sends);
        events := events + [Send(ok, env.channel, sends)];
        if thrown.Some? {
          events := events + Respond(thrown.value, env.channel, sends + 1);
        }
    }
  }

  /** The request as the registered routes pass it on: op_type forced to
      `percosert`, every other parameter as received. */
  function ForceOpType(req: RestRequest): (r: RestRequest)
    ensures r.opType == Some(PERCOSERT_OP_TYPE)
    ensures r.(opType := req.opType) == req
  {
    req.(opType := Some(PERCOSERT_OP_TYPE))
  }

  /** The handler registered for both PUT routes. */
  method HandleCreate(request: RestRequest, env: Collaborators) returns (trace: seq<Event>)
    ensures trace == Handled(ForceOpType(request), env)
  {
    var forced := request.(opType := Some(PERCOSERT_OP_TYPE));
    trace := HandleRequest(forced, env);
  }
}
