/** What the handler guarantees over every combination of collaborator
    outcomes: sequencing, failure propagation, the indexed document, the
    write options, the responses and the op_type behaviour. */
module PercosertProperties {
  import opened Wrappers
  import opened Json
  import opened Rest
  import opened DocumentRewrite
  import opened ResponseComposition
  import opened IndexRequestAssembly
  import opened RestPercosertAction

  /** Number of percolate calls in a trace. */
  function PercolateCalls(t: seq<Event>): nat
  {
    if t == [] then 0 else (if t[0].PercolateCalled? then 1 else 0) + PercolateCalls(t[1..])
  }

  /** Number of index calls in a trace. */
  function IndexCalls(t: seq<Event>): nat
  {
    if t == [] then 0 else (if t[0].IndexCalled? then 1 else 0) + IndexCalls(t[1..])
  }

  /** Number of responses the handler tried to send. */
  function Attempts(t: seq<Event>): nat
  {
    if t == [] then 0 else (if t[0].Sent? || t[0].SendFailed? then 1 else 0) + Attempts(t[1..])
  }

  /** Number of responses the channel delivered. */
  function Delivered(t: seq<Event>): nat
  {
    if t == [] then 0 else (if t[0].Sent? then 1 else 0) + Delivered(t[1..])
  }

  lemma {:induction false} CountsAppend(a: seq<Event>, b: seq<Event>)
    ensures PercolateCalls(a + b) == PercolateCalls(a) + PercolateCalls(b)
    ensures IndexCalls(a + b) == IndexCalls(a) + IndexCalls(b)
    ensures Attempts(a + b) == Attempts(a) + Attempts(b)
    ensures Delivered(a + b) == Delivered(a) + Delivered(b)
  {
    if a == [] {
      assert a + b == b;
    } else {
      assert (a + b)[0] == a[0];
      assert (a + b)[1..] == a[1..] + b;
      CountsAppend(a[1..], b);
    }
  }

  /** Counts of a one-event trace. */
  lemma CountsSingle(e: Event)
    ensures PercolateCalls([e]) == (if e.PercolateCalled? then 1 else 0)
    ensures IndexCalls([e]) == (if e.IndexCalled? then 1 else 0)
    ensures Attempts([e]) == (if e.Sent? || e.SendFailed? then 1 else 0)
    ensures Delivered([e]) == (if e.Sent? then 1 else 0)
  {
    assert [e][1..] == [];
  }

  /** Counts of a listener's onFailure: one attempted response, no index call. */
  lemma RespondCounts(e: Exception, channel: seq<Option<Exception>>, n: nat)
    ensures PercolateCalls(Respond(e, channel, n)) == 0
    ensures IndexCalls(Respond(e, channel, n)) == 0
    ensures Attempts(Respond(e, channel, n)) == 1
    ensures Delivered(Respond(e, channel, n)) <= 1
  {
    CountsSingle(Send(ThrowableResponse(e), channel, n));
  }

  /** The counts of the index step: one index call when the write options
      parse, at most two attempted responses and at most one delivered. */
  lemma DispatchCounts(req: RestRequest, ir: IndexRequest, env: Collaborators, n: nat)
    ensures PercolateCalls(Dispatch(req, ir, env, n)) == 0
    ensures IndexCalls(Dispatch(req, ir, env, n)) == (if WriteOptions(req).Success? then 1 else 0)
    ensures 1 <= Attempts(Dispatch(req, ir, env, n)) <= 2
    ensures Delivered(Dispatch(req, ir, env, n)) <= 1
  {
    match WriteOptions(req)
    case Failure(e) =>
      RespondCounts(e, env.channel, n);
    case Success(options) =>
      var call := [IndexCalled(ir.(settings := ir.settings + options))];
      CountsSingle(call[0]);
      match env.index
      case Failure(e) =>
        RespondCounts(e, env.channel, n);
        CountsAppend(call, Respond(e, env.channel, n));
      case Success(response) =>
        match Fault(env.channel, n)
        case None =>
          CountsSingle(Sent(SuccessResponse(response)));
          CountsAppend(call, [Sent(SuccessResponse(response))]);
        case Some(e) =>
          var failed := [SendFailed(SuccessResponse(response), e)];
          CountsSingle(failed[0]);
          RespondCounts(e, env.channel, n + 1);
          CountsAppend(failed, Respond(e, env.channel, n + 1));
          CountsAppend(call, failed + Respond(e, env.channel, n + 1));
  }

  /** The index call happens exactly when percolation succeeded, the index
      request could be built, the op_type check did not end the request (only a
      rejected op_type whose BAD_REQUEST response throws an IOException does),
      and the replication and consistency parameters parse; and it happens at
      most once. */
  lemma IndexCalledExactlyWhen(req: RestRequest, env: Collaborators)
    ensures IndexCalls(Handled(req, env)) <= 1
    ensures IndexCalls(Handled(req, env)) == 1 <==>
      && env.percolate.Success?
      && PrepareIndexRequest(req, env.percolate.value).Success?
      && !(CheckOpType(req.opType).Rejected? && Fault(env.channel, 0).Some?)
      && WriteOptions(req).Success?
  {
    var t := Handled(req, env);
    var head := [PercolateCalled(req.index, req.typeName, req.content)];
    CountsSingle(head[0]);
    match env.percolate
    case Failure(e) =>
      RespondCounts(e, env.channel, 0);
      CountsAppend(head, Respond(e, env.channel, 0));
    case Success(matches) =>
      AfterPercolateCounts(req, matches, env);
      CountsAppend(head, AfterPercolate(req, matches, env));
  }

  lemma AfterPercolateCounts(req: RestRequest, matches: seq<string>, env: Collaborators)
    ensures PercolateCalls(AfterPercolate(req, matches, env)) == 0
    ensures IndexCalls(AfterPercolate(req, matches, env)) ==
      (if PrepareIndexRequest(req, matches).Success?
          && !(CheckOpType(req.opType).Rejected? && Fault(env.channel, 0).Some?)
          && WriteOptions(req).Success?
       then 1 else 0)
    ensures 1 <= Attempts(AfterPercolate(req, matches, env))
    ensures Attempts(AfterPercolate(req, matches, env)) <= (if CheckOpType(req.opType).Rejected? then 3 else 2)
    ensures Delivered(AfterPercolate(req, matches, env)) <= (if CheckOpType(req.opType).Rejected? then 2 else 1)
  {
    match PrepareIndexRequest(req, matches)
    case Failure(e) =>
      RespondCounts(e, env.channel, 0);
    case Success(ir) =>
      match CheckOpType(req.opType)
      case Unspecified =>
        DispatchCounts(req, ir, env, 0);
      case IndexOp =>
        DispatchCounts(req, ir.(settings := ir.settings + [SetOpType(Index)]), env, 0);
      case Rejected(s) =>
        var bad := BadRequestResponse(s);
        match Fault(env.channel, 0)
        case None =>
          CountsSingle(Sent(bad));
          DispatchCounts(req, ir, env, 1);
          CountsAppend([Sent(bad)], Dispatch(req, ir, env, 1));
        case Some(IOException(m, st)) =>
          CountsSingle(SendFailed(bad, IOException(m, st)));
        case Some(e) =>
          CountsSingle(SendFailed(bad, e));
          RespondCounts(e, env.channel, 1);
          CountsAppend([SendFailed(bad, e)], Respond(e, env.channel, 1));
  }

  /** Every request gets at least one response attempt. At most one response
      is delivered, and at most two attempted, unless the op_type is rejected:
      then the BAD_REQUEST response comes on top (up to three attempts, two
      delivered). */
  lemma ResponsesPerRequest(req: RestRequest, env: Collaborators)
    ensures 1 <= Attempts(Handled(req, env))
    ensures Attempts(Handled(req, env)) <= (if CheckOpType(req.opType).Rejected? then 3 else 2)
    ensures Delivered(Handled(req, env)) <= (if CheckOpType(req.opType).Rejected? then 2 else 1)
  {
    var head := [PercolateCalled(req.index, req.typeName, req.content)];
    CountsSingle(head[0]);
    match env.percolate
    case Failure(e) =>
      RespondCounts(e, env.channel, 0);
      CountsAppend(head, Respond(e, env.channel, 0));
    case Success(matches) =>
      AfterPercolateCounts(req, matches, env);
      CountsAppend(head, AfterPercolate(req, matches, env));
  }

  /** A failed percolation gets exactly one error response carrying the
      failure, and nothing is indexed. */
  lemma PercolateFailureShortCircuits(req: RestRequest, env: Collaborators)
    requires env.percolate.Failure?
    ensures Handled(req, env) ==
      [PercolateCalled(req.index, req.typeName, req.content), Send(ThrowableResponse(env.percolate.error), env.channel, 0)]
    ensures IndexCalls(Handled(req, env)) == 0 && Attempts(Handled(req, env)) == 1
  {
    var head := [PercolateCalled(req.index, req.typeName, req.content)];
    CountsSingle(head[0]);
    RespondCounts(env.percolate.error, env.channel, 0);
    CountsAppend(head, Respond(env.percolate.error, env.channel, 0));
  }

  /** The percolate call comes first, percolates the request body, and is the
      only one. */
  lemma PercolateOnceAndFirst(req: RestRequest, env: Collaborators)
    ensures Handled(req, env)[0] == PercolateCalled(req.index, req.typeName, req.content)
    ensures PercolateCalls(Handled(req, env)) == 1
  {
    var head := [PercolateCalled(req.index, req.typeName, req.content)];
    CountsSingle(head[0]);
    match env.percolate
    case Failure(e) =>
      RespondCounts(e, env.channel, 0);
      CountsAppend(head, Respond(e, env.channel, 0));
    case Success(matches) =>
      AfterPercolateCounts(req, matches, env);
      CountsAppend(head, AfterPercolate(req, matches, env));
  }

  /** The document handed to the index call is the rewrite of the very body
      that was percolated, with the matches percolation returned: no `query`, `percosert` bound
      to the matches in order (replacing any value the caller put there), every
      other key unchanged and no key added. */
  lemma IndexedDocument(req: RestRequest, env: Collaborators, ir: IndexRequest)
    requires IndexCalled(ir) in Handled(req, env)
    ensures env.percolate.Success? && req.content.Success?
    ensures ir.index == req.index && ir.typeName == req.typeName && ir.id == req.id
    ensures ir.source == Rewrite(req.content.value, env.percolate.value)
    ensures Handled(req, env)[0].document.Success?
    ensures ir.source == Rewrite(Handled(req, env)[0].document.value, env.percolate.value)
    ensures QUERY !in ir.source
    ensures PERCOSERT in ir.source && ir.source[PERCOSERT] == StringArray(env.percolate.value)
    ensures ir.source.Keys == req.content.value.Keys - {QUERY} + {PERCOSERT}
    ensures forall k :: k in req.content.value && k != QUERY && k != PERCOSERT ==>
      ir.source[k] == req.content.value[k]
  {
    var prepared := IndexCallOfHandled(req, env, ir);
  }

  /** The write options of the index call are set only when supplied: ttl only
      when the parameter is present, replication and consistency only when
      given, routing before parent, and the default timeout when none is given.
      Timestamp, refresh, version, version type and the percolate flag pass
      through as given. Its op type is only ever set to INDEX, and only when
      op_type is `percosert`. The log is exactly the prepared calls, the op
      type and the write options, so no later call overrides an earlier one. */
  lemma IndexedWriteOptions(req: RestRequest, env: Collaborators, ir: IndexRequest)
    requires IndexCalled(ir) in Handled(req, env)
    ensures SetsTtl(ir.settings) <==> req.ttl.Given?
    ensures req.ttl.Given? ==> Ttl(req.ttl.value) in ir.settings
    ensures SetsReplication(ir.settings) <==> req.replication.Given?
    ensures req.replication.Given? ==> Replication(req.replication.value) in ir.settings
    ensures SetsConsistency(ir.settings) <==> req.consistency.Given?
    ensures req.consistency.Given? ==> Consistency(req.consistency.value) in ir.settings
    ensures Precedes(ir.settings, Routing(req.routing), Parent(req.parent))
    ensures Timeout(TimeoutOf(req.timeout)) in ir.settings
    ensures Timestamp(req.timestamp) in ir.settings && Refresh(req.refresh) in ir.settings
    ensures req.version.Success? && Version(req.version.value) in ir.settings
    ensures Parse(req.versionType).Success? && VersionTypeSetting(Parse(req.versionType).value) in ir.settings
    ensures Percolate(req.percolate) in ir.settings
    ensures SetsOpType(ir.settings) <==> req.opType == Some(PERCOSERT_OP_TYPE)
    ensures SetOpType(Create) !in ir.settings
    ensures WriteOptions(req).Success?
    ensures ir.settings == InitialSettings(req, req.version.value, Parse(req.versionType).value)
                           + (if CheckOpType(req.opType) == IndexOp then [SetOpType(Index)] else [])
                           + WriteOptions(req).value
  {
    var prepared := IndexCallOfHandled(req, env, ir);
    AssembledWriteOptions(req, prepared, env.percolate.value, ir.settings);
  }

  /** The settings of the prepared request, extended as the handler extends
      them, have the properties IndexedWriteOptions states. */
  lemma AssembledWriteOptions(req: RestRequest, prepared: IndexRequest, matches: seq<string>, settings: seq<Setting>)
    requires PrepareIndexRequest(req, matches) == Success(prepared)
    requires WriteOptions(req).Success?
    requires settings == prepared.settings
                         + (if CheckOpType(req.opType) == IndexOp then [SetOpType(Index)] else [])
                         + WriteOptions(req).value
    ensures SetsTtl(settings) <==> req.ttl.Given?
    ensures req.ttl.Given? ==> Ttl(req.ttl.value) in settings
    ensures SetsReplication(settings) <==> req.replication.Given?
    ensures req.replication.Given? ==> Replication(req.replication.value) in settings
    ensures SetsConsistency(settings) <==> req.consistency.Given?
    ensures req.consistency.Given? ==> Consistency(req.consistency.value) in settings
    ensures Precedes(settings, Routing(req.routing), Parent(req.parent))
    ensures Timeout(TimeoutOf(req.timeout)) in settings
    ensures Timestamp(req.timestamp) in settings && Refresh(req.refresh) in settings
    ensures Version(req.version.value) in settings
    ensures VersionTypeSetting(Parse(req.versionType).value) in settings
    ensures Percolate(req.percolate) in settings
    ensures SetsOpType(settings) <==> req.opType == Some(PERCOSERT_OP_TYPE)
    ensures SetOpType(Create) !in settings
    ensures settings == InitialSettings(req, req.version.value, Parse(req.versionType).value)
                        + (if CheckOpType(req.opType) == IndexOp then [SetOpType(Index)] else [])
                        + WriteOptions(req).value
  {
    PreparedSettings(req, matches);
    WriteOptionsSettings(req);
    var opType := if CheckOpType(req.opType) == IndexOp then [SetOpType(Index)] else [];
    ComposedSettings(req, prepared.settings, opType, WriteOptions(req).value);
  }

  /** The settings facts of the three parts carry over to their concatenation. */
  lemma ComposedSettings(req: RestRequest, a: seq<Setting>, o: seq<Setting>, w: seq<Setting>)
    requires && (SetsTtl(a) <==> req.ttl.Given?)
             && (req.ttl.Given? ==> Ttl(req.ttl.value) in a)
             && Precedes(a, Routing(req.routing), Parent(req.parent))
             && Timeout(TimeoutOf(req.timeout)) in a
             && !SetsOpType(a) && !SetsReplication(a) && !SetsConsistency(a)
    requires o == [] || o == [SetOpType(Index)]
    requires && (SetsReplication(w) <==> req.replication.Given?)
             && (req.replication.Given? ==> Replication(req.replication.value) in w)
             && (SetsConsistency(w) <==> req.consistency.Given?)
             && (req.consistency.Given? ==> Consistency(req.consistency.value) in w)
             && !SetsTtl(w) && !SetsOpType(w)
    ensures var s := a + o + w;
      && (SetsTtl(s) <==> req.ttl.Given?)
      && (req.ttl.Given? ==> Ttl(req.ttl.value) in s)
      && (SetsReplication(s) <==> req.replication.Given?)
      && (req.replication.Given? ==> Replication(req.replication.value) in s)
      && (SetsConsistency(s) <==> req.consistency.Given?)
      && (req.consistency.Given? ==> Consistency(req.consistency.value) in s)
      && Precedes(s, Routing(req.routing), Parent(req.parent))
      && Timeout(TimeoutOf(req.timeout)) in s
      && (SetsOpType(s) <==> o != [])
      && SetOpType(Create) !in s
  {
    ComposedKinds(a, o, w);
    PrecedesAppend(a, o, Routing(req.routing), Parent(req.parent));
    PrecedesAppend(a + o, w, Routing(req.routing), Parent(req.parent));
    NotSetNotIn(a, SetOpType(Create));
    NotSetNotIn(w, SetOpType(Create));
  }

  /** Which setter kinds the concatenation sets: those of its parts, with the
      middle part contributing the op type alone. */
  lemma ComposedKinds(a: seq<Setting>, o: seq<Setting>, w: seq<Setting>)
    requires o == [] || o == [SetOpType(Index)]
    ensures Sets(a + o + w, TtlSetter) <==> Sets(a, TtlSetter) || Sets(w, TtlSetter)
    ensures Sets(a + o + w, ReplicationSetter) <==> Sets(a, ReplicationSetter) || Sets(w, ReplicationSetter)
    ensures Sets(a + o + w, ConsistencySetter) <==> Sets(a, ConsistencySetter) || Sets(w, ConsistencySetter)
    ensures Sets(a + o + w, OpTypeSetter) <==> Sets(a, OpTypeSetter) || o != [] || Sets(w, OpTypeSetter)
  {
    SetsThree(a, o, w, TtlSetter);
    SetsThree(a, o, w, OpTypeSetter);
    SetsThree(a, o, w, ReplicationSetter);
    SetsThree(a, o, w, ConsistencySetter);
    assert o != [] ==> KindOf(o[0]) == OpTypeSetter;
  }

  /** A setter call whose kind is never set is not made. */
  lemma NotSetNotIn(s: seq<Setting>, x: Setting)
    requires !Sets(s, KindOf(x))
    ensures x !in s
  {
  }

  /** An index call in a handled request carries the request prepared from the
      percolate matches, the INDEX op type when op_type is `percosert`, and the
      write options. */
  lemma IndexCallOfHandled(req: RestRequest, env: Collaborators, ir: IndexRequest)
    returns (prepared: IndexRequest)
    requires IndexCalled(ir) in Handled(req, env)
    ensures env.percolate.Success?
    ensures PrepareIndexRequest(req, env.percolate.value) == Success(prepared)
    ensures WriteOptions(req).Success?
    ensures ir == prepared.(settings := prepared.settings
                                        + (if CheckOpType(req.opType) == IndexOp then [SetOpType(Index)] else [])
                                        + WriteOptions(req).value)
  {
    assert IndexCalled(ir) !in [PercolateCalled(req.index, req.typeName, req.content)];
    if env.percolate.Failure? {
      assert false;
    }
    assert IndexCalled(ir) in AfterPercolate(req, env.percolate.value, env);
    prepared := IndexCallOfAfterPercolate(req, env.percolate.value, env, ir);
  }

  /** An index call in the percolate success callback carries the prepared
      request, the INDEX op type when op_type is `percosert`, and the write
      options. */
  lemma IndexCallOfAfterPercolate(req: RestRequest, matches: seq<string>, env: Collaborators, ir: IndexRequest)
    returns (prepared: IndexRequest)
    requires IndexCalled(ir) in AfterPercolate(req, matches, env)
    ensures PrepareIndexRequest(req, matches) == Success(prepared)
    ensures WriteOptions(req).Success?
    ensures ir == prepared.(settings := prepared.settings
                                        + (if CheckOpType(req.opType) == IndexOp then [SetOpType(Index)] else [])
                                        + WriteOptions(req).value)
  {
    match PrepareIndexRequest(req, matches)
    case Failure(e) =>
      assert false;
    case Success(p) =>
      prepared := p;
      match CheckOpType(req.opType)
      case Unspecified =>
        IndexCallOfDispatch(req, p, env, 0, ir);
        assert p.settings + [] == p.settings;
      case IndexOp =>
        IndexCallOfDispatch(req, p.(settings := p.settings + [SetOpType(Index)]), env, 0, ir);
      case Rejected(s) =>
        var bad := BadRequestResponse(s);
        match Fault(env.channel, 0)
        case None =>
          assert IndexCalled(ir) in Dispatch(req, p, env, 1);
          IndexCallOfDispatch(req, p, env, 1, ir);
          assert p.settings + [] == p.settings;
        case Some(IOException(m, st)) =>
          assert false;
        case Some(e) =>
          assert false;
  }

  /** An index call in the index step carries the request handed to it plus
      the write options. */
  lemma IndexCallOfDispatch(req: RestRequest, prior: IndexRequest, env: Collaborators, n: nat, ir: IndexRequest)
    requires IndexCalled(ir) in Dispatch(req, prior, env, n)
    ensures WriteOptions(req).Success?
    ensures ir == prior.(settings := prior.settings + WriteOptions(req).value)
  {
    match WriteOptions(req)
    case Failure(e) =>
      assert false;
    case Success(options) =>
      var call := IndexCalled(prior.(settings := prior.settings + options));
      match env.index
      case Failure(e) =>
        assert IndexCalled(ir) !in Respond(e, env.channel, n);
      case Success(response) =>
        match Fault(env.channel, n)
        case None =>
        case Some(e) =>
          assert IndexCalled(ir) !in Respond(e, env.channel, n + 1);
  }

  /** Appending setter calls keeps earlier ones in their order. */
  lemma PrecedesAppend(a: seq<Setting>, b: seq<Setting>, x: Setting, y: Setting)
    requires Precedes(a, x, y)
    ensures Precedes(a + b, x, y)
  {
    var i, j :| 0 <= i < j < |a| && a[i] == x && a[j] == y;
    assert (a + b)[i] == x && (a + b)[j] == y;
  }

  /** A setter kind is set in a concatenation exactly when it is set in
      either part. */
  lemma SetsAppend(a: seq<Setting>, b: seq<Setting>, k: SetterKind)
    ensures Sets(a + b, k) <==> Sets(a, k) || Sets(b, k)
  {
    if Sets(a + b, k) {
      var i :| 0 <= i < |a + b| && KindOf((a + b)[i]) == k;
      if i < |a| { assert KindOf(a[i]) == k; } else { assert KindOf(b[i - |a|]) == k; }
    }
    if Sets(a, k) {
      var i :| 0 <= i < |a| && KindOf(a[i]) == k;
      assert KindOf((a + b)[i]) == k;
    }
    if Sets(b, k) {
      var i :| 0 <= i < |b| && KindOf(b[i]) == k;
      assert KindOf((a + b)[|a| + i]) == k;
    }
  }

  lemma SetsThree(a: seq<Setting>, b: seq<Setting>, c: seq<Setting>, k: SetterKind)
    ensures Sets(a + b + c, k) <==> Sets(a, k) || Sets(b, k) || Sets(c, k)
  {
    SetsAppend(a, b, k);
    SetsAppend(a + b, c, k);
  }

  /** The responses the handler tried to send, in order. */
  function Responses(t: seq<Event>): seq<RestResponse>
  {
    if t == [] then []
    else (if t[0].Sent? || t[0].SendFailed? then [t[0].response] else []) + Responses(t[1..])
  }

  lemma {:induction false} ResponsesAppend(a: seq<Event>, b: seq<Event>)
    ensures Responses(a + b) == Responses(a) + Responses(b)
  {
    if a == [] {
      assert a + b == b;
    } else {
      var head := if a[0].Sent? || a[0].SendFailed? then [a[0].response] else [];
      assert (a + b)[0] == a[0];
      assert (a + b)[1..] == a[1..] + b;
      assert Responses(a + b) == head + Responses(a[1..] + b);
      ResponsesAppend(a[1..], b);
      assert head + (Responses(a[1..]) + Responses(b)) == (head + Responses(a[1..])) + Responses(b);
    }
  }

  lemma ResponsesSingle(e: Event)
    ensures Responses([e]) == (if e.Sent? || e.SendFailed? then [e.response] else [])
  {
    assert [e][1..] == [];
  }

  /** The exceptions the handler catches and answers for a request: the
      percolate failure, the failure to build the index request, the failure
      to parse replication or consistency, the index failure, or what the
      channel throws on the first or second send (a BAD_REQUEST or a success
      response; a fault on an error response is only logged). The per-path
      lemmas below say which of these answers which path. */
  predicate Caught(req: RestRequest, env: Collaborators, e: Exception)
  {
    || env.percolate == Failure(e)
    || (env.percolate.Success? && PrepareIndexRequest(req, env.percolate.value) == Failure(e))
    || WriteOptions(req) == Failure(e)
    || env.index == Failure(e)
    || Fault(env.channel, 0) == Some(e)
    || Fault(env.channel, 1) == Some(e)
  }

  /** Where a response can come from: the success response built from the
      index response (never from the percolate matches), the op_type
      rejection, or the rendering of an exception the handler caught. */
  predicate Explained(req: RestRequest, env: Collaborators, r: RestResponse)
  {
    || (env.index.Success? && r == SuccessResponse(env.index.value))
    || (CheckOpType(req.opType).Rejected? && r == BadRequestResponse(req.opType.value))
    || (r.body.Throwable? && Caught(req, env, r.body.error) && r == ThrowableResponse(r.body.error))
  }

  lemma RespondExplained(req: RestRequest, env: Collaborators, e: Exception, n: nat)
    requires Caught(req, env, e)
    ensures Responses(Respond(e, env.channel, n)) == [ThrowableResponse(e)]
    ensures forall r :: r in Responses(Respond(e, env.channel, n)) ==> Explained(req, env, r)
  {
    ResponsesSingle(Send(ThrowableResponse(e), env.channel, n));
  }

  lemma DispatchExplained(req: RestRequest, ir: IndexRequest, env: Collaborators, n: nat)
    requires n <= 1
    ensures forall r :: r in Responses(Dispatch(req, ir, env, n)) ==> Explained(req, env, r)
    ensures WriteOptions(req).Success? && env.index.Success? ==>
      SuccessResponse(env.index.value) in Responses(Dispatch(req, ir, env, n))
    ensures WriteOptions(req).Success? && env.index.Failure? ==>
      ThrowableResponse(env.index.error) in Responses(Dispatch(req, ir, env, n))
  {
    match WriteOptions(req)
    case Failure(e) =>
      RespondExplained(req, env, e, n);
    case Success(options) =>
      var call := [IndexCalled(ir.(settings := ir.settings + options))];
      ResponsesSingle(call[0]);
      match env.index
      case Failure(e) =>
        RespondExplained(req, env, e, n);
        ResponsesAppend(call, Respond(e, env.channel, n));
      case Success(response) =>
        var ok := SuccessResponse(response);
        match Fault(env.channel, n)
        case None =>
          ResponsesSingle(Sent(ok));
          ResponsesAppend(call, [Sent(ok)]);
        case Some(e) =>
          ResponsesSingle(SendFailed(ok, e));
          RespondExplained(req, env, e, n + 1);
          ResponsesAppend([SendFailed(ok, e)], Respond(e, env.channel, n + 1));
          ResponsesAppend(call, [SendFailed(ok, e)] + Respond(e, env.channel, n + 1));
  }

  lemma AfterPercolateExplained(req: RestRequest, matches: seq<string>, env: Collaborators)
    requires env.percolate == Success(matches)
    ensures forall r :: r in Responses(AfterPercolate(req, matches, env)) ==> Explained(req, env, r)
    ensures PrepareIndexRequest(req, matches).Success?
            && !(CheckOpType(req.opType).Rejected? && Fault(env.channel, 0).Some?)
            && WriteOptions(req).Success? ==>
      (env.index.Success? ==> SuccessResponse(env.index.value) in Responses(AfterPercolate(req, matches, env)))
      && (env.index.Failure? ==> ThrowableResponse(env.index.error) in Responses(AfterPercolate(req, matches, env)))
  {
    match PrepareIndexRequest(req, matches)
    case Failure(e) =>
      RespondExplained(req, env, e, 0);
    case Success(ir) =>
      match CheckOpType(req.opType)
      case Unspecified =>
        DispatchExplained(req, ir, env, 0);
      case IndexOp =>
        DispatchExplained(req, ir.(settings := ir.settings + [SetOpType(Index)]), env, 0);
      case Rejected(s) =>
        RejectedExplained(req, matches, ir, env);
  }

  lemma RejectedExplained(req: RestRequest, matches: seq<string>, ir: IndexRequest, env: Collaborators)
    requires env.percolate == Success(matches)
    requires PrepareIndexRequest(req, matches) == Success(ir)
    requires CheckOpType(req.opType).Rejected?
    ensures forall r :: r in Responses(AfterPercolate(req, matches, env)) ==> Explained(req, env, r)
    ensures Fault(env.channel, 0).None? && WriteOptions(req).Success? ==>
      (env.index.Success? ==> SuccessResponse(env.index.value) in Responses(AfterPercolate(req, matches, env)))
      && (env.index.Failure? ==> ThrowableResponse(env.index.error) in Responses(AfterPercolate(req, matches, env)))
  {
    var bad := BadRequestResponse(req.opType.value);
    assert Explained(req, env, bad);
    match Fault(env.channel, 0)
    case None =>
      ResponsesSingle(Sent(bad));
      DispatchExplained(req, ir, env, 1);
      ResponsesAppend([Sent(bad)], Dispatch(req, ir, env, 1));
    case Some(IOException(m, st)) =>
      ResponsesSingle(SendFailed(bad, IOException(m, st)));
    case Some(e) =>
      ResponsesSingle(SendFailed(bad, e));
      RespondExplained(req, env, e, 1);
      ResponsesAppend([SendFailed(bad, e)], Respond(e, env.channel, 1));
  }

  /** Every response the handler sends is explained: the success response of
      the index response, the op_type rejection, or the error response of an
      exception the handler caught. Once the index call is made, its listener
      answers with the success response or with the error response for the
      index failure. */
  lemma ResponseOrigins(req: RestRequest, env: Collaborators)
    ensures forall r :: r in Responses(Handled(req, env)) ==> Explained(req, env, r)
    ensures IndexCalls(Handled(req, env)) == 1 && env.index.Success? ==>
      SuccessResponse(env.index.value) in Responses(Handled(req, env))
    ensures IndexCalls(Handled(req, env)) == 1 && env.index.Failure? ==>
      ThrowableResponse(env.index.error) in Responses(Handled(req, env))
  {
    var head := [PercolateCalled(req.index, req.typeName, req.content)];
    ResponsesSingle(head[0]);
    IndexCalledExactlyWhen(req, env);
    match env.percolate
    case Failure(e) =>
      RespondExplained(req, env, e, 0);
      ResponsesAppend(head, Respond(e, env.channel, 0));
    case Success(matches) =>
      AfterPercolateExplained(req, matches, env);
      ResponsesAppend(head, AfterPercolate(req, matches, env));
  }

  /** Of the responses the handler builds field by field, a CREATED one is the
      index response with version 1, and a BAD_REQUEST one is the op_type
      rejection (an error response carries whatever status its exception maps
      to). */
  lemma FieldResponseStatuses(req: RestRequest, env: Collaborators)
    ensures forall r :: r in Responses(Handled(req, env)) && r.body.Fields? && r.status == Created ==>
      env.index.Success? && env.index.value.version == 1
    ensures forall r :: r in Responses(Handled(req, env)) && r.body.Fields? && r.status == BadRequest ==>
      CheckOpType(req.opType).Rejected? && r == BadRequestResponse(req.opType.value)
  {
    ResponseOrigins(req, env);
  }

  /** The responses sent before the index step: the BAD_REQUEST when op_type
      is rejected, none otherwise. */
  function SentBefore(req: RestRequest): nat
  {
    if CheckOpType(req.opType).Rejected? then 1 else 0
  }

  /** A request that cannot be built (ttl, body, timeout, version or
      version_type) is answered with exactly one error response carrying the
      exception the build threw. */
  lemma BuildFailureAnswered(req: RestRequest, env: Collaborators)
    requires env.percolate.Success? && PrepareIndexRequest(req, env.percolate.value).Failure?
    ensures Handled(req, env) ==
      [PercolateCalled(req.index, req.typeName, req.content),
       Send(ThrowableResponse(PrepareIndexRequest(req, env.percolate.value).error), env.channel, 0)]
  {
  }

  /** Replication or consistency that fail to parse end the request with one
      error response carrying that exception, after the BAD_REQUEST if op_type
      was rejected; nothing is indexed. */
  lemma WriteOptionsFailureAnswered(req: RestRequest, env: Collaborators)
    requires env.percolate.Success? && PrepareIndexRequest(req, env.percolate.value).Success?
    requires !(CheckOpType(req.opType).Rejected? && Fault(env.channel, 0).Some?)
    requires WriteOptions(req).Failure?
    ensures Handled(req, env) ==
      [PercolateCalled(req.index, req.typeName, req.content)]
      + (if CheckOpType(req.opType).Rejected? then [Sent(BadRequestResponse(req.opType.value))] else [])
      + [Send(ThrowableResponse(WriteOptions(req).error), env.channel, SentBefore(req))]
  {
    var ir := PrepareIndexRequest(req, env.percolate.value).value;
    var last := Send(ThrowableResponse(WriteOptions(req).error), env.channel, SentBefore(req));
    match CheckOpType(req.opType)
    case Unspecified =>
      assert Dispatch(req, ir, env, 0) == [last];
    case IndexOp =>
      assert Dispatch(req, ir.(settings := ir.settings + [SetOpType(Index)]), env, 0) == [last];
    case Rejected(_) =>
      assert Dispatch(req, ir, env, 1) == [last];
  }

  /** The index listener's answer is the last thing the handler does: the
      error response for the index failure; or the success response, followed,
      when the channel throws on it, by the error response for what the channel
      threw. */
  lemma IndexListenerAnswers(req: RestRequest, env: Collaborators)
    requires env.percolate.Success? && PrepareIndexRequest(req, env.percolate.value).Success?
    requires !(CheckOpType(req.opType).Rejected? && Fault(env.channel, 0).Some?)
    requires WriteOptions(req).Success?
    ensures var t := Handled(req, env); var n := SentBefore(req);
      && (env.index.Failure? ==> t[|t| - 1] == Send(ThrowableResponse(env.index.error), env.channel, n))
      && (env.index.Success? && Fault(env.channel, n).None? ==>
            t[|t| - 1] == Sent(SuccessResponse(env.index.value)))
      && (env.index.Success? && Fault(env.channel, n).Some? ==>
            && t[|t| - 2] == SendFailed(SuccessResponse(env.index.value), Fault(env.channel, n).value)
            && t[|t| - 1] == Send(ThrowableResponse(Fault(env.channel, n).value), env.channel, n + 1))
  {
    var prior := ReachesDispatch(req, env.percolate.value, env);
    var d := Dispatch(req, prior, env, SentBefore(req));
    var pre := [PercolateCalled(req.index, req.typeName, req.content)]
      + (if CheckOpType(req.opType).Rejected? then [Sent(BadRequestResponse(req.opType.value))] else []);
    assert Handled(req, env) == pre + d;
    DispatchEnds(req, prior, env, SentBefore(req));
    SuffixOfAppend(pre, d);
  }

  /** When the build succeeds and the op_type check does not end the request,
      the callback is the BAD_REQUEST (if op_type was rejected) followed by the
      index step. */
  lemma ReachesDispatch(req: RestRequest, matches: seq<string>, env: Collaborators) returns (prior: IndexRequest)
    requires PrepareIndexRequest(req, matches).Success?
    requires !(CheckOpType(req.opType).Rejected? && Fault(env.channel, 0).Some?)
    ensures AfterPercolate(req, matches, env) ==
      (if CheckOpType(req.opType).Rejected? then [Sent(BadRequestResponse(req.opType.value))] else [])
      + Dispatch(req, prior, env, SentBefore(req))
  {
    var ir := PrepareIndexRequest(req, matches).value;
    match CheckOpType(req.opType)
    case Unspecified =>
      prior := ir;
    case IndexOp =>
      prior := ir.(settings := ir.settings + [SetOpType(Index)]);
    case Rejected(_) =>
      prior := ir;
  }

  /** The last events of the index step. */
  lemma DispatchEnds(req: RestRequest, ir: IndexRequest, env: Collaborators, n: nat)
    requires WriteOptions(req).Success?
    ensures var d := Dispatch(req, ir, env, n);
      && |d| >= 2
      && (env.index.Failure? ==> d[|d| - 1] == Send(ThrowableResponse(env.index.error), env.channel, n))
      && (env.index.Success? && Fault(env.channel, n).None? ==> d[|d| - 1] == Sent(SuccessResponse(env.index.value)))
      && (env.index.Success? && Fault(env.channel, n).Some? ==>
            && d[|d| - 2] == SendFailed(SuccessResponse(env.index.value), Fault(env.channel, n).value)
            && d[|d| - 1] == Send(ThrowableResponse(Fault(env.channel, n).value), env.channel, n + 1))
  {
  }

  /** Appending keeps the suffix of the second part. */
  lemma SuffixOfAppend(a: seq<Event>, b: seq<Event>)
    requires |b| >= 2
    ensures (a + b)[|a + b| - 1] == b[|b| - 1]
    ensures (a + b)[|a + b| - 2] == b[|b| - 2]
  {
  }

  /** A rejected op_type is answered with BAD_REQUEST right after percolation,
      yet the handler goes on: the index call still happens unless sending that
      response throws. An IOException from that send ends the request there;
      any other exception is answered with its error response. */
  lemma RejectedOpTypeKeepsGoing(req: RestRequest, env: Collaborators)
    requires req.opType.Some? && req.opType.value != PERCOSERT_OP_TYPE
    requires env.percolate.Success? && PrepareIndexRequest(req, env.percolate.value).Success?
    ensures Handled(req, env)[1] == Send(BadRequestResponse(req.opType.value), env.channel, 0)
    ensures IndexCalls(Handled(req, env)) == 1 <==> Fault(env.channel, 0).None? && WriteOptions(req).Success?
    ensures Fault(env.channel, 0).Some? && Fault(env.channel, 0).value.IOException? ==>
      Handled(req, env) == [PercolateCalled(req.index, req.typeName, req.content),
                            SendFailed(BadRequestResponse(req.opType.value), Fault(env.channel, 0).value)]
    ensures Fault(env.channel, 0).Some? && !Fault(env.channel, 0).value.IOException? ==>
      Handled(req, env) == [PercolateCalled(req.index, req.typeName, req.content),
                            SendFailed(BadRequestResponse(req.opType.value), Fault(env.channel, 0).value),
                            Send(ThrowableResponse(Fault(env.channel, 0).value), env.channel, 1)]
  {
    IndexCalledExactlyWhen(req, env);
  }

  /** Through the registered routes op_type is always `percosert`: the op_type
      rejection is never sent, every response is the success response or an
      error response, and at most one response is delivered (at most two
      attempted). */
  lemma CreateRouteNeverRejects(req: RestRequest, env: Collaborators)
    ensures forall s :: BadRequestResponse(s) !in Responses(Handled(ForceOpType(req), env))
    ensures forall r :: r in Responses(Handled(ForceOpType(req), env)) ==>
      (env.index.Success? && r == SuccessResponse(env.index.value)) || r.body.Throwable?
    ensures Attempts(Handled(ForceOpType(req), env)) <= 2
    ensures Delivered(Handled(ForceOpType(req), env)) <= 1
  {
    var forced := ForceOpType(req);
    assert !CheckOpType(forced.opType).Rejected?;
    ResponseOrigins(forced, env);
    ResponsesPerRequest(forced, env);
  }

  /** Through the registered routes every index call asks for the INDEX op
      type, and none for CREATE. */
  lemma CreateRouteIndexesWithIndexOp(req: RestRequest, env: Collaborators, ir: IndexRequest)
    requires IndexCalled(ir) in Handled(ForceOpType(req), env)
    ensures SetOpType(Index) in ir.settings && SetOpType(Create) !in ir.settings
  {
    var forced := ForceOpType(req);
    var prepared := IndexCallOfHandled(forced, env, ir);
    AssembledWriteOptions(forced, prepared, env.percolate.value, ir.settings);
    var options := WriteOptions(forced).value;
    assert ir.settings == prepared.settings + [SetOpType(Index)] + options;
    assert ir.settings[|prepared.settings|] == SetOpType(Index);
  }
}
