/** Assembly of the index request inside the percolate success callback:
    the write options taken from the REST parameters, the rewritten source,
    and the op_type check. */
module IndexRequestAssembly {
  import opened Wrappers
  import opened Json
  import opened Rest
  import opened DocumentRewrite

  /** A REST parameter that goes through a parser whose code is not modelled:
      absent, present and accepted (with the parsed value), or present and
      rejected (with the exception the parser throws). */
  datatype Param<T> = Absent | Given(value: T) | Malformed(error: Exception)

  /** The incoming REST request. `content` is the body as the source-map parser
      returns it (or the exception it throws); the other fields are the URL
      parameters the handler reads. */
  datatype RestRequest = RestRequest(
    index: string,
    typeName: string,
    id: Option<string>,
    content: Result<map<string, Value>, Exception>,
    routing: Option<string>,
    parent: Option<string>,
    timestamp: Option<string>,
    ttl: Param<int>,
    timeout: Param<int>,
    refresh: Option<bool>,
    version: Result<int, Exception>,
    versionType: Param<string>,
    percolate: Option<string>,
    opType: Option<string>,
    replication: Param<string>,
    consistency: Param<string>)

  /** A timeout: the index request's default one, or an explicit duration. */
  datatype TimeValue = DefaultTimeout | Millis(ms: int)

  datatype OpType = Index | Create

  /** One setter call on the index request. Option values are passed as they
      are, null included; Refresh(None) and VersionTypeSetting(None) hand the
      request's own default back to it. */
  datatype Setting =
    | Routing(routing: Option<string>)
    | Parent(parent: Option<string>)
    | Timestamp(timestamp: Option<string>)
    | Ttl(millis: int)
    | Timeout(timeout: TimeValue)
    | Refresh(refresh: Option<bool>)
    | Version(version: int)
    | VersionTypeSetting(versionType: Option<string>)
    | Percolate(percolate: Option<string>)
    | SetOpType(opType: OpType)
    | Replication(replication: string)
    | Consistency(consistency: string)

  /** The index request as the handler hands it to the client: its identity,
      the document to index, and the setter calls made on it, in call order. */
  datatype IndexRequest = IndexRequest(
    index: string,
    typeName: string,
    id: Option<string>,
    source: map<string, Value>,
    settings: seq<Setting>)

  /** The op_type value that the registered routes force. */
  const PERCOSERT_OP_TYPE: string := "percosert"

  /** The setters whose presence the handler's contract depends on. */
  datatype SetterKind = TtlSetter | OpTypeSetter | ReplicationSetter | ConsistencySetter | OtherSetter

  function KindOf(x: Setting): SetterKind
  {
    match x
    case Ttl(_) => TtlSetter
    case SetOpType(_) => OpTypeSetter
    case Replication(_) => ReplicationSetter
    case Consistency(_) => ConsistencySetter
    case _ => OtherSetter
  }

  /** Some setter call of kind k is made. */
  predicate Sets(s: seq<Setting>, k: SetterKind) { exists i :: 0 <= i < |s| && KindOf(s[i]) == k }

  predicate SetsTtl(s: seq<Setting>) { Sets(s, TtlSetter) }
  predicate SetsOpType(s: seq<Setting>) { Sets(s, OpTypeSetter) }
  predicate SetsReplication(s: seq<Setting>) { Sets(s, ReplicationSetter) }
  predicate SetsConsistency(s: seq<Setting>) { Sets(s, ConsistencySetter) }

  /** Setter call a is made before setter call b. */
  predicate Precedes(s: seq<Setting>, a: Setting, b: Setting)
  {
    exists i, j :: 0 <= i < j < |s| && s[i] == a && s[j] == b
  }

  /** The timeout the handler passes: the parsed parameter, or the default. */
  function TimeoutOf(p: Param<int>): TimeValue
  {
    if p.Given? then Millis(p.value) else DefaultTimeout
  }

  /** Runs a parameter through its parser: absent gives None, accepted gives
      the value, rejected throws. */
  function Parse<T>(p: Param<T>): (r: Result<Option<T>, Exception>)
    ensures r.Failure? <==> p.Malformed?
    ensures r.Failure? ==> r.error == p.error
    ensures r.Success? ==> (r.value.Some? <==> p.Given?)
    ensures r.Success? && p.Given? ==> r.value.value == p.value
  {
    match p
    case Absent => Success(None)
    case Given(v) => Success(Some(v))
    case Malformed(e) => Failure(e)
  }

  /** The setter calls made before the op_type check, given the parsed
      version and version type: routing, parent, timestamp, ttl when present,
      timeout, refresh, version, version type and percolate. */
  function InitialSettings(req: RestRequest, version: int, versionType: Option<string>): seq<Setting>
  {
    [Routing(req.routing), Parent(req.parent), Timestamp(req.timestamp)]
    + (if req.ttl.Given? then [Ttl(req.ttl.value)] else [])
    + [Timeout(TimeoutOf(req.timeout)), Refresh(req.refresh), Version(version),
       VersionTypeSetting(versionType), Percolate(req.percolate)]
  }

  /** The index request built before the op_type check. The first parameter
      whose parser throws, or a body that is not a map, aborts the build with
      that exception; the order is ttl, body, timeout, version, version type.
      Otherwise the request targets the REST index, type and id, and its source
      is the rewritten body. */
  function PrepareIndexRequest(req: RestRequest, matches: seq<string>): (r: Result<IndexRequest, Exception>)
    ensures r.Success? <==>
      !req.ttl.Malformed? && req.content.Success? && !req.timeout.Malformed?
      && req.version.Success? && !req.versionType.Malformed?
    ensures req.ttl.Malformed? ==> r == Failure(req.ttl.error)
    ensures !req.ttl.Malformed? && req.content.Failure? ==> r == Failure(req.content.error)
    ensures !req.ttl.Malformed? && req.content.Success? && req.timeout.Malformed?
      ==> r == Failure(req.timeout.error)
    ensures !req.ttl.Malformed? && req.content.Success? && !req.timeout.Malformed? && req.version.Failure?
      ==> r == Failure(req.version.error)
    ensures (!req.ttl.Malformed? && req.content.Success? && !req.timeout.Malformed? && req.version.Success?
             && req.versionType.Malformed?) ==> r == Failure(req.versionType.error)
    ensures r.Success? ==>
      && r.value.index == req.index && r.value.typeName == req.typeName && r.value.id == req.id
      && r.value.source == Rewrite(req.content.value, matches)
  {
    var _ :- Parse(req.ttl);
    var source :- req.content;
    var _ :- Parse(req.timeout);
    var version :- req.version;
    var versionType :- Parse(req.versionType);
    Success(IndexRequest(req.index, req.typeName, req.id, Rewrite(source, matches),
                         InitialSettings(req, version, versionType)))
  }

  /** The setter calls of the prepared request: ttl exactly when the parameter
      is present, routing before parent, the given timeout or the default one,
      timestamp, refresh, version, version type and percolate as given, and no
      op type, replication or consistency yet. With the length, each of these
      setters is called exactly once, so no later call overrides a value. */
  lemma PreparedSettings(req: RestRequest, matches: seq<string>)
    requires PrepareIndexRequest(req, matches).Success?
    ensures var s := PrepareIndexRequest(req, matches).value.settings;
      && s == InitialSettings(req, req.version.value, Parse(req.versionType).value)
      && (SetsTtl(s) <==> req.ttl.Given?)
      && (req.ttl.Given? ==> Ttl(req.ttl.value) in s)
      && Precedes(s, Routing(req.routing), Parent(req.parent))
      && Timeout(TimeoutOf(req.timeout)) in s
      && Timestamp(req.timestamp) in s && Refresh(req.refresh) in s
      && Version(req.version.value) in s && VersionTypeSetting(Parse(req.versionType).value) in s
      && Percolate(req.percolate) in s
      && !SetsOpType(s) && !SetsReplication(s) && !SetsConsistency(s)
      && |s| == 8 + (if req.ttl.Given? then 1 else 0)
  {
    var versionType := if req.versionType.Given? then Some(req.versionType.value) else None;
    assert PrepareIndexRequest(req, matches).value.settings == InitialSettings(req, req.version.value, versionType);
    InitialSettingsFacts(req, req.version.value, versionType);
  }

  lemma InitialSettingsFacts(req: RestRequest, version: int, versionType: Option<string>)
    ensures var s := InitialSettings(req, version, versionType);
      && (SetsTtl(s) <==> req.ttl.Given?)
      && (req.ttl.Given? ==> Ttl(req.ttl.value) in s)
      && Precedes(s, Routing(req.routing), Parent(req.parent))
      && Timeout(TimeoutOf(req.timeout)) in s
      && Timestamp(req.timestamp) in s && Refresh(req.refresh) in s
      && Version(version) in s && VersionTypeSetting(versionType) in s
      && Percolate(req.percolate) in s
      && !SetsOpType(s) && !SetsReplication(s) && !SetsConsistency(s)
      && |s| == 8 + (if req.ttl.Given? then 1 else 0)
  {
    var s := InitialSettings(req, version, versionType);
    var k := if req.ttl.Given? then 1 else 0;
    assert |s| == 8 + k;
    assert s[0] == Routing(req.routing) && s[1] == Parent(req.parent);
    assert s[2] == Timestamp(req.timestamp);
    assert s[3 + k] == Timeout(TimeoutOf(req.timeout)) && s[4 + k] == Refresh(req.refresh);
    assert s[5 + k] == Version(version) && s[6 + k] == VersionTypeSetting(versionType);
    assert s[7 + k] == Percolate(req.percolate);
    assert req.ttl.Given? ==> s[3] == Ttl(req.ttl.value);
    forall i | 0 <= i < |s|
      ensures KindOf(s[i]) != OpTypeSetter && KindOf(s[i]) != ReplicationSetter
      ensures KindOf(s[i]) != ConsistencySetter
      ensures KindOf(s[i]) == TtlSetter ==> req.ttl.Given? && i == 3
    {
    }
    assert req.ttl.Given? ==> KindOf(s[3]) == TtlSetter;
  }

  /** The outcome of the op_type check. */
  datatype OpTypeVerdict = Unspecified | IndexOp | Rejected(opType: string)

  /** No op_type leaves the request as built; `percosert` selects the INDEX op
      type; anything else is rejected (with a BAD_REQUEST response that does
      not stop the handler). */
  function CheckOpType(opType: Option<string>): (v: OpTypeVerdict)
    ensures v == Unspecified <==> opType == None
    ensures v == IndexOp <==> opType == Some(PERCOSERT_OP_TYPE)
    ensures v.Rejected? <==> opType.Some? && opType.value != PERCOSERT_OP_TYPE
    ensures v.Rejected? ==> v.opType == opType.value
  {
    match opType
    case None => Unspecified
    case Some(s) => if s == PERCOSERT_OP_TYPE then IndexOp else Rejected(s)
  }

  function BadRequestMessage(opType: string): string
  {
    "opType [" + opType + "] not allowed, either [index] or [create] are allowed"
  }

  /** The BAD_REQUEST response for a rejected op_type. */
  function BadRequestResponse(opType: string): (r: RestResponse)
    ensures r.status == BadRequest
  {
    RestResponse(BadRequest, Fields([("error", Str(BadRequestMessage(opType)))]))
  }

  /** The rejection's body is a single `error` field whose message names the
      offending op_type. */
  lemma BadRequestNamesOpType(opType: string)
    ensures BadRequestResponse(opType).body == Fields([("error", Str(BadRequestMessage(opType)))])
    ensures Lookup(BadRequestResponse(opType).body.fields, "error") == Some(Str(BadRequestMessage(opType)))
    ensures |BadRequestMessage(opType)| > 8 + |opType|
    ensures BadRequestMessage(opType)[8..8 + |opType|] == opType
  {
    LookupAt(BadRequestResponse(opType).body.fields, "error", 0);
  }

  /** The replication and consistency settings, applied only when the
      parameter is present; a parser that throws aborts with its exception. */
  function WriteOptions(req: RestRequest): (r: Result<seq<Setting>, Exception>)
    ensures r.Success? <==> !req.replication.Malformed? && !req.consistency.Malformed?
    ensures req.replication.Malformed? ==> r == Failure(req.replication.error)
    ensures !req.replication.Malformed? && req.consistency.Malformed? ==> r == Failure(req.consistency.error)
  {
    var replication :- Parse(req.replication);
    var consistency :- Parse(req.consistency);
    Success((if replication.Some? then [Replication(replication.value)] else [])
            + (if consistency.Some? then [Consistency(consistency.value)] else []))
  }

  /** Replication and consistency are each set exactly when given, with the
      parsed value, and nothing else is set. */
  lemma WriteOptionsSettings(req: RestRequest)
    requires WriteOptions(req).Success?
    ensures var s := WriteOptions(req).value;
      && (SetsReplication(s) <==> req.replication.Given?)
      && (req.replication.Given? ==> Replication(req.replication.value) in s)
      && (SetsConsistency(s) <==> req.consistency.Given?)
      && (req.consistency.Given? ==> Consistency(req.consistency.value) in s)
      && (forall x :: x in s ==> x.Replication? || x.Consistency?)
      && |s| == (if req.replication.Given? then 1 else 0) + (if req.consistency.Given? then 1 else 0)
      && !SetsTtl(s) && !SetsOpType(s)
  {
    var s := WriteOptions(req).value;
    var k := if req.replication.Given? then 1 else 0;
    assert req.replication.Given? ==> s[0] == Replication(req.replication.value);
    assert req.consistency.Given? ==> s[k] == Consistency(req.consistency.value);
    forall i | 0 <= i < |s|
      ensures KindOf(s[i]) == ReplicationSetter ==> req.replication.Given?
      ensures KindOf(s[i]) == ConsistencySetter ==> req.consistency.Given?
      ensures KindOf(s[i]) == ReplicationSetter || KindOf(s[i]) == ConsistencySetter
    {
    }
    assert req.replication.Given? ==> KindOf(s[0]) == ReplicationSetter;
    assert req.consistency.Given? ==> KindOf(s[k]) == ConsistencySetter;
  }
}
