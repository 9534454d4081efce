/** Composition of the response to a successful index call: the body's fields
    (the handler's Fields constants), the optional matches array and the
    CREATED/OK status choice. */
module ResponseComposition {
  import opened Wrappers
  import opened Json
  import opened Rest

  const OK_FIELD: string := "ok"
  const INDEX_FIELD: string := "_index"
  const TYPE_FIELD: string := "_type"
  const ID_FIELD: string := "_id"
  const VERSION_FIELD: string := "_version"
  const MATCHES_FIELD: string := "matches"

  /** What the index call reports on success. `matches` is None when the index
      response carries no match list (Java null). */
  datatype IndexResponse = IndexResponse(
    index: string,
    typeName: string,
    id: string,
    version: int,
    matches: Option<seq<string>>)

  /** The success body: ok, _index, _type, _id and _version, then `matches`
      only when the index response has a match list. */
  function SuccessBody(r: IndexResponse): seq<(string, Value)>
  {
    [ (OK_FIELD, Bool(true)),
      (INDEX_FIELD, Str(r.index)),
      (TYPE_FIELD, Str(r.typeName)),
      (ID_FIELD, Str(r.id)),
      (VERSION_FIELD, Num(r.version)) ]
    + (if r.matches.Some? then [(MATCHES_FIELD, StringArray(r.matches.value))] else [])
  }

  /** The status of a successful index: CREATED exactly for the first version,
      OK for every other version (including 0 and negative ones). */
  function SuccessStatus(version: int): (s: RestStatus)
    ensures s == Created <==> version == 1
    ensures s == Ok <==> version != 1
  {
    if version == 1 then Created else Ok
  }

  function SuccessResponse(r: IndexResponse): RestResponse
  {
    RestResponse(SuccessStatus(r.version), Fields(SuccessBody(r)))
  }

  /** Reads a success body back into the index response it reports; None when
      a field is missing or of the wrong kind. This is the client's view of the
      body and serves as the partner of SuccessBody. */
  function ReadSuccessBody(fields: seq<(string, Value)>): Option<IndexResponse>
  {
    match (Lookup(fields, OK_FIELD), Lookup(fields, INDEX_FIELD), Lookup(fields, TYPE_FIELD),
           Lookup(fields, ID_FIELD), Lookup(fields, VERSION_FIELD))
    case (Some(Bool(true)), Some(Str(index)), Some(Str(typeName)), Some(Str(id)), Some(Num(version))) =>
      (match Lookup(fields, MATCHES_FIELD)
       case None => Some(IndexResponse(index, typeName, id, version, None))
       case Some(v) =>
         (match Strings(v)
          case Some(ms) => Some(IndexResponse(index, typeName, id, version, Some(ms)))
          case None => None))
    case _ => None
  }

  /** The body carries everything the index response reported, and nothing is
      lost or reordered: a client reading it back gets the same response,
      including whether there was a match list and its entries in order. */
  lemma SuccessBodyRoundTrip(r: IndexResponse)
    ensures ReadSuccessBody(SuccessBody(r)) == Some(r)
  {
    var body := SuccessBody(r);
    LookupAt(body, OK_FIELD, 0);
    LookupAt(body, INDEX_FIELD, 1);
    LookupAt(body, TYPE_FIELD, 2);
    LookupAt(body, ID_FIELD, 3);
    LookupAt(body, VERSION_FIELD, 4);
    if r.matches.Some? {
      LookupAt(body, MATCHES_FIELD, 5);
      StringsOfStringArray(r.matches.value);
    } else {
      LookupAbsent(body, MATCHES_FIELD);
    }
  }

  /** The keys of the success body, in order: the five fixed fields, then
      `matches` exactly when the index response has a match list. The body
      never falls back to the percolate matches. */
  lemma SuccessBodyKeys(r: IndexResponse)
    ensures |SuccessBody(r)| == (if r.matches.Some? then 6 else 5)
    ensures SuccessBody(r)[0] == (OK_FIELD, Bool(true))
    ensures SuccessBody(r)[1..4] == [(INDEX_FIELD, Str(r.index)), (TYPE_FIELD, Str(r.typeName)), (ID_FIELD, Str(r.id))]
    ensures SuccessBody(r)[4] == (VERSION_FIELD, Num(r.version))
    ensures r.matches.Some? ==> SuccessBody(r)[5].0 == MATCHES_FIELD
    ensures Lookup(SuccessBody(r), MATCHES_FIELD).Some? <==> r.matches.Some?
  {
    var body := SuccessBody(r);
    if r.matches.Some? {
      LookupAt(body, MATCHES_FIELD, 5);
    } else {
      LookupAbsent(body, MATCHES_FIELD);
    }
  }

  /** Builds the success response the way the listener does: fixed fields
      first, then the matches array one value at a time, then the status. */
  method ComposeSuccess(response: IndexResponse) returns (r: RestResponse)
    ensures r == SuccessResponse(response)
    ensures r.status == Created <==> response.version == 1
  {
    var fields := [ (OK_FIELD, Bool(true)),
                    (INDEX_FIELD, Str(response.index)),
                    (TYPE_FIELD, Str(response.typeName)),
                    (ID_FIELD, Str(response.id)),
                    (VERSION_FIELD, Num(response.version)) ];
    if response.matches.Some? {
      var ms := response.matches.value;
      var items: seq<Value> := [];
      var i := 0;
      while i < |ms|
        invariant 0 <= i <= |ms|
        invariant items == Strs(ms[..i])
      {
        assert ms[..i + 1] == ms[..i] + [ms[i]];
        StrsSnoc(ms[..i], ms[i]);
        items := items + [Str(ms[i])];
        i := i + 1;
      }
      assert ms[..|ms|] == ms;
      fields := fields + [(MATCHES_FIELD, Array(items))];
      assert Array(items) == StringArray(ms);
    }
    assert fields == SuccessBody(response);
    var status := Ok;
    if response.version == 1 {
      status := Created;
    }
    r := RestResponse(status, Fields(fields));
  }
}
