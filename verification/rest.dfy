/** The REST transport's vocabulary as far as the handler uses it:
    exceptions it catches, statuses and the responses it sends. */
module Rest {
  import opened Wrappers
  import opened Json

  /** Response statuses. The handler itself chooses OK, CREATED and
      BAD_REQUEST; `Other` is any other HTTP status code. */
  datatype RestStatus = Ok | Created | BadRequest | Other(code: int)

  /** What a collaborator or the channel can throw. The handler treats
      IOException differently from every other exception (it catches only
      IOException around the BAD_REQUEST response). `status` is the status the
      transport derives from the exception when it renders it; it can be any
      status, BAD_REQUEST included. */
  datatype Exception =
    | IOException(message: string, status: RestStatus)
    | RuntimeException(name: string, message: string, status: RestStatus)

  /** A response body: an object built field by field, in order, or the
      transport's rendering of an exception. */
  datatype Body =
    | Fields(fields: seq<(string, Value)>)
    | Throwable(error: Exception)

  datatype RestResponse = RestResponse(status: RestStatus, body: Body)

  /** The response sent for a caught exception: the exception's rendering,
      with the status the exception maps to. */
  function ThrowableResponse(e: Exception): (r: RestResponse)
    ensures r.body.Throwable? && r.body.error == e
    ensures r.status == e.status
  {
    RestResponse(e.status, Throwable(e))
  }

  /** The first value bound to a key in an ordered object, if any. */
  function Lookup(fields: seq<(string, Value)>, key: string): Option<Value>
  {
    if fields == [] then None
    else if fields[0].0 == key then Some(fields[0].1)
    else Lookup(fields[1..], key)
  }

  /** Lookup finds the first field with the key. */
  lemma {:induction false} LookupAt(fields: seq<(string, Value)>, key: string, i: nat)
    requires i < |fields| && fields[i].0 == key
    requires forall j :: 0 <= j < i ==> fields[j].0 != key
    ensures Lookup(fields, key) == Some(fields[i].1)
  {
    if i > 0 {
      LookupAt(fields[1..], key, i - 1);
    }
  }

  /** Lookup finds nothing when no field has the key. */
  lemma {:induction false} LookupAbsent(fields: seq<(string, Value)>, key: string)
    requires forall j :: 0 <= j < |fields| ==> fields[j].0 != key
    ensures Lookup(fields, key) == None
  {
    if fields != [] {
      LookupAbsent(fields[1..], key);
    }
  }
}
