/**
 * The remote fetch adapter: one authenticated GET against the management
 * API and the unwrapping of its response envelope. The network is an oracle
 * from (URI, credential) to the JSON body the remote API answers with; a
 * ghost trace records every request sent, so that a resolver can state when
 * it sends none.
 */
module Remote {
  import opened Wrappers
  import opened Json
  import opened Py

  /** The management API every resource URI starts with. */
  const Management := "https://management.azure.com"

  /** One outbound GET: the URI and the forwarded Authorization header. */
  datatype Request = Request(uri: string, authorization: string)

  /** A body whose `error` entry is truthy: the remote API reports a failure. */
  predicate IsErrorEnvelope(body: Json) {
    body.JObj? && "error" in body.fields && Truthy(body.fields["error"])
  }

  /**
   * The tail of resolveRequest: an error envelope becomes None once its
   * message has been printed, a list envelope becomes its `value`, and any
   * other object is the record itself. (`data.get` fails on a body that is
   * not an object, and printing `data['error']['message']` fails on an
   * error without a message.)
   */
  function Unwrap(body: Json): (r: Outcome<Json>)
    ensures IsErrorEnvelope(body) ==>
              (r.Ok? <==> Sub(body.fields["error"], "message").Ok?) && (r.Ok? ==> r.value == JNull)
    ensures body.JObj? && !IsErrorEnvelope(body) && "value" in body.fields ==> r == Ok(body.fields["value"])
    ensures body.JObj? && !IsErrorEnvelope(body) && "value" !in body.fields ==> r == Ok(body)
    ensures !body.JObj? ==> r == Err(AttributeError)
  {
    match body
    case JObj(fields) =>
      var error := if "error" in fields then fields["error"] else JNull;
      if Truthy(error) then
        var message :- Sub(error, "message");
        Ok(JNull)
      else if "value" in fields then Ok(fields["value"])
      else Ok(body)
    case _ => Err(AttributeError)
  }

  /** The message resolveRequest prints for a body: one for an error envelope that has one. */
  function Printed(body: Json): (log: seq<Json>)
    ensures |log| <= 1
    ensures |log| == 1 <==> IsErrorEnvelope(body) && Sub(body.fields["error"], "message").Ok?
  {
    if IsErrorEnvelope(body) then
      match Sub(body.fields["error"], "message")
      case Ok(message) => [message]
      case Err(_) => []
    else []
  }

  /** How the remote API wraps a list of records. */
  function ListEnvelope(items: seq<Json>): Json {
    JObj(map["value" := JArr(items)])
  }

  /** How the remote API reports a failure. */
  function ErrorEnvelope(code: string, message: string): Json {
    JObj(map["error" := JObj(map["code" := JStr(code), "message" := JStr(message)])])
  }

  /** A list envelope unwraps to its list, with nothing printed. */
  lemma UnwrapList(items: seq<Json>)
    ensures Unwrap(ListEnvelope(items)) == Ok(JArr(items))
    ensures Printed(ListEnvelope(items)) == []
  {
    assert !IsErrorEnvelope(ListEnvelope(items));
  }

  /** An error envelope unwraps to None, with its message printed once. */
  lemma UnwrapError(code: string, message: string)
    ensures Unwrap(ErrorEnvelope(code, message)) == Ok(JNull)
    ensures Printed(ErrorEnvelope(code, message)) == [JStr(message)]
  {
    var error := JObj(map["code" := JStr(code), "message" := JStr(message)]);
    assert Truthy(error) by { assert "code" in error.fields; }
    assert IsErrorEnvelope(ErrorEnvelope(code, message));
  }

  /**
   * The execution context of one inbound request together with the remote
   * API it talks to.
   */
  class Client {
    /** The inbound request's Authorization header, if it carries one. */
    const authorization: Option<string>
    /** The remote API: the body it answers a GET of a URI with, for a credential. */
    const fetch: (string, string) -> Json
    /** Every request sent so far, in order. */
    ghost var trace: seq<Request>
    /** Every error message printed so far, in order. */
    ghost var log: seq<Json>

    constructor (authorization: Option<string>, fetch: (string, string) -> Json)
      ensures this.authorization == authorization && this.fetch == fetch
      ensures trace == [] && log == []
    {
      this.authorization := authorization;
      this.fetch := fetch;
      trace := [];
      log := [];
    }

    /** What resolveRequest returns for a GET of uri. */
    function Response(uri: string): Outcome<Json> {
      match authorization
      case None => Err(MissingCredential)
      case Some(credential) => Unwrap(fetch(uri, credential))
    }

    /** The requests a GET of uri sends: none without a credential. */
    function Sent(uri: string): seq<Request> {
      match authorization
      case None => []
      case Some(credential) => [Request(uri, credential)]
    }

    /** The messages a GET of uri prints. */
    function Logged(uri: string): seq<Json> {
      match authorization
      case None => []
      case Some(credential) => Printed(fetch(uri, credential))
    }

    /**
     * resolveRequest: reads the Authorization header (failing before any
     * request when it is missing), sends one GET of uri carrying it, and
     * unwraps the envelope of the answer.
     */
    method Get(uri: string) returns (r: Outcome<Json>)
      modifies this
      ensures r == Response(uri)
      ensures authorization.None? ==> r == Err(MissingCredential) && trace == old(trace)
      ensures authorization.Some? ==> trace == old(trace) + [Request(uri, authorization.value)]
      ensures log == old(log) + Logged(uri)
    {
      if authorization.None? {
        return Err(MissingCredential);
      }
      var credential := authorization.value;
      var body := fetch(uri, credential);
      trace := trace + [Request(uri, credential)];
      log := log + Printed(body);
      r := Unwrap(body);
    }
  }

  /** The client sent exactly the GET of uri (when it could) and printed what that answer called for. */
  twostate predicate Fetched(c: Client, uri: string)
    reads c
  {
    c.trace == old(c.trace) + c.Sent(uri) && c.log == old(c.log) + c.Logged(uri)
  }

  /** The client sent nothing and printed nothing. */
  twostate predicate Untouched(c: Client)
    reads c
  {
    c.trace == old(c.trace) && c.log == old(c.log)
  }

  /** A decoder applied to what a fetch returned, or the fault the fetch raised. */
  function Then<T>(data: Outcome<Json>, decode: Json -> Outcome<T>): (r: Outcome<T>)
    ensures data.Err? ==> r == Err(data.error)
  {
    var body :- data;
    decode(body)
  }

  /** The decoded result of a chained field resolver, present unless the field was skipped. */
  function Present<T>(data: Outcome<Json>, decode: Json -> Outcome<T>): (r: Outcome<Option<T>>)
    ensures r.Ok? <==> Then(data, decode).Ok?
    ensures r.Ok? ==> r.value == Some(Then(data, decode).value)
  {
    var value :- Then(data, decode);
    Ok(Some(value))
  }

  /**
   * A resolver that first decides between failing, answering None without
   * a request, and fetching one URI: it did exactly what its target says,
   * and a fetched answer is decoded.
   */
  twostate predicate Resolved<T>(c: Client, target: Outcome<Option<string>>, decode: Json -> Outcome<T>,
                                 new r: Outcome<Option<T>>)
    reads c
  {
    match target
    case Err(e) => r == Err(e) && Untouched(c)
    case Ok(None) => r == Ok(None) && Untouched(c)
    case Ok(Some(uri)) => Fetched(c, uri) && r == Present(c.Response(uri), decode)
  }

  /**
   * A resolver that fetches one URI unless building it fails: it did exactly
   * that, and the answer is decoded.
   */
  twostate predicate Requested<T>(c: Client, target: Outcome<string>, decode: Json -> Outcome<T>, new r: Outcome<T>)
    reads c
  {
    match target
    case Err(e) => r == Err(e) && Untouched(c)
    case Ok(uri) => Fetched(c, uri) && r == Then(c.Response(uri), decode)
  }
}
