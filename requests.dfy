/** The authenticated request layer: `nsGet`, `nsPost` and `nsDelete` build a
    request against `<apiUrl>/api/<path>` carrying a Bearer token, or fail
    with a configuration error before anything is sent. The network itself is
    an input: `Send` pairs a built request with the reply the transport gave. */
module Requests {
  import opened Js

  datatype Verb = GET | POST | DELETE

  datatype Header = Header(name: string, value: string)

  /** A request handed to `fetch`. `body` is the JSON value that the caller
      serialised into the request body, if any. */
  datatype Request = Request(verb: Verb, url: string, headers: seq<Header>, body: Option<Json>)

  /** What `Response.json()` yields: a parsed value, or the error it throws. */
  datatype Body = Parsed(value: Json) | Unparsable(error: string)

  datatype Response = Response(status: int, statusText: string, body: Body)

  /** What the transport does with a request: it answers (with any status),
      or `fetch` rejects with a transport error. */
  datatype Reply = Answered(response: Response) | Failed(error: string)

  /** `Response.ok`: the status is in the range 200-299. */
  predicate IsOk(response: Response)
  {
    200 <= response.status <= 299
  }

  const ApiSegment := "/api/"
  const BearerPrefix := "Bearer "
  const AuthorizationName := "Authorization"
  const ContentTypeName := "Content-Type"
  const JsonMediaType := "application/json"

  /** The configuration error each builder raises when no endpoint is set. */
  function NotSetMessage(verb: Verb): string
  {
    match verb
    case GET => "Cannot nsGet - API URL not set"
    case POST => "Cannot nsPost - API URL not set"
    case DELETE => "Cannot nsDelete - API URL not set"
  }

  /** Value of the first header called `name`. */
  function Lookup(headers: seq<Header>, name: string): Option<string>
  {
    if headers == [] then None
    else if headers[0].name == name then Some(headers[0].value)
    else Lookup(headers[1..], name)
  }

  /** Reads the token back out of an `Authorization` value of the Bearer
      scheme (section 2.1 of RFC 6750: "Bearer", one space, the token). */
  function ParseBearer(value: string): Option<string>
  {
    if |value| >= |BearerPrefix| && value[..|BearerPrefix|] == BearerPrefix
    then Some(value[|BearerPrefix|..])
    else None
  }

  /** The Bearer token a request carries, if any. */
  function BearerToken(headers: seq<Header>): Option<string>
  {
    match Lookup(headers, AuthorizationName)
    case None => None
    case Some(v) => ParseBearer(v)
  }

  /** Reads the API path back out of a request URL built on `base`. */
  function ApiPath(base: string, url: string): Option<string>
  {
    var prefix := base + ApiSegment;
    if |url| >= |prefix| && url[..|prefix|] == prefix then Some(url[|prefix|..]) else None
  }

  lemma ApiPathOfBuiltUrl(base: string, path: string)
    ensures ApiPath(base, base + ApiSegment + path) == Some(path)
  {
  }

  lemma ParseBearerOfBuilt(token: string)
    ensures ParseBearer(BearerPrefix + token) == Some(token)
  {
  }

  /** The request `nsGet`, `nsPost` or `nsDelete` issues for `path` with the
      module's current `apiUrl` and `apiToken`. Only the endpoint is checked:
      a missing token is sent as "Bearer undefined" (or "Bearer null"). */
  function Call(verb: Verb, apiUrl: Text, apiToken: Text, path: string, body: Option<Json>): (r: Outcome<Request>)
    ensures r.Throw? <==> !Present(apiUrl)
    ensures r.Throw? ==> r.message == NotSetMessage(verb)
    ensures r.Ok? ==> r.value.verb == verb && r.value.body == body
    ensures r.Ok? ==> ApiPath(apiUrl.s, r.value.url) == Some(path)
    ensures r.Ok? ==> BearerToken(r.value.headers) == Some(Show(apiToken))
    ensures r.Ok? ==> (Lookup(r.value.headers, ContentTypeName) == Some(JsonMediaType) <==> verb == POST)
  {
    if !Present(apiUrl) then Throw(NotSetMessage(verb))
    else
      var auth := Header(AuthorizationName, BearerPrefix + Show(apiToken));
      var headers := if verb == POST then [Header(ContentTypeName, JsonMediaType), auth] else [auth];
      ApiPathOfBuiltUrl(apiUrl.s, path);
      ParseBearerOfBuilt(Show(apiToken));
      assert ContentTypeName[0] != AuthorizationName[0];
      assert verb == POST ==> headers[1..] == [auth] && Lookup(headers, AuthorizationName) == Lookup([auth], AuthorizationName);
      Ok(Request(verb, apiUrl.s + ApiSegment + path, headers, body))
  }

  /** `nsGet(path)`. */
  function NsGet(apiUrl: Text, apiToken: Text, path: string): Outcome<Request>
  {
    Call(GET, apiUrl, apiToken, path, None)
  }

  /** `nsPost(path, content)`. */
  function NsPost(apiUrl: Text, apiToken: Text, path: string, content: Json): Outcome<Request>
  {
    Call(POST, apiUrl, apiToken, path, Some(content))
  }

  /** `nsDelete(path)`. */
  function NsDelete(apiUrl: Text, apiToken: Text, path: string): Outcome<Request>
  {
    Call(DELETE, apiUrl, apiToken, path, None)
  }

  /** Awaiting the builder: a configuration error is thrown before `fetch`
      is reached, so the transport's reply plays no part; otherwise `fetch`
      resolves to the response whatever its status, or rethrows the
      transport error. */
  function Send(request: Outcome<Request>, reply: Reply): (r: Outcome<Response>)
    ensures request.Throw? ==> r == Throw(request.message)
    ensures request.Ok? && reply.Failed? ==> r == Throw(reply.error)
    ensures request.Ok? && reply.Answered? ==> r == Ok(reply.response)
  {
    match request
    case Throw(m) => Throw(m)
    case Ok(_) =>
      match reply
      case Failed(e) => Throw(e)
      case Answered(response) => Ok(response)
  }

  /** The transport's reply decides the outcome exactly when a request was
      built: a configuration error is the same whatever the network would
      have answered, and a built request passes a different transport error
      through for each reply. */
  lemma ReplyMattersIffBuilt(request: Outcome<Request>)
    ensures request.Throw? <==> forall a: Reply, b: Reply :: Send(request, a) == Send(request, b)
  {
    if request.Ok? {
      assert Send(request, Failed("a")) != Send(request, Failed("b"));
    }
  }

  /** With no endpoint configured, every builder raises its configuration
      error and the outcome is the same whatever the network would have
      answered: no request is issued. */
  lemma NoRequestWithoutEndpoint(verb: Verb, apiUrl: Text, apiToken: Text, path: string, body: Option<Json>, reply: Reply)
    requires !Present(apiUrl)
    ensures Send(Call(verb, apiUrl, apiToken, path, body), reply) == Throw(NotSetMessage(verb))
  {
  }
}
