/** The storage operations `get`, `put`, `list` and `delete` of the Nomie
    Server engine. Each reads the engine's current `apiUrl` and `apiToken`
    (passed here explicitly) and takes the transport's reply to the request it
    builds as an input. */
module Operations {
  import opened Js
  import opened Requests

  const StoragePrefix := "n6storage/"
  const ListPathName := "n6storage/list"

  /** The wrapper shape `{ data: [...] }`: an object whose `data` field is an
      array. */
  predicate IsEnvelope(content: Json)
  {
    content.JObject? && "data" in content.fields && content.fields["data"].JArray?
  }

  /** What `get` makes of a parsed body: the `data` array of an envelope,
      any other truthy body as it is, and `[]` for a falsy body. */
  function Unwrap(content: Json): (r: Json)
    ensures IsEnvelope(content) ==> r == content.fields["data"]
    ensures !IsEnvelope(content) && Truthy(content) ==> r == content
    ensures !Truthy(content) ==> r == JArray([])
    ensures Truthy(r)
  {
    if Truthy(content) && content.JObject? && "data" in content.fields && content.fields["data"].JArray?
    then content.fields["data"]
    else if Truthy(content) then content
    else JArray([])
  }

  /** A body comes back from `Unwrap` unchanged exactly when it is truthy and
      not an envelope: only those contents survive a `put` followed by a
      `get` against a server that stores what it is given. */
  lemma UnwrapFixedPoint(content: Json)
    ensures Unwrap(content) == content <==> Truthy(content) && !IsEnvelope(content)
  {
  }

  /** Unwrapping twice is unwrapping once. */
  lemma UnwrapIdempotent(content: Json)
    ensures Unwrap(Unwrap(content)) == Unwrap(content)
  {
  }

  /** The request `get(path)` issues. */
  function GetRequest(apiUrl: Text, apiToken: Text, path: string): (r: Outcome<Request>)
    ensures r.Ok? <==> Present(apiUrl)
    ensures r.Ok? ==> r.value.verb == GET && r.value.body == None
    ensures r.Ok? ==> ApiPath(apiUrl.s, r.value.url) == Some(StoragePrefix + path)
  {
    NsGet(apiUrl, apiToken, StoragePrefix + path)
  }

  /** `get(path)`: never throws. An ok response yields the unwrapped body; a
      non-ok status, a configuration error, a transport error or a body that
      does not parse all yield `[]`. */
  function Get(apiUrl: Text, apiToken: Text, path: string, reply: Reply): (r: Json)
    ensures Truthy(r)
    ensures !Present(apiUrl) ==> r == JArray([])
    ensures reply.Failed? ==> r == JArray([])
    ensures reply.Answered? && !IsOk(reply.response) ==> r == JArray([])
    ensures reply.Answered? && reply.response.body.Unparsable? ==> r == JArray([])
    ensures Present(apiUrl) && reply.Answered? && IsOk(reply.response) && reply.response.body.Parsed?
            ==> r == Unwrap(reply.response.body.value)
  {
    match Send(GetRequest(apiUrl, apiToken, path), reply)
    case Throw(_) => JArray([])
    case Ok(call) =>
      if IsOk(call) then
        match call.body
        case Unparsable(_) => JArray([])
        case Parsed(content) => Unwrap(content)
      else JArray([])
  }

  /** The request `put(path, content)` issues. */
  function PutRequest(apiUrl: Text, apiToken: Text, path: string, content: Json): (r: Outcome<Request>)
    ensures r.Ok? <==> Present(apiUrl)
    ensures r.Ok? ==> r.value.verb == POST && r.value.body == Some(content)
    ensures r.Ok? ==> ApiPath(apiUrl.s, r.value.url) == Some(StoragePrefix + path)
  {
    NsPost(apiUrl, apiToken, StoragePrefix + path, content)
  }

  function SaveFailedMessage(path: string, statusText: string): string
  {
    "Failed to save " + path + ": " + statusText
  }

  /** `put(path, content)`: a non-ok status throws a save error naming the
      path and the status text; otherwise the parsed body is returned. */
  function Put(apiUrl: Text, apiToken: Text, path: string, content: Json, reply: Reply): (r: Outcome<Json>)
    ensures !Present(apiUrl) ==> r == Throw(NotSetMessage(POST))
    ensures Present(apiUrl) && reply.Failed? ==> r == Throw(reply.error)
    ensures Present(apiUrl) && reply.Answered? && !IsOk(reply.response)
            ==> r == Throw(SaveFailedMessage(path, reply.response.statusText))
    ensures Present(apiUrl) && reply.Answered? && IsOk(reply.response) && reply.response.body.Unparsable?
            ==> r == Throw(reply.response.body.error)
    ensures r.Ok? <==> Present(apiUrl) && reply.Answered? && IsOk(reply.response) && reply.response.body.Parsed?
    ensures r.Ok? ==> r.value == reply.response.body.value
  {
    match Send(PutRequest(apiUrl, apiToken, path, content), reply)
    case Throw(m) => Throw(m)
    case Ok(call) =>
      if !IsOk(call) then Throw(SaveFailedMessage(path, call.statusText))
      else
        match call.body
        case Unparsable(e) => Throw(e)
        case Parsed(saved) => Ok(saved)
  }

  /** A `put` that succeeded, followed by a `get` that an ok reply answers
      with the same content: the content comes back exactly when it is truthy
      and not an envelope. */
  lemma PutThenGet(apiUrl: Text, apiToken: Text, path: string, content: Json, saved: Reply, status: int, statusText: string)
    requires Put(apiUrl, apiToken, path, content, saved).Ok?
    requires 200 <= status <= 299
    ensures Get(apiUrl, apiToken, path, Answered(Response(status, statusText, Parsed(content)))) == content
            <==> Truthy(content) && !IsEnvelope(content)
  {
    UnwrapFixedPoint(content);
  }

  /** The path `list` sends: `path` when it is a non-empty string, "/"
      otherwise. */
  function ListPath(path: Text): (r: string)
    ensures Present(path) ==> r == path.s
    ensures !Present(path) ==> r == "/"
    ensures r != ""
  {
    if Present(path) then path.s else "/"
  }

  /** The request `list(path)` issues: a POST to `n6storage/list` whose body
      is `{ path: <ListPath(path)> }`. */
  function ListRequest(apiUrl: Text, apiToken: Text, path: Text): (r: Outcome<Request>)
    ensures r.Ok? <==> Present(apiUrl)
    ensures r.Ok? ==> r.value.verb == POST
    ensures r.Ok? ==> ApiPath(apiUrl.s, r.value.url) == Some(ListPathName)
    ensures r.Ok? ==> r.value.body == Some(JObject(map["path" := JString(ListPath(path))]))
  {
    NsPost(apiUrl, apiToken, ListPathName, JObject(map["path" := JString(ListPath(path))]))
  }

  /** `list(path)`: the parsed body whatever the status; a transport error or
      a body that does not parse propagates. */
  function List(apiUrl: Text, apiToken: Text, path: Text, reply: Reply): (r: Outcome<Json>)
    ensures !Present(apiUrl) ==> r == Throw(NotSetMessage(POST))
    ensures Present(apiUrl) && reply.Failed? ==> r == Throw(reply.error)
    ensures Present(apiUrl) && reply.Answered? && reply.response.body.Unparsable?
            ==> r == Throw(reply.response.body.error)
    ensures r.Ok? <==> Present(apiUrl) && reply.Answered? && reply.response.body.Parsed?
    ensures r.Ok? ==> r.value == reply.response.body.value
  {
    match Send(ListRequest(apiUrl, apiToken, path), reply)
    case Throw(m) => Throw(m)
    case Ok(call) =>
      match call.body
      case Unparsable(e) => Throw(e)
      case Parsed(files) => Ok(files)
  }

  /** `list` does not inspect the status: two replies that differ only in
      status give the same outcome. */
  lemma ListIgnoresStatus(apiUrl: Text, apiToken: Text, path: Text, status1: int, status2: int, statusText: string, body: Body)
    ensures List(apiUrl, apiToken, path, Answered(Response(status1, statusText, body)))
         == List(apiUrl, apiToken, path, Answered(Response(status2, statusText, body)))
  {
  }

  /** The request `delete(path)` issues. */
  function DeleteRequest(apiUrl: Text, apiToken: Text, path: string): (r: Outcome<Request>)
    ensures r.Ok? <==> Present(apiUrl)
    ensures r.Ok? ==> r.value.verb == DELETE && r.value.body == None
    ensures r.Ok? ==> ApiPath(apiUrl.s, r.value.url) == Some(StoragePrefix + path)
  {
    NsDelete(apiUrl, apiToken, StoragePrefix + path)
  }

  /** `delete(path)`: the raw response, whatever its status. */
  function Delete(apiUrl: Text, apiToken: Text, path: string, reply: Reply): (r: Outcome<Response>)
    ensures !Present(apiUrl) ==> r == Throw(NotSetMessage(DELETE))
    ensures Present(apiUrl) && reply.Failed? ==> r == Throw(reply.error)
    ensures Present(apiUrl) && reply.Answered? ==> r == Ok(reply.response)
  {
    Send(DeleteRequest(apiUrl, apiToken, path), reply)
  }
}
