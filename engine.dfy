/** The Nomie Server storage engine's lifecycle: the ready-listener registry,
    credential resolution and the validation probe run by `init`.

    The module-level state of the program (`listeners`, `apiUrl`, `apiToken`)
    becomes the fields of one engine object. The browser's key-value store is
    a field too, since `init` writes it. Everything the engine shows the user
    (prompts, error messages, the recovery menu), every request it sends and
    every listener it invokes is appended to `trace`. */
module Engine {
  import opened Js
  import opened Requests
  import opened Registry

  const UrlKey := "nomie-server-url"
  const TokenKey := "nomie-server-token"
  const UrlLabel := "Nomie Server URL"
  const UrlDefault := "http://localhost:3011"
  const TokenLabel := "Nomie Server API Key"
  const ValidatePath := "auth/validate"
  const MissingServerMessage := "Nomie Server requires a server object with url and token"
  const UnauthorizedMessage := "Unauthorized"
  const InvalidKeyMessage := "Nomie Server API key is invalid. Please double check your settings."

  datatype Event =
    | Prompted(title: string, suggested: Option<string>)  // Interact.prompt
    | ErrorShown(message: string)                       // Interact.error
    | RecoveryMenuShown                                 // cannotConnect
    | Requested(request: Request)                       // a request handed to fetch
    | ListenerInvoked(id: ListenerId)                   // a ready listener called

  /** `options.server`, as far as `init` reads it: `url` and `token`, each
      `Undefined` when absent. */
  datatype ServerOptions = ServerOptions(url: Text, token: Text)

  /** `localStorage.getItem(key)`: `null` for a missing entry. */
  function StoredItem(kv: map<string, string>, key: string): (t: Text)
    ensures t == Null <==> key !in kv
    ensures key in kv ==> t == Str(kv[key])
  {
    if key in kv then Str(kv[key]) else Null
  }

  /** `getItem` reads back what `setItem` wrote under the same key and is
      unaffected by a write under another key. */
  lemma StoredItemAfterSet(kv: map<string, string>, key: string, value: string, other: string)
    ensures StoredItem(kv[key := value], key) == Str(value)
    ensures other != key ==> StoredItem(kv[key := value], other) == StoredItem(kv, other)
  {
  }

  /** What the credential block of `init` ends with: the endpoint and token,
      whether the user was prompted, and the key-value store afterwards. */
  datatype Credentials = Credentials(url: Text, token: Text, prompted: bool, kv: map<string, string>)

  /** Credential resolution. A stored value takes precedence over the
      caller's option. When either of the two is then missing, both are
      replaced by the prompt answers and both are written back, coerced to
      strings, even when empty. */
  function ResolveCredentials(kv: map<string, string>, options: ServerOptions, urlAnswer: Text, tokenAnswer: Text): (c: Credentials)
    ensures c.prompted <==> (!(Present(StoredItem(kv, UrlKey)) || Present(options.url))
                             || !(Present(StoredItem(kv, TokenKey)) || Present(options.token)))
    ensures !c.prompted ==> c.kv == kv && Present(c.url) && Present(c.token)
    ensures !c.prompted && Present(StoredItem(kv, UrlKey)) ==> c.url == StoredItem(kv, UrlKey)
    ensures !c.prompted && !Present(StoredItem(kv, UrlKey)) ==> c.url == options.url
    ensures !c.prompted && Present(StoredItem(kv, TokenKey)) ==> c.token == StoredItem(kv, TokenKey)
    ensures !c.prompted && !Present(StoredItem(kv, TokenKey)) ==> c.token == options.token
    ensures c.prompted ==> c.url == urlAnswer && c.token == tokenAnswer
    ensures c.prompted ==> c.kv == kv[UrlKey := Show(urlAnswer)][TokenKey := Show(tokenAnswer)]
  {
    var url := Or(StoredItem(kv, UrlKey), options.url);
    var token := Or(StoredItem(kv, TokenKey), options.token);
    if !Present(url) || !Present(token) then
      Credentials(urlAnswer, tokenAnswer, true, kv[UrlKey := Show(urlAnswer)][TokenKey := Show(tokenAnswer)])
    else
      Credentials(url, token, false, kv)
  }

  /** Answers given at the prompt are read back by the next `init` without
      prompting again, whatever options that call receives. */
  lemma PromptAnswersPersist(kv: map<string, string>, options: ServerOptions, urlAnswer: string, tokenAnswer: string,
                             nextOptions: ServerOptions, nextUrlAnswer: Text, nextTokenAnswer: Text)
    requires ResolveCredentials(kv, options, Str(urlAnswer), Str(tokenAnswer)).prompted
    requires urlAnswer != "" && tokenAnswer != ""
    ensures var c := ResolveCredentials(kv, options, Str(urlAnswer), Str(tokenAnswer));
            var next := ResolveCredentials(c.kv, nextOptions, nextUrlAnswer, nextTokenAnswer);
            !next.prompted && next.url == Str(urlAnswer) && next.token == Str(tokenAnswer) && next.kv == c.kv
  {
  }

  /** A prompt that resolves to `undefined` is stored as the text
      "undefined", which the next `init` takes for a configured endpoint. */
  lemma UndefinedAnswerStoredAsText(kv: map<string, string>, options: ServerOptions, tokenAnswer: string,
                                    nextOptions: ServerOptions, nextUrlAnswer: Text, nextTokenAnswer: Text)
    requires ResolveCredentials(kv, options, Undefined, Str(tokenAnswer)).prompted
    requires tokenAnswer != ""
    ensures var c := ResolveCredentials(kv, options, Undefined, Str(tokenAnswer));
            !Present(c.url)
            && ResolveCredentials(c.kv, nextOptions, nextUrlAnswer, nextTokenAnswer).url == Str("undefined")
  {
  }

  /** The two prompts `init` opens when credentials are missing. */
  function Prompts(prompted: bool): seq<Event>
  {
    if prompted then [Prompted(UrlLabel, Some(UrlDefault)), Prompted(TokenLabel, None)] else []
  }

  /** The validation probe `validate` sends once an endpoint is configured. */
  function ProbeRequest(apiUrl: Text, apiToken: Text): (r: Request)
    requires Present(apiUrl)
    ensures r.verb == GET && ApiPath(apiUrl.s, r.url) == Some(ValidatePath)
    ensures BearerToken(r.headers) == Some(Show(apiToken))
  {
    NsGet(apiUrl, apiToken, ValidatePath).value
  }

  /** The events of calling each listener of `ls` in turn. */
  function Invoked(ls: seq<ListenerId>): (r: seq<Event>)
    ensures |r| == |ls|
  {
    if ls == [] then [] else Invoked(ls[..|ls| - 1]) + [ListenerInvoked(ls[|ls| - 1])]
  }

  /** Listeners are called in list order. */
  lemma {:induction false} InvokedInOrder(ls: seq<ListenerId>)
    ensures forall i :: 0 <= i < |ls| ==> Invoked(ls)[i] == ListenerInvoked(ls[i])
  {
    if ls != [] {
      var front := ls[..|ls| - 1];
      InvokedInOrder(front);
      forall i | 0 <= i < |ls| ensures Invoked(ls)[i] == ListenerInvoked(ls[i]) {
        if i < |front| {
          assert Invoked(ls)[i] == Invoked(front)[i];
        }
      }
    }
  }

  /** Every listener of a duplicate-free list is called exactly once, and no
      other listener is called. */
  lemma {:induction false} InvokedExactlyOnce(ls: seq<ListenerId>, f: ListenerId)
    requires NoDup(ls)
    ensures multiset(Invoked(ls))[ListenerInvoked(f)] == if f in ls then 1 else 0
  {
    if ls != [] {
      var front, last := ls[..|ls| - 1], ls[|ls| - 1];
      assert ls == front + [last];
      assert NoDup(front);
      InvokedExactlyOnce(front, f);
      assert multiset(Invoked(ls)) == multiset(Invoked(front)) + multiset{ListenerInvoked(last)};
      assert last !in front;
    }
  }

  class NomieServerStorage {
    var listeners: seq<ListenerId>
    var apiUrl: Text
    var apiToken: Text
    var kv: map<string, string>
    var trace: seq<Event>

    /** The registry never holds a listener twice. */
    ghost predicate Valid()
      reads this
    {
      NoDup(listeners)
    }

    /** The state at module load: no listeners, no endpoint, no token. */
    constructor (store: map<string, string>)
      ensures Valid()
      ensures listeners == [] && apiUrl == Undefined && apiToken == Undefined
      ensures kv == store && trace == []
    {
      listeners := [];
      apiUrl := Undefined;
      apiToken := Undefined;
      kv := store;
      trace := [];
    }

    /** `onReady(f)`: register `f` unless it is registered already. */
    method OnReady(f: ListenerId)
      requires Valid()
      modifies this`listeners
      ensures Valid()
      ensures listeners == Registered(old(listeners), f)
    {
      if f !in listeners {
        listeners := listeners + [f];
      }
    }

    /** `fireReady()`: call every registered listener once, in registration
        order, then empty the registry. */
    method FireReady()
      requires Valid()
      modifies this`listeners, this`trace
      ensures Valid()
      ensures listeners == []
      ensures trace == old(trace) + Invoked(old(listeners))
    {
      var pending := listeners;
      for i := 0 to |pending|
        invariant trace == old(trace) + Invoked(pending[..i])
      {
        assert pending[..i + 1][..i] == pending[..i];
        trace := trace + [ListenerInvoked(pending[i])];
      }
      assert pending[..|pending|] == pending;
      listeners := [];
    }

    /** `validate()`: probe `auth/validate`. An ok status yields true; any
        other status opens the recovery menu and yields false; an error from
        the request layer propagates. */
    method Validate(probe: Reply) returns (r: Outcome<bool>)
      modifies this`trace
      ensures var request := NsGet(apiUrl, apiToken, ValidatePath);
              && (request.Throw? ==> r == Throw(request.message) && trace == old(trace))
              && (request.Ok? && probe.Failed? ==>
                    r == Throw(probe.error) && trace == old(trace) + [Requested(request.value)])
              && (request.Ok? && probe.Answered? && IsOk(probe.response) ==>
                    r == Ok(true) && trace == old(trace) + [Requested(request.value)])
              && (request.Ok? && probe.Answered? && !IsOk(probe.response) ==>
                    r == Ok(false) && trace == old(trace) + [Requested(request.value), RecoveryMenuShown])
    {
      var request := NsGet(apiUrl, apiToken, ValidatePath);
      if request.Throw? {
        return Throw(request.message);
      }
      trace := trace + [Requested(request.value)];
      match probe
      case Failed(e) =>
        return Throw(e);
      case Answered(check) =>
        if IsOk(check) {
          return Ok(true);
        }
        trace := trace + [RecoveryMenuShown];
        return Ok(false);
    }

    /** The credential block of `init`: read the stored values, falling back
        to the options; when either is missing, prompt for both and persist
        both answers. Returns the resolution it carried out. */
    method AcquireCredentials(options: ServerOptions, urlAnswer: Text, tokenAnswer: Text) returns (ghost c: Credentials)
      modifies this`apiUrl, this`apiToken, this`kv, this`trace
      ensures c == ResolveCredentials(old(kv), options, urlAnswer, tokenAnswer)
      ensures apiUrl == c.url && apiToken == c.token && kv == c.kv
      ensures trace == old(trace) + Prompts(c.prompted)
    {
      c := ResolveCredentials(kv, options, urlAnswer, tokenAnswer);
      apiUrl := Or(StoredItem(kv, UrlKey), options.url);
      apiToken := Or(StoredItem(kv, TokenKey), options.token);
      if !Present(apiUrl) || !Present(apiToken) {
        trace := trace + [Prompted(UrlLabel, Some(UrlDefault))];
        apiUrl := urlAnswer;
        trace := trace + [Prompted(TokenLabel, None)];
        apiToken := tokenAnswer;
        kv := kv[UrlKey := Show(apiUrl)];
        kv := kv[TokenKey := Show(apiToken)];
      }
    }

    /** `init(options)`: resolve the credentials, then classify the
        validation probe. `Ok(())` stands for resolving with the engine. */
    method Init(options: ServerOptions, urlAnswer: Text, tokenAnswer: Text, probe: Reply) returns (r: Outcome<()>)
      requires Valid()
      modifies this
      ensures Valid()
      ensures var c := ResolveCredentials(old(kv), options, urlAnswer, tokenAnswer);
              apiUrl == c.url && apiToken == c.token && kv == c.kv
      // Credentials still missing: the error is shown and rethrown, nothing is sent, nothing fires.
      ensures var c := ResolveCredentials(old(kv), options, urlAnswer, tokenAnswer);
              !(Present(c.url) && Present(c.token)) ==>
                && r == Throw(MissingServerMessage)
                && listeners == old(listeners)
                && trace == old(trace) + Prompts(c.prompted) + [ErrorShown(MissingServerMessage)]
      ensures var c := ResolveCredentials(old(kv), options, urlAnswer, tokenAnswer);
              Present(c.url) && Present(c.token) ==>
                var sent := old(trace) + Prompts(c.prompted) + [Requested(ProbeRequest(c.url, c.token))];
                // An ok status: listeners fire and init resolves.
                && (probe.Answered? && IsOk(probe.response) ==>
                      r == Ok(()) && listeners == [] && trace == sent + Invoked(old(listeners)))
                // Any other status, 401 included: the recovery menu, no listener, and init resolves.
                && (probe.Answered? && !IsOk(probe.response) ==>
                      r == Ok(()) && listeners == old(listeners) && trace == sent + [RecoveryMenuShown])
                // A thrown 'Unauthorized': listeners fire, the key error is shown, the error is rethrown.
                && (probe == Failed(UnauthorizedMessage) ==>
                      && r == Throw(UnauthorizedMessage) && listeners == []
                      && trace == sent + Invoked(old(listeners)) + [ErrorShown(InvalidKeyMessage)])
                // Any other thrown error: the recovery menu, no listener, the error is rethrown.
                && (probe.Failed? && probe.error != UnauthorizedMessage ==>
                      r == Throw(probe.error) && listeners == old(listeners) && trace == sent + [RecoveryMenuShown])
    {
      ghost var registered := listeners;
      ghost var c := AcquireCredentials(options, urlAnswer, tokenAnswer);
      ghost var prompted := trace;
      if !Present(apiUrl) || !Present(apiToken) {
        trace := trace + [ErrorShown(MissingServerMessage)];
        return Throw(MissingServerMessage);
      }
      ghost var sent := prompted + [Requested(ProbeRequest(c.url, c.token))];
      var isValid := Validate(probe);
      assert probe.Answered? ==> trace == sent + (if IsOk(probe.response) then [] else [RecoveryMenuShown]);
      assert probe.Failed? ==> trace == sent;
      match isValid {
        case Ok(valid) =>
          if valid {
            FireReady();
            assert listeners == [] && trace == sent + Invoked(registered);
          }
        case Throw(e) =>
          if e == UnauthorizedMessage {
            FireReady();
            trace := trace + [ErrorShown(InvalidKeyMessage)];
            assert listeners == [] && trace == sent + Invoked(registered) + [ErrorShown(InvalidKeyMessage)];
          } else {
            trace := trace + [RecoveryMenuShown];
            assert listeners == registered && trace == sent + [RecoveryMenuShown];
          }
          return Throw(e);
      }
      return Ok(());
    }
  }
}
