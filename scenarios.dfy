/** Concrete runs of the registry, `init` and `get`/`list`, derived from the
    contracts alone. */
module Scenarios {
  import opened Js
  import opened Requests
  import opened Registry
  import opened Operations
  import opened Engine

  const LocalServer := "http://localhost:3011"
  const Token := "abc"

  /** The same callback registered twice runs once; a second `fireReady`
      with nothing registered since runs nothing. */
  method RegisterTwiceFireTwice() returns (events: seq<Event>, left: seq<ListenerId>)
    ensures events == [ListenerInvoked(7)]
    ensures left == []
  {
    var engine := new NomieServerStorage(map[]);
    engine.OnReady(7);
    ghost var once := engine.listeners;
    assert once == [7];
    engine.OnReady(7);
    assert engine.listeners == once;
    assert Invoked(once) == [ListenerInvoked(7)] by {
      assert once[..0] == [];
    }
    engine.FireReady();
    engine.FireReady();
    events, left := engine.trace, engine.listeners;
  }

  /** Nothing stored, no options and empty prompt answers: both empty answers
      are stored, the error is shown and thrown, nothing is sent and no
      listener runs. */
  method InitWithoutCredentials() returns (r: Outcome<()>, events: seq<Event>, stored: map<string, string>)
    ensures r == Throw(MissingServerMessage)
    ensures events == [Prompted(UrlLabel, Some(UrlDefault)), Prompted(TokenLabel, None), ErrorShown(MissingServerMessage)]
    ensures stored == map[UrlKey := "", TokenKey := ""]
  {
    var engine := new NomieServerStorage(map[]);
    engine.OnReady(1);
    r := engine.Init(ServerOptions(Undefined, Undefined), Str(""), Str(""), Answered(Response(200, "OK", Parsed(JNull))));
    events, stored := engine.trace, engine.kv;
  }

  /** Stored endpoint and token, the probe answers 200: the listener runs,
      no prompt, no recovery menu. */
  method InitValid() returns (r: Outcome<()>, events: seq<Event>)
    ensures r == Ok(())
    ensures events == [Requested(ProbeRequest(Str(LocalServer), Str(Token))), ListenerInvoked(1)]
  {
    var engine := new NomieServerStorage(map[UrlKey := LocalServer, TokenKey := Token]);
    engine.OnReady(1);
    ghost var once := engine.listeners;
    assert once == [1];
    assert Invoked(once) == [ListenerInvoked(1)] by {
      assert once[..0] == [];
    }
    r := engine.Init(ServerOptions(Undefined, Undefined), Undefined, Undefined, Answered(Response(200, "OK", Parsed(JBool(true)))));
    events := engine.trace;
  }

  /** The probe answers 401: `fetch` does not throw on it, so the recovery
      menu opens, no listener runs and `init` resolves. */
  method InitStatus401() returns (r: Outcome<()>, events: seq<Event>, left: seq<ListenerId>)
    ensures r == Ok(())
    ensures events == [Requested(ProbeRequest(Str(LocalServer), Str(Token))), RecoveryMenuShown]
    ensures left == [1]
  {
    var engine := new NomieServerStorage(map[]);
    engine.OnReady(1);
    r := engine.Init(ServerOptions(Str(LocalServer), Str(Token)), Undefined, Undefined, Answered(Response(401, "Unauthorized", Parsed(JNull))));
    events, left := engine.trace, engine.listeners;
  }

  /** The probe throws a transport error: the recovery menu opens and `init`
      rejects with that error. */
  method InitNetworkDown() returns (r: Outcome<()>, events: seq<Event>)
    ensures r == Throw("Failed to fetch")
    ensures events == [Requested(ProbeRequest(Str(LocalServer), Str(Token))), RecoveryMenuShown]
  {
    var engine := new NomieServerStorage(map[]);
    engine.OnReady(1);
    r := engine.Init(ServerOptions(Str(LocalServer), Str(Token)), Undefined, Undefined, Failed("Failed to fetch"));
    events := engine.trace;
  }

  /** The probe throws an Error whose message is 'Unauthorized': the listener
      runs, then the invalid-key error is shown, and `init` rejects. */
  method InitThrownUnauthorized() returns (r: Outcome<()>, events: seq<Event>)
    ensures r == Throw(UnauthorizedMessage)
    ensures events == [Requested(ProbeRequest(Str(LocalServer), Str(Token))), ListenerInvoked(1), ErrorShown(InvalidKeyMessage)]
  {
    var engine := new NomieServerStorage(map[]);
    engine.OnReady(1);
    ghost var once := engine.listeners;
    assert once == [1];
    assert Invoked(once) == [ListenerInvoked(1)] by {
      assert once[..0] == [];
    }
    r := engine.Init(ServerOptions(Str(LocalServer), Str(Token)), Undefined, Undefined, Failed(UnauthorizedMessage));
    events := engine.trace;
  }

  /** `{ data: [1, 2, 3] }` and `[1, 2, 3]` both come back from `get` as
      `[1, 2, 3]`; `list()` without a path asks for "/". */
  lemma EnvelopeAndListExamples()
    ensures var items := [JNumber(1.0), JNumber(2.0), JNumber(3.0)];
            var ok := Answered(Response(200, "OK", Parsed(JObject(map["data" := JArray(items)]))));
            var bare := Answered(Response(200, "OK", Parsed(JArray(items))));
            Get(Str(LocalServer), Str(Token), "trackers", ok) == JArray(items)
            && Get(Str(LocalServer), Str(Token), "trackers", bare) == JArray(items)
    ensures ListRequest(Str(LocalServer), Str(Token), Undefined).value.body == Some(JObject(map["path" := JString("/")]))
  {
  }
}
