# Nomie Server storage engine — a Dafny model

This project models the core of the Nomie Server storage engine of Nomie 6, the engine that stores the
app's data on a remote Nomie Server over an authenticated REST API instead of in the browser. The model covers
four parts:

- the request layer `nsGet` / `nsPost` / `nsDelete`. A request goes to `<apiUrl>/api/<path>` and carries
  `Authorization: Bearer <apiToken>`, which is the Bearer scheme of section 2.1 of RFC 6750. A configuration error
  is raised when no endpoint is set.
- the storage operations `get` (fail-soft, with the `{ data: [...] }` envelope unwrap), `put`, `list` and
  `delete`.
- the ready-listener registry `onReady` / `fireReady`.
- the `init` lifecycle. It resolves the credentials (stored values first, then options, then prompts, and
  persists the answers). It then sends one validation probe and classifies the outcome.

Layout:

- `js.dfy` (module `Js`): the JavaScript values the engine handles. It holds the parsed JSON value `Json`,
  string slots that may be `undefined` or `null` (`Text`), truthiness, `a || b`, string coercion, and `Outcome`
  (a value, or a thrown error with its message).
- `requests.dfy` (module `Requests`): the request builder `Call` and its three uses `NsGet`, `NsPost` and
  `NsDelete`. `Send` is where the transport's reply meets the request. `ApiPath` and `BearerToken` read a URL's
  path and a request's token back out, as partners of the builder.
- `operations.dfy` (module `Operations`): `Unwrap`, `Get`, `Put`, `ListPath`, `List` and `Delete`, with the
  request each one issues.
- `registry.dfy` (module `Registry`): registration as a value (`Registered`, `RegisterAll`) and its lemmas.
- `engine.dfy` (module `Engine`): the class `NomieServerStorage`. It holds the program's module-level state
  (`listeners`, `apiUrl`, `apiToken`), the browser key-value store that `init` writes (`kv`), and an event
  `trace`. The trace records prompts, `Interact.error` messages, the recovery menu, the probe request and
  every listener call. Its methods are `OnReady`, `FireReady`, `Validate`, `AcquireCredentials` (the
  credential block of `init`) and `Init`.
- `scenarios.dfy` (module `Scenarios`): concrete runs derived from the contracts alone.

The environment is a set of inputs. These are the stored key-value entries, `options.server`, the two prompt
answers and the transport's reply to each request. A reply is either an answer (status, status text, and a body
that parsed or failed to parse) or a thrown transport error. The storage operations receive the engine's
current `apiUrl` and `apiToken` as arguments, and with them the reply to the request they build.
`Requests.Send` stands for awaiting `fetch` on a built request, and `Engine.StoredItem` for
`localStorage.getItem`, which yields `null` for a missing key.

## Behaviour as coded

Behaviour of the code worth knowing:

- A 401 response does not make the engine "ready but unauthorized". `fetch` resolves on any status, so
  `validate` sees a non-ok response. It then opens the recovery menu and returns false, and `init` resolves
  normally without firing ready. Only an error thrown with the exact message `'Unauthorized'` fires the
  listeners, shows the invalid-key message and is rethrown (`InitStatus401`, `InitThrownUnauthorized`).
- `fireReady` does not isolate listeners. A throwing listener would abort the `forEach` and leave the list
  uncleared. The model's listeners never throw, and nothing in it claims isolation.
- Only the endpoint is checked before a request. An unset token is sent as `Bearer undefined` (`Call`).
- A `put` followed by a `get` returns the stored content only when it is truthy and not an envelope
  (`PutThenGet`). Falsy content comes back as `[]`, and an object with an array `data` field comes back
  as that array.
- Prompt answers are written with `localStorage.setItem`, which turns `undefined` into the text "undefined".
  The next `init` takes that text for a configured endpoint (`UndefinedAnswerStoredAsText`).

## Model

| member | source | states |
|---|---|---|
| `Requests.Call` | src/domains/storage/engines/nomie-server/engine.nomie-server.ts:52-89 | a request is built iff `apiUrl` is a non-empty string. The URL reads back as `apiUrl` + "/api/" + path, and the header carries `Bearer <apiToken>` (the token is never checked). A JSON content type is set iff the verb is POST. Otherwise the error is the verb's own "API URL not set" message |
| `Requests.ReplyMattersIffBuilt` | src/domains/storage/engines/nomie-server/engine.nomie-server.ts:53-59 | the transport's reply decides the outcome exactly when the request was built: a configuration error is thrown before `fetch` and is the same for every reply, while a built request passes each reply's own transport error through |
| `Requests.NoRequestWithoutEndpoint` | src/domains/storage/engines/nomie-server/engine.nomie-server.ts:53 | with an undefined, null or empty endpoint, every verb throws its configuration error, whatever the network would have replied |
| `Requests.ApiPathOfBuiltUrl` | src/domains/storage/engines/nomie-server/engine.nomie-server.ts:54 | the path is read back from `apiUrl + "/api/" + path` |
| `Requests.ParseBearerOfBuilt` | src/domains/storage/engines/nomie-server/engine.nomie-server.ts:56 | the token is read back from a `Bearer <token>` header value |
| `Engine.NomieServerStorage.Validate` | src/domains/storage/engines/nomie-server/engine.nomie-server.ts:91-99 | the request layer's error propagates with nothing sent. Otherwise the probe to `auth/validate` is sent. An ok status yields true; a non-ok status opens the recovery menu and yields false; a transport error propagates |
| `Engine.ProbeRequest` | src/domains/storage/engines/nomie-server/engine.nomie-server.ts:92 | the probe is a GET of `auth/validate` that carries the token |
| `Registry.Registered` | src/domains/storage/engines/nomie-server/engine.nomie-server.ts:105-110 | `f` is appended when absent, and the list is unchanged when `f` is present. The old list stays a prefix, and a duplicate-free list stays duplicate-free |
| `Registry.RegisteredIdempotent` | src/domains/storage/engines/nomie-server/engine.nomie-server.ts:107 | registering the same listener twice equals registering it once |
| `Registry.RegisterAllNoDup` | src/domains/storage/engines/nomie-server/engine.nomie-server.ts:105-110 | any run of `onReady` calls keeps the list duplicate-free |
| `Registry.RegisterAllKeepsPrefix` | src/domains/storage/engines/nomie-server/engine.nomie-server.ts:105-110 | any run of `onReady` calls keeps earlier registrations as a prefix, in their order |
| `Registry.RegisterAllMembers` | src/domains/storage/engines/nomie-server/engine.nomie-server.ts:105-110 | after any run of `onReady` calls, a listener is registered iff it was registered before or during the run |
| `Registry.RegisterAllPresent` | src/domains/storage/engines/nomie-server/engine.nomie-server.ts:107 | registering listeners that are all registered already changes nothing |
| `Registry.RegisterAllIdempotent` | src/domains/storage/engines/nomie-server/engine.nomie-server.ts:105-110 | repeating a run of registrations changes nothing |
| `Engine.NomieServerStorage.constructor` | src/domains/storage/engines/nomie-server/engine.nomie-server.ts:11-13 | module load: no listeners, and `apiUrl`/`apiToken` undefined |
| `Engine.NomieServerStorage.OnReady` | src/domains/storage/engines/nomie-server/engine.nomie-server.ts:105-110 | the new list is `Registered(old list, f)`, and the registry stays duplicate-free |
| `Engine.NomieServerStorage.FireReady` | src/domains/storage/engines/nomie-server/engine.nomie-server.ts:114-119 | the trace gains one invocation per registered listener, in list order, and the list is then empty |
| `Engine.InvokedInOrder` | src/domains/storage/engines/nomie-server/engine.nomie-server.ts:115-117 | the i-th invocation is of the i-th registered listener |
| `Engine.InvokedExactlyOnce` | src/domains/storage/engines/nomie-server/engine.nomie-server.ts:114-119 | in a duplicate-free registry, every registered listener is invoked exactly once and no other is invoked |
| `Engine.StoredItemAfterSet` | src/domains/storage/engines/nomie-server/engine.nomie-server.ts:122-130 | `getItem` reads back what `setItem` wrote under the same key, and a write under one key leaves every other key's entry as it was |
| `Js.Or` | src/domains/storage/engines/nomie-server/engine.nomie-server.ts:122-123 | the logical or of two slots yields `a` when it is a non-empty string, else `b`. The result is present iff either operand is |
| `Engine.ResolveCredentials` | src/domains/storage/engines/nomie-server/engine.nomie-server.ts:122-130 | a stored value takes precedence over the option. The user is prompted iff the URL or the token is still missing. Then both are replaced by the answers and both are persisted, coerced to text, even when empty. Otherwise the store is unchanged and both are non-empty |
| `Engine.PromptAnswersPersist` | src/domains/storage/engines/nomie-server/engine.nomie-server.ts:122-130 | non-empty prompt answers are read back by the next `init` without a new prompt, whatever its options |
| `Engine.UndefinedAnswerStoredAsText` | src/domains/storage/engines/nomie-server/engine.nomie-server.ts:126-130 | an `undefined` URL answer fails this `init`, but it is persisted as "undefined", which the next `init` uses as the endpoint |
| `Engine.NomieServerStorage.AcquireCredentials` | src/domains/storage/engines/nomie-server/engine.nomie-server.ts:122-130 | the endpoint, the token and the key-value store become what `ResolveCredentials` gives. The trace gains the two prompts exactly when the user was prompted |
| `Engine.NomieServerStorage.Init` | src/domains/storage/engines/nomie-server/engine.nomie-server.ts:120-158 | credentials as `ResolveCredentials` gives them. If either is empty: show the error, throw it, send nothing, fire nothing. After the probe: an ok status fires the listeners and resolves; a non-ok status shows the recovery menu, fires nothing and resolves; a thrown 'Unauthorized' fires the listeners, shows the invalid-key error and rethrows; any other thrown error shows the recovery menu and rethrows |
| `Operations.Unwrap` | src/domains/storage/engines/nomie-server/engine.nomie-server.ts:181-185 | an envelope yields its `data` array, any other truthy body is returned as-is, and a falsy body yields `[]`. The result is never falsy |
| `Operations.UnwrapFixedPoint` | src/domains/storage/engines/nomie-server/engine.nomie-server.ts:181-185 | a body is returned unchanged iff it is truthy and not an envelope |
| `Operations.UnwrapIdempotent` | src/domains/storage/engines/nomie-server/engine.nomie-server.ts:181-185 | unwrapping an unwrapped body changes nothing |
| `Operations.GetRequest` | src/domains/storage/engines/nomie-server/engine.nomie-server.ts:176 | `get` issues a GET of `n6storage/<path>`, or fails when no endpoint is set |
| `Operations.Get` | src/domains/storage/engines/nomie-server/engine.nomie-server.ts:174-191 | never throws, and the result is always truthy. The configuration error, a transport error, a non-ok status or an unparsable body each yield `[]`. An ok parsed body yields its unwrap |
| `Operations.PutThenGet` | src/domains/storage/engines/nomie-server/engine.nomie-server.ts:165-185 | after a successful `put`, a `get` whose ok reply carries the same content returns that content iff it is truthy and not an envelope |
| `Operations.PutRequest` | src/domains/storage/engines/nomie-server/engine.nomie-server.ts:166 | `put` POSTs the content to `n6storage/<path>` |
| `Operations.Put` | src/domains/storage/engines/nomie-server/engine.nomie-server.ts:165-171 | a non-ok status throws "Failed to save <path>: <statusText>". The configuration error and a transport error are rethrown as they are, and so is the parse error of an ok response's body. The call succeeds iff the status is ok and the body parses, and then yields the parsed body |
| `Operations.ListPath` | src/domains/storage/engines/nomie-server/engine.nomie-server.ts:194 | the path itself when it is a non-empty string, "/" when it is absent or empty |
| `Operations.ListRequest` | src/domains/storage/engines/nomie-server/engine.nomie-server.ts:193-195 | `list` POSTs `{ path: ListPath(path) }` to `n6storage/list` |
| `Operations.List` | src/domains/storage/engines/nomie-server/engine.nomie-server.ts:193-198 | yields the parsed body iff the request is built, the transport answers and the body parses. Otherwise it rethrows that very error: the configuration error, the transport error or the parse error. The status is not consulted |
| `Operations.ListIgnoresStatus` | src/domains/storage/engines/nomie-server/engine.nomie-server.ts:195-197 | two replies that differ only in status give the same `list` outcome |
| `Operations.DeleteRequest` | src/domains/storage/engines/nomie-server/engine.nomie-server.ts:200 | `delete` issues a DELETE of `n6storage/<path>` |
| `Operations.Delete` | src/domains/storage/engines/nomie-server/engine.nomie-server.ts:199-201 | the raw response, whatever its status. Request-layer and transport errors propagate |
| `Scenarios.RegisterTwiceFireTwice` | src/domains/storage/engines/nomie-server/engine.nomie-server.ts:105-119 | one callback registered twice runs once, and a second `fireReady` runs nothing |
| `Scenarios.InitWithoutCredentials` | src/domains/storage/engines/nomie-server/engine.nomie-server.ts:120-140 | nothing stored, no options and empty answers: both empty answers are stored, the error is shown and thrown, and no listener runs |
| `Scenarios.InitValid` | src/domains/storage/engines/nomie-server/engine.nomie-server.ts:142-158 | stored credentials and a 200 probe: one request, then the listener runs, and `init` resolves |
| `Scenarios.InitStatus401` | src/domains/storage/engines/nomie-server/engine.nomie-server.ts:91-99 | a 401 probe opens the recovery menu, keeps the listener registered and resolves |
| `Scenarios.InitNetworkDown` | src/domains/storage/engines/nomie-server/engine.nomie-server.ts:148-156 | a transport error opens the recovery menu and is rethrown |
| `Scenarios.InitThrownUnauthorized` | src/domains/storage/engines/nomie-server/engine.nomie-server.ts:148-156 | a thrown 'Unauthorized' runs the listener, shows the invalid-key error and is rethrown |
| `Scenarios.EnvelopeAndListExamples` | src/domains/storage/engines/nomie-server/engine.nomie-server.ts:181-195 | `{ data: [1, 2, 3] }` and `[1, 2, 3]` both yield `[1, 2, 3]`, and `list()` asks for "/" |

## Left out

- The `fetch` transport, `Response.json()` and `JSON.stringify` are foreign calls. The transport's reply is an input: a status, a status text, and a body that parsed or failed to parse. A request body is the JSON value before serialisation.
- The recovery menu's button actions (reload, switch to local storage, erase the stored configuration) are browser side effects. The model records only that the menu was shown.
- How `Interact.prompt` and `Interact.error` are rendered is UI. Prompt answers are inputs, and shown errors are trace events.
- Asynchronous suspension, and `init` calls that overlap, are not modelled. Each call is atomic.
- `getProfile` returns a constant, `basePath` is the identity, and `console.error` is only a log. All three are left out.
- Engine.NomieServerStorage.FireReady: the listeners are opaque ids that never throw, so the model does not capture how a throwing listener aborts the `forEach` and leaves the list uncleared.
- Engine.NomieServerStorage.Init: since listeners never throw, the model does not capture what `init` does when one throws inside the `fireReady` of a valid probe. The catch receives that error. With any message other than 'Unauthorized' it opens the recovery menu and rethrows. With 'Unauthorized' it calls `fireReady` again over the list that was never cleared, so listeners run twice.
- Engine.NomieServerStorage.FireReady: a listener that calls `onReady` while the registry fires is not modelled.
- Engine.NomieServerStorage.Init: `localStorage.setItem` never throws in the model (a full quota is not modelled). The option fields are strings, `null` or `undefined`, not arbitrary values.
- JSON numbers are reals. NaN cannot come out of a JSON parse, and `-0` equals `0`.
- JSON objects are maps, so key order is not modelled.
- Operations.Get, Operations.Put, Operations.List, Operations.Delete: they take `apiUrl` and `apiToken` as arguments rather than reading the engine object, and their requests are not added to the engine's trace.
