# Session registry and request dispatch of an MCP streamable-HTTP server

This project models the session layer of a small Model Context Protocol server
(`src/index.ts`). The server keeps a process-wide dictionary `transports` that
maps session ids to SDK transports. Three routes use it:

- `POST /mcp` reuses the transport registered under the `mcp-session-id`
  header. When there is no id and the body is an initialize request, it builds
  a new transport and connects it. Anything else is rejected with 400.
- `GET /mcp` and `DELETE /mcp` share one handler. It forwards to the
  registered transport, or answers 400.
- `GET /health` reports how many sessions are registered.

Only the transport's own callbacks write the registry. `onsessioninitialized`
stores the transport under its new id. `onclose` deletes the transport's id
when that id is set.

Modules:

- `Options`: an optional value, used for headers, bodies and `sessionId`.
- `JsonValues`: the parsed body as a JSON value, JavaScript truthiness on it,
  and the correlation id `req.body?.id || null`.
- `Envelopes`: the five JSON-RPC error envelopes the handlers write.
- `Routing`: the pure POST decision (reuse, create or reject) and the
  GET/DELETE decision.
- `Sessions`: the registry as a value. It defines the two callbacks as events,
  the registry a history of events builds (`Replay`), and a separate
  definition of which sessions are open (`OpenSessions`). Lemmas connect the
  two and state what later requests see after a handshake or a close.
- `Server`: class `SessionServer` holds the `transports` map and a ghost
  history that `Valid()` ties it to. Its methods are the callbacks, the health
  report and the two handlers. `SessionLifecycle` runs one session from
  handshake to teardown.
- `PrototypeLookup`: the registry lookup as the source writes it, with
  inherited `Object.prototype` names (see Findings).

The SDK is abstract. The transport is a type parameter `H`.
`isInitializeRequest` is an uninterpreted `Option<Json> -> bool` parameter.
Each awaited call (`server.connect`, `transport.handleRequest`) is an
`Outcome` parameter: it resolved, or it threw with the message `String(error)`.
The id that `randomUUID` generates is simply the argument of
`OnSessionInitialized`. The clock's timestamp is a parameter of `Health`.

The model follows the code, which:

- reads the header by direct lookup, with no case-insensitive scan;
- overwrites a duplicate id instead of treating it as a fatal error;
- does not serialize requests on one session;
- does not normalize ids from numbers to strings;
- treats an empty `mcp-session-id` header as absent, since the empty string
  is falsy in JavaScript. An empty id with an initialize body therefore
  creates a session.

`Routing.PostRoute`, `Routing.SessionRoute`, `HandlePost` and `HandleSession`
look ids up by own keys only. So in the model, an id named after an
`Object.prototype` member gets 400, where the program answers 500.
`PrototypeLookup` models the program's behaviour (see Findings).

## Model

| member | source | states |
|---|---|---|
| `JsonValues.CorrelationId` | src/index.ts:149 | A truthy body `id` is echoed unchanged. Every falsy one (`0`, `""`, `false`, `null`) and a missing id or body gives `null`. |
| `Envelopes.ErrorEnvelope` | src/index.ts:107-186 | Every envelope is JSON-RPC "2.0" with code -32000. Each envelope carries its fixed message. The two client errors are 400 without `data`. The three server failures are 500 and carry the error text in `data`. Only the POST dispatch failure carries a request id; every other envelope has id `null`. |
| `Routing.PostRoute` | src/index.ts:40-47 | Reuse exactly when the header id is non-empty and registered, and then reuse that id. Create exactly when there is no id and the body is an initialize request. A present but unregistered id is rejected even with an initialize body. |
| `Routing.SessionRoute` | src/index.ts:158-159 | Forward exactly when the header id is non-empty and registered. GET/DELETE accept exactly the ids that POST reuses, whatever the body. |
| `Sessions.Apply` | src/index.ts:52-69 | A handshake stores the transport under its id and adds only that key; a fresh id grows the registry by one. A close removes exactly the transport's `sessionId` when it is set and is a no-op when unset. No other key or value changes. |
| `Sessions.CloseIsIdempotent` | src/index.ts:64-69 | Closing twice leaves the registry as closing once did. |
| `Sessions.ReplayKeys` | src/index.ts:52-69 | After any sequence of callbacks, the registry's keys are exactly the ids opened by a handshake and not deleted by a close since. |
| `Sessions.ReplayLatest` | src/index.ts:52-56 | An open session whose id was not handshaked again maps to the transport that opened it. |
| `Sessions.ClosedSessionIsUnknown` | src/index.ts:64-69 | Once a session is closed, and until its id is handshaked again, POST and GET/DELETE treat that id exactly as a never-registered id: reject, no session. |
| `Sessions.OpenSessionIsReused` | src/index.ts:43-46 | After a handshake under a non-empty id, and until it is closed or handshaked again, POST reuses that transport and GET/DELETE forward to it. |
| `Server.SessionServer.constructor` | src/index.ts:19 | The registry starts empty, with an empty history. |
| `Server.SessionServer.Health` | src/index.ts:22-28 | Status "ok", the clock's timestamp, and `transports` equal to the number of registry keys. That is also the number of open sessions in the history. |
| `Server.SessionServer.OnSessionInitialized` | src/index.ts:52-56 | The registry becomes the old one with `sessionId` mapped to this transport. `Valid()` is kept and the event is appended to the history. |
| `Server.SessionServer.OnClose` | src/index.ts:64-69 | The registry loses the key `sessionId` when it is set and is unchanged otherwise. `Valid()` is kept and the event is appended to the history. |
| `Server.SessionServer.HandlePost` | src/index.ts:33-152 | The handler never writes the registry. Reuse forwards to exactly the stored transport. Create forwards to the new transport only after a successful connect; a failed connect answers the 500 connect envelope (id `null`) and forwards nothing. Reject answers the 400 envelope. A forwarded request whose dispatch throws answers 500 with id `req.body?.id \|\| null`; otherwise the transport answered. |
| `Server.SessionServer.HandleSession` | src/index.ts:155-195 | A missing or unregistered id answers the 400 envelope and forwards nothing. A registered id is forwarded to its transport. A failure there answers 500 with id `null`. The registry is not written. |
| `Server.SessionLifecycle` | src/index.ts:43-69 | Initialize without id, then handshake under `id`: a later POST bearing `id` reaches the same transport. After DELETE and the close callback, GET bearing `id` answers 400. |
| `PrototypeLookup.Index` | src/index.ts:43-172 | `transports[key]` on the plain object: the own entry if there is one; otherwise an inherited (truthy) value exactly for `Object.prototype` names; otherwise `undefined`. |
| `PrototypeLookup.PostRouteAsWritten` | src/index.ts:43-47 | As written, POST reuses any id that is registered or is an inherited name. A reused id that is not registered is such a name. |
| `PrototypeLookup.SessionRouteAsWritten` | src/index.ts:159 | As written, GET/DELETE pass any id that is registered or is an inherited name. |
| `PrototypeLookup.InheritedReuseEnvelope` | src/index.ts:135-187 | Reusing an inherited value makes `handleRequest` throw. The POST catch block or the GET/DELETE catch block then answers 500. |
| `PrototypeLookup.InheritedNameIsTakenForASession` | src/index.ts:43 | With an empty registry, id `constructor` is reused as written and answered 500. The own-key routing rejects it with 400. |
| `PrototypeLookup.AgreesOffInheritedNames` | src/index.ts:43-159 | For every id that is not an inherited name, the as-written and own-key decisions agree. |

## Left out

- Express setup, JSON body parsing, CORS, `app.listen` and the port taken
  from the environment: framework and I/O plumbing.
- Logging, and the clock behind the ISO timestamps: side effects only. The
  health timestamp is a parameter.
- Constructing `McpServer` and the `get_forecast` tool: foreign library code.
  Only the outcome of `server.connect` is modelled.
- The internals of `StreamableHTTPServerTransport.handleRequest` (SSE
  streaming, how DELETE tears a session down) and of `isInitializeRequest`:
  SDK code that is not shown. The first is an `Outcome` parameter. Any
  callbacks it fires are the separate `OnSessionInitialized` / `OnClose` calls.
  The second is an uninterpreted predicate.
- `randomUUID`: the generated id is an argument, so freshness is not assumed.
  Where it matters (`Apply` growing the registry by one), freshness is a
  hypothesis.
- Interleaving of concurrent async requests: every handler is modelled as one
  atomic step over the registry.
- The HTTP status and headers a successful `handleRequest` writes, including
  the `mcp-session-id` response header: these belong to the SDK.

## Findings

| source | as written | input that shows it | evidently intended | confidence | as-written member | corrected member |
|---|---|---|---|---|---|---|
| src/index.ts:43, src/index.ts:159 | `transports[sessionId]` on a plain object literal is truthy for names inherited from `Object.prototype`. Such an unregistered id takes the reuse path, and calling `handleRequest` on it throws. | `mcp-session-id: constructor` with an empty registry, on POST, GET or DELETE | an unregistered id is answered 400 (`Bad Request: No valid session ID provided` / `Invalid or missing session ID`) | medium, not executed | `PrototypeLookup.InheritedNameIsTakenForASession` | `Routing.PostRoute`, `Routing.SessionRoute` |
