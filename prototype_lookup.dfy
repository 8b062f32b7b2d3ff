/**
 * The registry lookup exactly as the source writes it. `transports` is a plain
 * JavaScript object literal, so `transports[sessionId]` also finds the members
 * every object inherits from `Object.prototype`, which are truthy. An id equal
 * to one of those names passes the `sessionId && transports[sessionId]` test
 * of the POST handler, and the matching test of the GET/DELETE handler,
 * without being registered; the reuse branch then calls `handleRequest` on a
 * value that is not a transport, and the request is answered 500 instead of 400.
 * The rest of the model uses the own-key test of `Routing`.
 */
module PrototypeLookup {
  import opened Options
  import opened JsonValues
  import opened Envelopes
  import opened Routing

  /** The property names of `Object.prototype`. */
  const INHERITED_NAMES: set<string> := {
    "constructor", "hasOwnProperty", "isPrototypeOf", "propertyIsEnumerable",
    "toLocaleString", "toString", "valueOf", "__proto__",
    "__defineGetter__", "__defineSetter__", "__lookupGetter__", "__lookupSetter__"
  }

  /** What `transports[key]` evaluates to. */
  datatype Slot<H> = Own(transport: H) | Inherited | Missing

  /** Own keys win; otherwise an inherited name yields an inherited value, anything else `undefined`. */
  function Index<H>(transports: map<string, H>, key: string): (s: Slot<H>)
    ensures s.Own? <==> key in transports
    ensures s.Own? ==> s.transport == transports[key]
    ensures s.Inherited? <==> key !in transports && key in INHERITED_NAMES
  {
    if key in transports then Own(transports[key])
    else if key in INHERITED_NAMES then Inherited
    else Missing
  }

  /** `sessionId && transports[sessionId]` as written: both `Own` and `Inherited` are truthy. */
  predicate LooksRegistered<H>(header: Option<string>, transports: map<string, H>) {
    HasSessionId(header) && !Index(transports, header.value).Missing?
  }

  /** The POST handler's reuse/create/reject decision as written. */
  function PostRouteAsWritten<H>(header: Option<string>, transports: map<string, H>, isInit: bool): (r: Route)
    ensures r.Reuse? <==> LooksRegistered(header, transports)
    ensures r.Reuse? && r.id !in transports ==> r.id in INHERITED_NAMES
  {
    if LooksRegistered(header, transports) then Reuse(header.value)
    else if !HasSessionId(header) && isInit then Create
    else Reject
  }

  /** The GET/DELETE handler's `!sessionId || !transports[sessionId]` test as written. */
  function SessionRouteAsWritten<H>(header: Option<string>, transports: map<string, H>): (r: Option<string>)
    ensures r.Some? <==> LooksRegistered(header, transports)
    ensures r.Some? ==> r == header
  {
    if LooksRegistered(header, transports) then header else None
  }

  /** `String(error)` for calling the missing `handleRequest` member of an inherited value. */
  const NOT_A_FUNCTION := "TypeError: transport.handleRequest is not a function"

  /**
   * The envelope a request gets when routing as written reuses an inherited
   * name: the call to `handleRequest` throws, and the catch block of the POST
   * handler (`post`) or of the GET/DELETE handler answers.
   */
  function InheritedReuseEnvelope(post: bool, body: Option<Json>): (e: Envelope)
    ensures e.status == 500
  {
    if post then ErrorEnvelope(DispatchFailed(NOT_A_FUNCTION, CorrelationId(body)))
    else ErrorEnvelope(SessionFailed(NOT_A_FUNCTION))
  }

  /**
   * With an empty registry, a POST, GET or DELETE bearing session id
   * `constructor` takes the reuse branch as written and is answered 500, while
   * the own-key routing rejects it with 400 like any other unknown id.
   */
  lemma InheritedNameIsTakenForASession<H>(body: Option<Json>, isInit: bool)
    ensures PostRouteAsWritten<H>(Some("constructor"), map[], isInit) == Reuse("constructor")
    ensures SessionRouteAsWritten<H>(Some("constructor"), map[]) == Some("constructor")
    ensures InheritedReuseEnvelope(true, body).status == InheritedReuseEnvelope(false, body).status == 500
    ensures PostRoute<H>(Some("constructor"), map[], isInit) == Reject
    ensures SessionRoute<H>(Some("constructor"), map[]) == None
    ensures ErrorEnvelope(NoValidSession).status == ErrorEnvelope(InvalidSession).status == 400
  {
    assert "constructor" in INHERITED_NAMES;
  }

  /** The two lookups agree on every id that is not an inherited name. */
  lemma AgreesOffInheritedNames<H>(header: Option<string>, transports: map<string, H>, isInit: bool)
    requires header.Some? ==> header.value !in INHERITED_NAMES
    ensures PostRouteAsWritten(header, transports, isInit) == PostRoute(header, transports, isInit)
    ensures SessionRouteAsWritten(header, transports) == SessionRoute(header, transports)
  {
  }
}
