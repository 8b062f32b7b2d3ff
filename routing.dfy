/**
 * The pure routing decisions of the POST handler (reuse, create or reject)
 * and of the shared GET/DELETE handler.
 */
module Routing {
  import opened Options

  /** `if (sessionId)` on `string | undefined`: present and not the empty string. */
  predicate HasSessionId(header: Option<string>) {
    header.Some? && header.value != ""
  }

  datatype Route =
      /** Forward to the transport registered under `id`. */
    | Reuse(id: string)
      /** Build a new transport for an initialize request. */
    | Create
      /** Answer 400 without touching the registry. */
    | Reject

  /**
   * The POST decision. A registered id is reused whatever the body; a new
   * session is created only for an initialize body without any id; an id that
   * is present but not registered is rejected, even with an initialize body.
   */
  function PostRoute<H>(header: Option<string>, transports: map<string, H>, isInit: bool): (r: Route)
    ensures r.Reuse? <==> HasSessionId(header) && header.value in transports
    ensures r.Reuse? ==> header == Some(r.id) && r.id in transports
    ensures r.Create? <==> !HasSessionId(header) && isInit
    ensures HasSessionId(header) && header.value !in transports ==> r.Reject?
    ensures !HasSessionId(header) && !isInit ==> r.Reject?
  {
    if HasSessionId(header) && header.value in transports then Reuse(header.value)
    else if !HasSessionId(header) && isInit then Create
    else Reject
  }

  /**
   * The GET/DELETE decision: the registered id to forward to, or `None` when
   * the id is missing or unknown.
   */
  function SessionRoute<H>(header: Option<string>, transports: map<string, H>): (r: Option<string>)
    ensures r.Some? <==> HasSessionId(header) && header.value in transports
    ensures r.Some? ==> r == header && r.value in transports
    ensures forall isInit: bool :: r.Some? <==> PostRoute(header, transports, isInit).Reuse?
  {
    if HasSessionId(header) && header.value in transports then header else None
  }
}
