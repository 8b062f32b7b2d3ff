/**
 * The server's mutable state and its request handlers: the process-wide
 * `transports` registry, the two callbacks every new transport writes it
 * through, the health report, the POST handler and the handler GET and DELETE
 * share.
 */
module Server {
  import opened Options
  import opened JsonValues
  import opened Envelopes
  import opened Routing
  import opened Sessions

  /** How an awaited SDK call settled: `error` is `String(error)` of what it threw. */
  datatype Outcome = Resolved | Rejected(error: string)

  /** What a handler did with a request. */
  datatype Reply<H> =
      /** Forwarded to `transport`, whose `handleRequest` wrote the response. */
    | Handled(transport: H)
      /** The handler wrote `envelope` itself, after forwarding to `forwardedTo` if that is set. */
    | Errored(forwardedTo: Option<H>, envelope: Envelope)
  {
    function ForwardedTo(): Option<H> {
      match this
      case Handled(t) => Some(t)
      case Errored(f, _) => f
    }
  }

  /** The body of `GET /health`. */
  datatype HealthReport = HealthReport(status: string, timestamp: string, transports: nat)

  /**
   * The server. `H` stands for the SDK's transport object, which the model
   * never looks into.
   */
  class SessionServer<H> {
    /** Session id to transport: the only state shared between requests. */
    var transports: map<string, H>
    /** Every callback that has written `transports`, oldest first. */
    ghost var history: seq<Event<H>>

    ghost predicate Valid()
      reads this
    {
      transports == Replay(history)
    }

    constructor ()
      ensures Valid() && transports == map[] && history == []
    {
      transports := map[];
      history := [];
    }

    /** `GET /health`: reports the number of open sessions; `timestamp` comes from the clock. */
    method Health(timestamp: string) returns (r: HealthReport)
      requires Valid()
      ensures r.status == "ok" && r.timestamp == timestamp
      ensures r.transports == |transports.Keys| == |OpenSessions(history)|
    {
      ReplayKeys(history);
      r := HealthReport("ok", timestamp, |transports.Keys|);
    }

    /** `onsessioninitialized(sessionId)` of `transport`: store it under `sessionId`. */
    method OnSessionInitialized(sessionId: string, transport: H)
      requires Valid()
      modifies this
      ensures Valid()
      ensures history == old(history) + [Opened(sessionId, transport)]
      ensures transports == old(transports)[sessionId := transport]
    {
      ghost var e := Opened(sessionId, transport);
      assert Apply(transports, e) == transports[sessionId := transport];
      transports := transports[sessionId := transport];
      history := history + [e];
      assert history[..|history| - 1] == old(history);
      assert Replay(history) == Apply(Replay(old(history)), e);
    }

    /** `onclose` of a transport whose `sessionId` field is `sessionId`. */
    method OnClose(sessionId: Option<string>)
      requires Valid()
      modifies this
      ensures Valid()
      ensures history == old(history) + [Closed(sessionId)]
      ensures transports == (if HasSessionId(sessionId) then old(transports) - {sessionId.value} else old(transports))
    {
      ghost var e: Event<H> := Closed(sessionId);
      ghost var closed := Apply(transports, e);
      if HasSessionId(sessionId) {
        transports := transports - {sessionId.value};
      }
      assert transports == closed;
      history := history + [e];
      assert history[..|history| - 1] == old(history);
      assert Replay(history) == Apply(Replay(old(history)), e);
    }

    /**
     * `POST /mcp`. `isInitialize` is the SDK's initialize detector, `created`
     * the transport a create path constructs, `connect` and `dispatch` how
     * connecting it and its `handleRequest` settle. The handler never writes
     * the registry (a new transport is registered later, by its handshake
     * callback). A registered id is forwarded to its own transport; a create
     * forwards to the new transport only when connecting succeeded; a dispatch
     * failure answers 500 correlated by `req.body?.id || null`.
     */
    method HandlePost(header: Option<string>, body: Option<Json>, isInitialize: Option<Json> -> bool,
                      created: H, connect: Outcome, dispatch: Outcome)
      returns (reply: Reply<H>)
      ensures PostRoute(header, transports, isInitialize(body)).Reuse? ==>
                reply.ForwardedTo() == Some(transports[header.value])
      ensures PostRoute(header, transports, isInitialize(body)).Create? && connect.Resolved? ==>
                reply.ForwardedTo() == Some(created)
      ensures PostRoute(header, transports, isInitialize(body)).Create? && connect.Rejected? ==>
                reply == Errored(None, ErrorEnvelope(ConnectFailed(connect.error)))
      ensures PostRoute(header, transports, isInitialize(body)).Reject? ==>
                reply == Errored(None, ErrorEnvelope(NoValidSession))
      ensures reply.ForwardedTo().Some? ==>
                reply == if dispatch.Resolved? then Handled(reply.ForwardedTo().value)
                         else Errored(reply.ForwardedTo(),
                                      ErrorEnvelope(DispatchFailed(dispatch.error, CorrelationId(body))))
    {
      var transport: H;
      var route := PostRoute(header, transports, isInitialize(body));
      if route.Reuse? {
        transport := transports[route.id];
      } else if route.Create? {
        transport := created;
        if connect.Rejected? {
          return Errored(None, ErrorEnvelope(ConnectFailed(connect.error)));
        }
      } else {
        return Errored(None, ErrorEnvelope(NoValidSession));
      }
      if dispatch.Rejected? {
        reply := Errored(Some(transport), ErrorEnvelope(DispatchFailed(dispatch.error, CorrelationId(body))));
      } else {
        reply := Handled(transport);
      }
    }

    /**
     * `GET /mcp` and `DELETE /mcp`: a missing or unregistered id answers 400
     * and forwards nothing; a registered id is forwarded to its transport, and
     * a failure there answers 500 with id `null`. The registry is not written.
     */
    method HandleSession(header: Option<string>, forward: Outcome) returns (reply: Reply<H>)
      ensures SessionRoute(header, transports).None? ==>
                reply == Errored(None, ErrorEnvelope(InvalidSession))
      ensures SessionRoute(header, transports).Some? ==>
                reply == if forward.Resolved? then Handled(transports[header.value])
                         else Errored(Some(transports[header.value]), ErrorEnvelope(SessionFailed(forward.error)))
    {
      var route := SessionRoute(header, transports);
      if route.None? {
        return Errored(None, ErrorEnvelope(InvalidSession));
      }
      var transport := transports[route.value];
      if forward.Rejected? {
        reply := Errored(Some(transport), ErrorEnvelope(SessionFailed(forward.error)));
      } else {
        reply := Handled(transport);
      }
    }
  }

  /**
   * One session from handshake to teardown, on a fresh server: an initialize
   * POST without id is forwarded to the new transport, whose handshake
   * registers it under `id`; a later POST bearing `id` reaches that same
   * transport; a DELETE is forwarded to it and its close deletes `id`; a GET
   * bearing `id` after that is answered 400 like one bearing an unknown id.
   */
  method SessionLifecycle<H>(id: string, transport: H, isInitialize: Option<Json> -> bool,
                             initialize: Json, call: Json)
    returns (opening: Reply<H>, calling: Reply<H>, deleting: Reply<H>, after: Reply<H>)
    requires id != "" && isInitialize(Some(initialize))
    ensures opening == calling == deleting == Handled(transport)
    ensures after == Errored(None, ErrorEnvelope(InvalidSession))
  {
    var server := new SessionServer<H>();
    opening := server.HandlePost(None, Some(initialize), isInitialize, transport, Resolved, Resolved);
    server.OnSessionInitialized(id, transport);
    calling := server.HandlePost(Some(id), Some(call), isInitialize, transport, Resolved, Resolved);
    deleting := server.HandleSession(Some(id), Resolved);
    server.OnClose(Some(id));
    after := server.HandleSession(Some(id), Resolved);
  }
}
