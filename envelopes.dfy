/**
 * The JSON-RPC error envelopes the router writes itself, one per failure the
 * handlers recognise.
 */
module Envelopes {
  import opened Options
  import opened JsonValues

  /** The failures the POST and GET/DELETE handlers answer with an envelope. */
  datatype Failure =
      /** POST: neither a registered session id nor an initialize request without one. */
    | NoValidSession
      /** POST, create path: connecting the new transport to its server threw `error`. */
    | ConnectFailed(error: string)
      /** POST: the transport's `handleRequest` threw `error`; `requestId` is the correlation id. */
    | DispatchFailed(error: string, requestId: Json)
      /** GET/DELETE: the session id is missing or not registered. */
    | InvalidSession
      /** GET/DELETE: the transport's `handleRequest` threw `error`. */
    | SessionFailed(error: string)

  /** Failures caused by the client's request rather than by the server. */
  predicate IsClientError(f: Failure) {
    f.NoValidSession? || f.InvalidSession?
  }

  /**
   * An HTTP status with the JSON body
   * `{jsonrpc, error: {code, message, data?: {error}}, id}`; `data` holds the
   * stringified exception when there is one.
   */
  datatype Envelope = Envelope(
    status: nat,
    jsonrpc: string,
    code: int,
    message: string,
    data: Option<string>,
    id: Json)

  function Message(f: Failure): string {
    match f
    case NoValidSession => "Bad Request: No valid session ID provided"
    case ConnectFailed(_) => "Internal server error during connection"
    case DispatchFailed(_, _) => "Internal server error while handling request"
    case InvalidSession => "Invalid or missing session ID"
    case SessionFailed(_) => "Internal server error while handling session request"
  }

  /**
   * The envelope written for failure `f`. Every envelope is JSON-RPC 2.0 with
   * code -32000 and its failure's fixed message; client errors are 400 without
   * `data`, server failures are 500
   * and carry the exception text; only a POST dispatch failure is correlated to
   * the request, every other envelope has id `null`.
   */
  function ErrorEnvelope(f: Failure): (e: Envelope)
    ensures e.jsonrpc == "2.0" && e.code == -32000
    ensures e.status == 400 <==> IsClientError(f)
    ensures e.status == 500 <==> !IsClientError(f)
    ensures e.data.Some? <==> !IsClientError(f)
    ensures !IsClientError(f) ==> e.data == Some(f.error)
    ensures f.DispatchFailed? ==> e.id == f.requestId
    ensures !f.DispatchFailed? ==> e.id == JNull
    ensures f.NoValidSession? ==> e.message == "Bad Request: No valid session ID provided"
    ensures f.InvalidSession? ==> e.message == "Invalid or missing session ID"
    ensures f.ConnectFailed? ==> e.message == "Internal server error during connection"
    ensures f.DispatchFailed? ==> e.message == "Internal server error while handling request"
    ensures f.SessionFailed? ==> e.message == "Internal server error while handling session request"
  {
    match f
    case NoValidSession => Envelope(400, "2.0", -32000, Message(f), None, JNull)
    case InvalidSession => Envelope(400, "2.0", -32000, Message(f), None, JNull)
    case ConnectFailed(err) => Envelope(500, "2.0", -32000, Message(f), Some(err), JNull)
    case SessionFailed(err) => Envelope(500, "2.0", -32000, Message(f), Some(err), JNull)
    case DispatchFailed(err, id) => Envelope(500, "2.0", -32000, Message(f), Some(err), id)
  }
}
