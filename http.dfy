/** The request and reply shapes the routers and middlewares work on. Request fields
    are JSON scalars; replies are the JSON bodies the code writes, kept structured
    so that each key (including misspelt ones) stays visible. */
module Http {
  import opened Common

  /** A JSON scalar in a request body, or the `id` echoed back. */
  datatype Scalar = Null | Bool(b: bool) | Num(n: int) | Str(s: string)

  /** JavaScript falsiness of a scalar. */
  predicate Falsy(v: Scalar)
  {
    v == Null || v == Bool(false) || v == Num(0) || v == Str("")
  }

  /** `req.body.id || null`: a falsy or missing id becomes `null`, any other is echoed. */
  function EchoId(id: Option<Scalar>): (r: Scalar)
    ensures r == Null <==> id.None? || Falsy(id.value)
    ensures r != Null ==> id == Some(r)
  {
    if id.None? || Falsy(id.value) then Null else id.value
  }

  /** One entry of the validator's error list: the field, the offending value, the message. */
  datatype FieldError = FieldError(path: string, value: Scalar, msg: string)

  datatype ErrorData = NoData | Text(text: string) | Problems(errors: seq<FieldError>)

  /** `{ code, message, data? }`. */
  datatype ErrorObject = ErrorObject(code: int, message: string, data: ErrorData)

  /** The JSON bodies written by this server.
      RpcFailure: `{ <versionKey>: '2.0', error, id }`.
      Notice: `{ <lead key>: <lead value>, message, errors? }`, the lead pair optional. */
  datatype Envelope =
    | RpcFailure(versionKey: string, error: ErrorObject, id: Scalar)
    | Notice(lead: Option<(string, Scalar)>, message: string, errors: Option<seq<FieldError>>)

  datatype Reply = Reply(status: int, body: Envelope)

  /** A middleware's decision: answer now, or call `next` with what it learnt. */
  datatype Gate<+T> = Reject(reply: Reply) | Next(value: T)

  /** The JSON-RPC fields of a request body; `None` is a missing key. */
  datatype RpcBody = RpcBody(jsonrpc: Option<Scalar>, rpcMethod: Option<Scalar>, id: Option<Scalar>)

  /** What the `/mcp` handlers read from a request. `isInitialize` is the protocol
      library's verdict on the body. */
  datatype Request = Request(
    sessionHeader: Option<string>,   // 'mcp-session-id'
    authorization: Option<string>,
    userAgent: Option<string>,
    ip: Option<string>,
    body: RpcBody,
    isInitialize: bool)

  /** A JSON-RPC failure with code -32000 (generic session or request error). */
  function SessionError(status: int, versionKey: string, message: string, data: ErrorData, id: Scalar): (r: Reply)
    ensures r.status == status && r.body.RpcFailure?
    ensures r.body.versionKey == versionKey && r.body.error.code == -32000
    ensures r.body.error.message == message && r.body.id == id
  {
    Reply(status, RpcFailure(versionKey, ErrorObject(-32000, message, data), id))
  }

  /** The 400 both routers give a header-less request that is not an initialize request.
      Its version key is spelt `jjsonrpc` in the source. */
  function SessionRequiredReply(id: Option<Scalar>): Reply
  {
    SessionError(400, "jjsonrpc", "Invalid request", Text("Session ID is required for MCP requests."), EchoId(id))
  }

  /** The 400 for a missing (and, in the registry-only router, unknown) session header. */
  function NoSessionIdReply(): Reply
  {
    SessionError(400, "jsonrpc", "Bad Request: No valid session ID provided", NoData, Null)
  }

  /** `200 { message: 'Session <id> closed successfully' }`. */
  function ClosedReply(sessionId: string): Reply
  {
    Reply(200, Notice(None, "Session " + sessionId + " closed successfully", None))
  }

  /** Echoing is stable: the id a reply carries, echoed again, is unchanged, and a
      non-null echo is never falsy. */
  lemma EchoIdIsStable(id: Option<Scalar>)
    ensures EchoId(Some(EchoId(id))) == EchoId(id)
    ensures EchoId(id) != Null ==> !Falsy(EchoId(id))
  {
  }

  /** Truthiness, not numeric value, decides the echo: the number 0 comes back as null,
      while the strings "0" and "false" come back as themselves. */
  lemma EchoDropsOnlyFalsyIds()
    ensures EchoId(Some(Num(0))) == Null && EchoId(Some(Bool(false))) == Null && EchoId(Some(Str(""))) == Null
    ensures EchoId(Some(Str("0"))) == Str("0") && EchoId(Some(Str("false"))) == Str("false")
    ensures EchoId(Some(Num(-1))) == Num(-1)
  {
  }
}
