/** The service-backed `/mcp` endpoints (`MCPRouter`). Every verb runs the same chain:
    the request-shape rules, the validation gate, the bearer-token gate, then the
    handler. `PostSpec`, `PollSpec` and `DeleteSpec` say what one request does to the
    session stores and what it answers; the class `McpRouter` performs the same steps
    through a `SessionService` and is proved to agree with them. */
module McpRoutes {
  import opened Common
  import opened SessionRecord
  import opened Transport
  import opened SessionLifecycle
  import opened Http
  import opened AuthMiddleware
  import opened ValidationMiddleware
  import opened McpRules

  /** How a handler ends: a reply written by the router, the request handed to an
      existing transport, or a new transport that initialised the session through
      `createSession` (the protocol library writes that reply). */
  datatype Handling =
    | Respond(reply: Reply)
    | Dispatch(handle: Handle)
    | Initialize(handle: Handle, created: Result<Record, CreateError>)

  /** The middleware chain in front of every handler: shape rules, validation gate, authentication. */
  function Admit(req: Request, verify: string -> Verdict): (g: Gate<User>)
    ensures CommonValidations(req.body) != [] ==>
      g.Reject? && g.reply.status == 400 && g.reply.body.RpcFailure? && g.reply.body.error.code == -32600
    ensures CommonValidations(req.body) == [] ==> g == Authenticate(req.authorization, verify)
  {
    match CheckMcpValidation(CommonValidations(req.body), req.body.id)
    case Reject(reply) => Reject(reply)
    case Next(_) => Authenticate(req.authorization, verify)
  }

  /** POST with a session header that names no usable session. */
  function InvalidSessionReply(id: Option<Scalar>): Reply
  {
    SessionError(400, "jsonrpc", "Invalid session", Text("Session ID is invalid or has expired."), EchoId(id))
  }

  /** POST whose session lookup threw. */
  function PostInternalErrorReply(id: Option<Scalar>): Reply
  {
    SessionError(500, "jsonrpc", "Internal server error",
                 Text("An unexpected error occurred while processing the request."), EchoId(id))
  }

  /** GET with a session header that names no usable session. */
  function PollInvalidSessionReply(): Reply
  {
    SessionError(400, "jsonrpc", "Bad Request: Invalid or expired session ID", NoData, Null)
  }

  /** GET whose session lookup threw. */
  function PollInternalErrorReply(): Reply
  {
    Reply(500, RpcFailure("jsonrpc", ErrorObject(-32603, "Internal error", NoData), Null))
  }

  /** DELETE that `closeSession` answered with false. */
  function SessionNotFoundReply(): Reply
  {
    SessionError(404, "jsonrpc", "Session not found", NoData, Null)
  }

  /** POST, after `getActiveSession(header, userID)`. */
  function ResumeOutcome(found: Lookup, id: Option<Scalar>): Handling
  {
    match found
    case Found(_, h) => Dispatch(h)
    case NotFound => Respond(InvalidSessionReply(id))
    case LookupFailed => Respond(PostInternalErrorReply(id))
  }

  /** GET, after `getActiveSession(header)`. */
  function PollOutcome(found: Lookup): Handling
  {
    match found
    case Found(_, h) => Dispatch(h)
    case NotFound => Respond(PollInvalidSessionReply())
    case LookupFailed => Respond(PollInternalErrorReply())
  }

  /** DELETE, after `closeSession(header)`. */
  function CloseOutcome(sessionId: string, ok: bool): Reply
  {
    if ok then ClosedReply(sessionId) else SessionNotFoundReply()
  }

  /** `POST /mcp`. A fresh id and handle stand for the generated UUID and the new transport,
      whose session id the protocol library sets before `onsessioninitialized` runs. */
  function PostSpec(s: Sessions, req: Request, verify: string -> Verdict, freshId: string, freshRef: nat,
                    now: int, fault: Fault): (Sessions, Handling)
  {
    match Admit(req, verify)
    case Reject(reply) => (s, Respond(reply))
    case Next(user) =>
      if Truthy(req.sessionHeader) then
        var (s', found) := GetActive(s, req.sessionHeader.value, user.userID, now, fault);
        (s', ResumeOutcome(found, req.body.id))
      else if req.isInitialize then
        var h := Handle(freshRef, Some(freshId));
        var (s', created) := Create(s, freshId, h, user.userID, Some(ClientInfo(req.userAgent, req.ip)), now, fault);
        (s', Initialize(h, created))
      else
        (s, Respond(SessionRequiredReply(req.body.id)))
  }

  /** `GET /mcp`: the lookup passes no owner. */
  function PollSpec(s: Sessions, req: Request, verify: string -> Verdict, now: int, fault: Fault): (Sessions, Handling)
  {
    match Admit(req, verify)
    case Reject(reply) => (s, Respond(reply))
    case Next(_) =>
      if !Truthy(req.sessionHeader) then (s, Respond(NoSessionIdReply()))
      else
        var (s', found) := GetActive(s, req.sessionHeader.value, None, now, fault);
        (s', PollOutcome(found))
  }

  /** `DELETE /mcp`: the close passes no owner. */
  function DeleteSpec(s: Sessions, req: Request, verify: string -> Verdict, now: int, fault: Fault): (Sessions, Reply)
  {
    match Admit(req, verify)
    case Reject(reply) => (s, reply)
    case Next(_) =>
      if !Truthy(req.sessionHeader) then (s, NoSessionIdReply())
      else
        var (s', ok) := Close(s, req.sessionHeader.value, None, now, fault);
        (s', CloseOutcome(req.sessionHeader.value, ok))
  }

  /** The router; it holds the session service it was built with. */
  class McpRouter {
    const service: SessionService

    constructor (service: SessionService)
      ensures this.service == service
    {
      this.service := service;
    }

    method Post(req: Request, verify: string -> Verdict, freshId: string, freshRef: nat, now: int, fault: Fault)
      returns (o: Handling)
      modifies service
      ensures (service.State(), o) == PostSpec(old(service.State()), req, verify, freshId, freshRef, now, fault)
      ensures old(service.Valid()) ==> service.Valid()
    {
      var gate := Admit(req, verify);
      if gate.Reject? {
        return Respond(gate.reply);
      }
      var user := gate.value;
      if Truthy(req.sessionHeader) {
        var found := service.GetActiveSession(req.sessionHeader.value, user.userID, now, fault);
        o := ResumeOutcome(found, req.body.id);
      } else if req.isInitialize {
        var h := Handle(freshRef, Some(freshId));
        var created := service.CreateSession(freshId, h, user.userID, Some(ClientInfo(req.userAgent, req.ip)), now, fault);
        o := Initialize(h, created);
      } else {
        o := Respond(SessionRequiredReply(req.body.id));
      }
    }

    /** The `onclose` hook installed on every transport this router creates. */
    method OnTransportClose(sessionId: string, now: int, fault: Fault) returns (ok: bool)
      modifies service
      ensures (service.State(), ok) == Close(old(service.State()), sessionId, None, now, fault)
      ensures old(service.Valid()) ==> service.Valid()
    {
      ok := service.CloseSession(sessionId, None, now, fault);
    }

    method Get(req: Request, verify: string -> Verdict, now: int, fault: Fault) returns (o: Handling)
      modifies service
      ensures (service.State(), o) == PollSpec(old(service.State()), req, verify, now, fault)
      ensures old(service.Valid()) ==> service.Valid()
    {
      var gate := Admit(req, verify);
      if gate.Reject? {
        return Respond(gate.reply);
      }
      if !Truthy(req.sessionHeader) {
        return Respond(NoSessionIdReply());
      }
      var found := service.GetActiveSession(req.sessionHeader.value, None, now, fault);
      o := PollOutcome(found);
    }

    method Delete(req: Request, verify: string -> Verdict, now: int, fault: Fault) returns (reply: Reply)
      modifies service
      ensures (service.State(), reply) == DeleteSpec(old(service.State()), req, verify, now, fault)
      ensures old(service.Valid()) ==> service.Valid()
    {
      var gate := Admit(req, verify);
      if gate.Reject? {
        return gate.reply;
      }
      if !Truthy(req.sessionHeader) {
        return NoSessionIdReply();
      }
      var ok := service.CloseSession(req.sessionHeader.value, None, now, fault);
      reply := CloseOutcome(req.sessionHeader.value, ok);
    }
  }
}
