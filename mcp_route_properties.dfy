/** What the service-backed `/mcp` endpoints promise, stated over `PostSpec`, `PollSpec`
    and `DeleteSpec`. */
module McpRouteProperties {
  import opened Common
  import opened SessionRecord
  import opened Transport
  import opened SessionLifecycle
  import opened Http
  import opened AuthMiddleware
  import opened McpRules
  import opened McpRoutes

  /** A malformed body is answered 400 / -32600 before the token is looked at, and no
      verb touches either store. */
  lemma MalformedRequestTouchesNothing(s: Sessions, req: Request, verify: string -> Verdict,
                                       otherAuthorization: Option<string>, otherVerify: string -> Verdict,
                                       freshId: string, freshRef: nat, now: int, fault: Fault)
    requires !WellShaped(req.body)
    ensures Admit(req, verify).Reject?
    ensures Admit(req, verify).reply.status == 400 && Admit(req, verify).reply.body.RpcFailure?
    ensures Admit(req, verify).reply.body.error.code == -32600
    ensures Admit(req.(authorization := otherAuthorization), otherVerify) == Admit(req, verify)
    ensures PostSpec(s, req, verify, freshId, freshRef, now, fault) == (s, Respond(Admit(req, verify).reply))
    ensures PollSpec(s, req, verify, now, fault) == (s, Respond(Admit(req, verify).reply))
    ensures DeleteSpec(s, req, verify, now, fault) == (s, Admit(req, verify).reply)
  {
    ValidationsAcceptExactlyWellShaped(req.body);
  }

  /** A well-shaped request whose token is missing, refused or unverifiable is answered
      401 or 500 by the authentication gate, and no verb touches either store. */
  lemma UnauthenticatedRequestTouchesNothing(s: Sessions, req: Request, verify: string -> Verdict,
                                             freshId: string, freshRef: nat, now: int, fault: Fault)
    requires WellShaped(req.body)
    requires Authenticate(req.authorization, verify).Reject?
    ensures Authenticate(req.authorization, verify).reply.status in {401, 500}
    ensures PostSpec(s, req, verify, freshId, freshRef, now, fault) ==
      (s, Respond(Authenticate(req.authorization, verify).reply))
    ensures PollSpec(s, req, verify, now, fault) == (s, Respond(Authenticate(req.authorization, verify).reply))
    ensures DeleteSpec(s, req, verify, now, fault) == (s, Authenticate(req.authorization, verify).reply)
  {
    ValidationsAcceptExactlyWellShaped(req.body);
    if Truthy(req.authorization) && Token(req.authorization.value) != "" {
      match verify(Token(req.authorization.value))
      case Refused =>
      case Threw =>
      case Verified(_) =>
    }
  }

  /** `authenticate` is handed to the router without its instance, so inside it `this` is
      undefined and the call that reaches for the token service throws. That is `verify`
      throwing on every token: every well-shaped request with a non-empty token then gets
      the 500 'Authentication error', and no handler runs. */
  lemma DetachedAuthenticateAnswers500(s: Sessions, req: Request, freshId: string, freshRef: nat,
                                       now: int, fault: Fault)
    requires WellShaped(req.body)
    requires Truthy(req.authorization) && Token(req.authorization.value) != ""
    ensures var detached: string -> Verdict := t => Threw;
      var reply := AuthFailure(500, ("success", Bool(false)), "Authentication error");
      && PostSpec(s, req, detached, freshId, freshRef, now, fault) == (s, Respond(reply))
      && PollSpec(s, req, detached, now, fault) == (s, Respond(reply))
      && DeleteSpec(s, req, detached, now, fault) == (s, reply)
  {
    ValidationsAcceptExactlyWellShaped(req.body);
  }

  /** A POST that names a session never creates a record or registers a handle; it is handed
      to the transport exactly when the session is live for the caller and still has one. */
  lemma ResumeNeverCreates(s: Sessions, req: Request, verify: string -> Verdict,
                           freshId: string, freshRef: nat, now: int, fault: Fault)
    requires Admit(req, verify).Next? && Truthy(req.sessionHeader)
    ensures var (s', o) := PostSpec(s, req, verify, freshId, freshRef, now, fault);
      var id := req.sessionHeader.value;
      && s'.records.Keys == s.records.Keys
      && s'.transports == s.transports
      && !o.Initialize?
      && (o.Dispatch? <==>
            fault == NoFault && Live(s, id, Admit(req, verify).value.userID, now) && id in s.transports)
      && (o.Dispatch? ==> o.handle == s.transports[id])
  {
  }

  /** A POST naming a session that is not live for the caller (unknown, closed, expired or
      another owner's) gets the 400 'Invalid session' and changes nothing. A live session
      whose handle is gone gets the same 400, after the record is healed. */
  lemma InvalidSessionRefused(s: Sessions, req: Request, verify: string -> Verdict,
                              freshId: string, freshRef: nat, now: int, fault: Fault)
    requires Admit(req, verify).Next? && Truthy(req.sessionHeader)
    requires fault != FindFails
    ensures var id, user := req.sessionHeader.value, Admit(req, verify).value;
      !Live(s, id, user.userID, now) ==>
        PostSpec(s, req, verify, freshId, freshRef, now, fault) == (s, Respond(InvalidSessionReply(req.body.id)))
    ensures var id, user := req.sessionHeader.value, Admit(req, verify).value;
      fault == NoFault && !(Live(s, id, user.userID, now) && id in s.transports) ==>
        PostSpec(s, req, verify, freshId, freshRef, now, fault).1 == Respond(InvalidSessionReply(req.body.id))
    ensures InvalidSessionReply(req.body.id).status == 400
    ensures InvalidSessionReply(req.body.id).body.error.code == -32000
    ensures InvalidSessionReply(req.body.id).body.id == EchoId(req.body.id)
  {
  }

  /** POST with another owner's session id gets exactly what it would get if that id were
      unknown, and changes nothing. */
  lemma ForeignSessionRefused(s: Sessions, req: Request, verify: string -> Verdict,
                              freshId: string, freshRef: nat, now: int, fault: Fault)
    requires Admit(req, verify).Next? && Truthy(req.sessionHeader)
    requires req.sessionHeader.value in s.records
    requires OwnerConflict(Admit(req, verify).value.userID, s.records[req.sessionHeader.value].owner)
    requires fault != FindFails
    ensures PostSpec(s, req, verify, freshId, freshRef, now, fault) == (s, Respond(InvalidSessionReply(req.body.id)))
    ensures var unknown := s.(records := s.records - {req.sessionHeader.value});
      PostSpec(s, req, verify, freshId, freshRef, now, fault).1 ==
      PostSpec(unknown, req, verify, freshId, freshRef, now, fault).1
  {
    InvalidSessionRefused(s, req, verify, freshId, freshRef, now, fault);
    var unknown := s.(records := s.records - {req.sessionHeader.value});
    InvalidSessionRefused(unknown, req, verify, freshId, freshRef, now, fault);
  }

  /** A header-less initialize request registers the new transport under the generated id and
      saves an active record owned by the authenticated user, with their client info. */
  lemma InitializeCreatesOwnedSession(s: Sessions, req: Request, verify: string -> Verdict,
                                      freshId: string, freshRef: nat, now: int)
    requires Admit(req, verify).Next? && !Truthy(req.sessionHeader) && req.isInitialize
    requires freshId !in s.records && freshId != ""  // a generated UUID is never empty
    ensures var (s', o) := PostSpec(s, req, verify, freshId, freshRef, now, NoFault);
      var user := Admit(req, verify).value;
      && o.Initialize? && o.created.Success?
      && s'.transports == s.transports[freshId := o.handle]
      && Bound(o.handle)
      && s'.records == s.records[freshId := o.created.value]
      && o.created.value.owner == user.userID
      && o.created.value.clientInfo == Some(ClientInfo(req.userAgent, req.ip))
      && o.created.value.status == Active
      && o.created.value.createdAt == now
      && o.created.value.expiresAt == now + DAY_MS
  {
  }

  /** A header-less request that is not an initialize request changes nothing and is refused
      with a 400 whose version key is misspelt `jjsonrpc`. */
  lemma HeaderlessNonInitializeRefused(s: Sessions, req: Request, verify: string -> Verdict,
                                       freshId: string, freshRef: nat, now: int, fault: Fault)
    requires Admit(req, verify).Next? && !Truthy(req.sessionHeader) && !req.isInitialize
    ensures var (s', o) := PostSpec(s, req, verify, freshId, freshRef, now, fault);
      && s' == s
      && o.Respond? && o.reply.status == 400 && o.reply.body.RpcFailure?
      && o.reply.body.versionKey == "jjsonrpc" && o.reply.body.versionKey != "jsonrpc"
      && o.reply.body.error.code == -32000
      && o.reply.body.id == EchoId(req.body.id)
  {
  }

  /** Every reply the POST handler writes itself echoes `req.body.id || null`. */
  lemma PostRepliesEchoId(s: Sessions, req: Request, verify: string -> Verdict,
                          freshId: string, freshRef: nat, now: int, fault: Fault)
    requires Admit(req, verify).Next?
    requires PostSpec(s, req, verify, freshId, freshRef, now, fault).1.Respond?
    ensures PostSpec(s, req, verify, freshId, freshRef, now, fault).1.reply.body.RpcFailure?
    ensures PostSpec(s, req, verify, freshId, freshRef, now, fault).1.reply.body.id == EchoId(req.body.id)
  {
  }

  /** GET and DELETE pass no owner to the service, so their effect and answer do not
      depend on who authenticated. */
  lemma PollAndDeleteIgnoreIdentity(s: Sessions, req: Request, verify1: string -> Verdict,
                                    verify2: string -> Verdict, now: int, fault: Fault)
    requires Admit(req, verify1).Next? && Admit(req, verify2).Next?
    ensures PollSpec(s, req, verify1, now, fault) == PollSpec(s, req, verify2, now, fault)
    ensures DeleteSpec(s, req, verify1, now, fault) == DeleteSpec(s, req, verify2, now, fault)
  {
  }

  /** GET reaches any user's session: only status, expiry and the handle matter. */
  lemma PollReachesAnyOwnersSession(s: Sessions, req: Request, verify: string -> Verdict, now: int)
    requires Admit(req, verify).Next? && Truthy(req.sessionHeader)
    ensures var id := req.sessionHeader.value;
      PollSpec(s, req, verify, now, NoFault).1.Dispatch? <==>
        id in s.records && s.records[id].status == Active && !(s.records[id].expiresAt < now) &&
        id in s.transports
    ensures var id := req.sessionHeader.value;
      PollSpec(s, req, verify, now, NoFault).1.Dispatch? ==>
        PollSpec(s, req, verify, now, NoFault).1.handle == s.transports[id]
  {
  }

  /** GET and DELETE without a session header get the 400 'No valid session ID provided'
      with a null id, and change nothing. */
  lemma MissingHeaderRefused(s: Sessions, req: Request, verify: string -> Verdict, now: int, fault: Fault)
    requires Admit(req, verify).Next? && !Truthy(req.sessionHeader)
    ensures PollSpec(s, req, verify, now, fault) == (s, Respond(NoSessionIdReply()))
    ensures DeleteSpec(s, req, verify, now, fault) == (s, NoSessionIdReply())
    ensures NoSessionIdReply().status == 400 && NoSessionIdReply().body.id == Null
    ensures NoSessionIdReply().body.error.code == -32000
  {
  }

  /** A GET naming a session that is not live (unknown, closed or expired) gets the 400
      'Invalid or expired session ID' with a null id and changes nothing; a live session
      whose handle is gone gets the same 400, after the record is healed. */
  lemma PollInvalidSessionRefused(s: Sessions, req: Request, verify: string -> Verdict, now: int, fault: Fault)
    requires Admit(req, verify).Next? && Truthy(req.sessionHeader)
    requires fault != FindFails
    ensures var id := req.sessionHeader.value;
      !Live(s, id, None, now) ==> PollSpec(s, req, verify, now, fault) == (s, Respond(PollInvalidSessionReply()))
    ensures var id := req.sessionHeader.value;
      fault == NoFault && !(Live(s, id, None, now) && id in s.transports) ==>
        PollSpec(s, req, verify, now, fault).1 == Respond(PollInvalidSessionReply())
    ensures PollInvalidSessionReply().status == 400 && PollInvalidSessionReply().body.id == Null
  {
  }

  /** A DELETE of an id with no record gets the 404 'Session not found' and changes nothing,
      whatever the store does. */
  lemma DeleteUnknownSessionNotFound(s: Sessions, req: Request, verify: string -> Verdict, now: int, fault: Fault)
    requires Admit(req, verify).Next? && Truthy(req.sessionHeader)
    requires req.sessionHeader.value !in s.records
    ensures DeleteSpec(s, req, verify, now, fault) == (s, SessionNotFoundReply())
    ensures SessionNotFoundReply().status == 404 && SessionNotFoundReply().body.error.code == -32000
    ensures SessionNotFoundReply().body.id == Null
  {
  }

  /** A lookup that throws is a 500 on both verbs, but with different codes and id echoes. */
  lemma LookupFailureReplies(s: Sessions, req: Request, verify: string -> Verdict,
                             freshId: string, freshRef: nat, now: int)
    requires Admit(req, verify).Next? && Truthy(req.sessionHeader)
    ensures PollSpec(s, req, verify, now, FindFails) == (s, Respond(PollInternalErrorReply()))
    ensures PostSpec(s, req, verify, freshId, freshRef, now, FindFails) ==
      (s, Respond(PostInternalErrorReply(req.body.id)))
    ensures PollInternalErrorReply().status == 500 && PollInternalErrorReply().body.error.code == -32603
    ensures PostInternalErrorReply(req.body.id).status == 500
    ensures PostInternalErrorReply(req.body.id).body.error.code == -32000
  {
  }

  /** DELETE closes any user's session. The record is closed even when no handle is
      registered, and then the answer is the 404 'Session not found'. */
  lemma DeleteClosesAnySession(s: Sessions, req: Request, verify: string -> Verdict, now: int)
    requires Admit(req, verify).Next? && Truthy(req.sessionHeader)
    requires req.sessionHeader.value in s.records
    ensures var (s', reply) := DeleteSpec(s, req, verify, now, NoFault);
      var id := req.sessionHeader.value;
      && s'.records == s.records[id := ClosedAt(s.records[id], now)]
      && s'.records[id].status == Closed
      && s'.transports == s.transports - {id}
      && (reply.status == 200 <==> id in s.transports)
      && (reply.status == 200 ==> reply == ClosedReply(id))
      && (reply.status != 200 ==> reply == SessionNotFoundReply())
  {
  }

  /** Each request performs at most one service operation, so the stores' invariant survives
      every verb. */
  lemma RoutesKeepInv(s: Sessions, req: Request, verify: string -> Verdict,
                      freshId: string, freshRef: nat, now: int, fault: Fault)
    requires Inv(s)
    ensures Inv(PostSpec(s, req, verify, freshId, freshRef, now, fault).0)
    ensures Inv(PollSpec(s, req, verify, now, fault).0)
    ensures Inv(DeleteSpec(s, req, verify, now, fault).0)
  {
    var gate := Admit(req, verify);
    if gate.Next? && Truthy(req.sessionHeader) {
      var id := req.sessionHeader.value;
      StepKeepsInv(s, GetOp(id, gate.value.userID, now, fault));
      StepKeepsInv(s, GetOp(id, None, now, fault));
      StepKeepsInv(s, CloseOp(id, None, now, fault));
    } else if gate.Next? && req.isInitialize {
      var ci := Some(ClientInfo(req.userAgent, req.ip));
      StepKeepsInv(s, CreateOp(freshId, Handle(freshRef, Some(freshId)), gate.value.userID, ci, now, fault));
    }
  }
}
