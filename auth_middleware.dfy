/** `AuthMiddleware.authenticate`: a chain of early-return guards in front of every
    `/mcp` handler. Token verification is abstract: `verify` stands for
    `AuthService.verifyToken`, and `Threw` for any exception escaping it. */
module AuthMiddleware {
  import opened Common
  import opened Http

  /** The decoded token payload. */
  datatype Payload = Payload(userID: Option<string>, email: Option<string>)

  datatype Verdict = Verified(payload: Payload) | Refused | Threw

  /** `res.locals.user`. */
  datatype User = User(userID: Option<string>, userEmail: Option<string>)

  const BEARER: string := "Bearer "

  predicate HasBearerPrefix(header: string)
  {
    |header| >= |BEARER| && header[..|BEARER|] == BEARER
  }

  /** `authHeader.startsWith('Bearer ') ? authHeader.substring(7) : authHeader`. */
  function Token(header: string): string
  {
    if HasBearerPrefix(header) then header[|BEARER|..] else header
  }

  lemma TokenStripsBearer(t: string)
    ensures Token(BEARER + t) == t
  {
    assert (BEARER + t)[..|BEARER|] == BEARER;
  }

  /** The token is the header itself exactly when there is no `'Bearer '` prefix, and
      otherwise putting the prefix back gives the header. */
  lemma TokenInvertsBearer(header: string)
    ensures Token(header) == header <==> !HasBearerPrefix(header)
    ensures HasBearerPrefix(header) ==> BEARER + Token(header) == header
  {
    if HasBearerPrefix(header) {
      assert header == header[..|BEARER|] + header[|BEARER|..];
    }
  }

  /** A present header yields an empty token exactly when it is `'Bearer '` itself. */
  lemma EmptyTokenIffBareBearer(header: string)
    requires header != ""
    ensures Token(header) == "" <==> header == BEARER
  {
    if HasBearerPrefix(header) && Token(header) == "" {
      assert header == header[..|BEARER|] + header[|BEARER|..];
    }
  }

  function AuthFailure(status: int, lead: (string, Scalar), message: string): Reply
  {
    Reply(status, Notice(Some(lead), message, None))
  }

  /** The response, or the user handed to `next`. */
  function Authenticate(authorization: Option<string>, verify: string -> Verdict): (g: Gate<User>)
    ensures !Truthy(authorization) ==>
      g == Reject(AuthFailure(401, ("uccess", Bool(false)), "Authorization header is required"))
    ensures Truthy(authorization) && Token(authorization.value) == "" ==>
      g == Reject(AuthFailure(401, ("uccess", Bool(false)), "Token is required"))
    ensures Truthy(authorization) && Token(authorization.value) != "" && verify(Token(authorization.value)).Refused? ==>
      g == Reject(AuthFailure(401, ("error", Str("Unauthorized")), "Invalid or expired token"))
    ensures g.Reject? && g.reply.status == 500 <==>
      Truthy(authorization) && Token(authorization.value) != "" && verify(Token(authorization.value)).Threw?
    ensures Truthy(authorization) && Token(authorization.value) != "" && verify(Token(authorization.value)).Threw? ==>
      g == Reject(AuthFailure(500, ("success", Bool(false)), "Authentication error"))
    ensures g.Next? <==>
      Truthy(authorization) && Token(authorization.value) != "" && verify(Token(authorization.value)).Verified?
    ensures g.Next? ==>
      var p := verify(Token(authorization.value)).payload;
      g.value == User(p.userID, p.email)
  {
    if !Truthy(authorization) then
      Reject(AuthFailure(401, ("uccess", Bool(false)), "Authorization header is required"))
    else
      var token := Token(authorization.value);
      if token == "" then
        Reject(AuthFailure(401, ("uccess", Bool(false)), "Token is required"))
      else match verify(token)
        case Refused =>
          Reject(AuthFailure(401, ("error", Str("Unauthorized")), "Invalid or expired token"))
        case Threw =>
          Reject(AuthFailure(500, ("success", Bool(false)), "Authentication error"))
        case Verified(p) =>
          Next(User(p.userID, p.email))
  }
}
