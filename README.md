# Weather MCP Server — session lifecycle and `/mcp` endpoints, in Dafny

This project models the part of the Weather MCP Server that manages Model Context
Protocol sessions over HTTP, and proves properties of that model.

- **Session lifecycle manager** (`MCPSessionService`): two stores kept side by side,
  the durable record store (session id → session document, unique on the id) and the
  process-local registry (session id → live transport handle). Its four operations are
  `createSession`, `closeSession`, `getActiveSession` and `cleanUpExpiredSessions`.
  Each is a pure function over the pair of stores (`SessionLifecycle.Create`, `Close`,
  `GetActive`, `CleanUp`). The class `SessionLifecycle.SessionService` holds both stores
  as fields and updates them in place. Each of its methods is proved equal to its function,
  and proved to keep the stores' invariant (`Inv`: the unique key holds, and every handle
  with a session id is backed by a record).
- **Session document** (`MCPSession` schema): the status enumeration, the defaults, the
  24-hour expiry, the unique index (a save under a taken id fails) and the expiry
  deletion.
- **Service-backed router** (`MCPRouter`): the request-shape rules, the validation
  gate, the bearer-token gate, and the POST, GET and DELETE `/mcp` handlers. They are
  specified as functions over the stores (`PostSpec`, `PollSpec`, `DeleteSpec`) and
  performed by the class `McpRoutes.McpRouter` through a `SessionService`.
- **Registry-only router** (`V1Router`): the same three verbs over the in-memory
  registry alone, as the class `V1Routes.V1Router`.

What the environment supplies is given as parameters: the clock (`now`, in
milliseconds), a store call that throws (`Fault`: the lookup, or the save after it),
a failing sweep (`deleteFails`), the token verifier (`verify`), the generated UUID and
the new transport, and the protocol library's verdict on whether a body is an
initialize request. JavaScript truthiness is modelled where the code relies on it: an
empty header or owner counts as absent, and `req.body.id || null` turns `0`, `false`
and `""` into `null`. Reply bodies are structured values, so the misspelt keys
`jjsonrpc` and `uccess` stay visible.

The model follows the code, including where it surprises:
- `closeSession` saves the record as closed before it touches the handle. With no
  handle registered, the removal throws and the call answers `false`, yet the record
  stays closed. DELETE then answers 404.
- `cleanUpExpiredSessions` answers a boolean, not a count. When it deletes anything,
  it drops every registered handle that carries a session id, not only the handles of
  the deleted sessions.
- The `expired` status is never written: expiry is a timestamp test.
- The owner field is the one the service reads and writes (`tenantId`). The owner
  check is skipped whenever the caller or the record has no owner.
- `authenticate` is passed to Express as a detached method (`MCPRouter.ts` lines 66, 157
  and 216), so when it runs `this` is undefined, and the step that reaches for the token
  service throws. Its catch then answers 500 'Authentication error' to every request that
  carries a non-empty token, and no `/mcp` handler is reached. The model keeps the token
  verifier as a parameter; `DetachedAuthenticateAnswers500` states these replies for a
  verifier that always throws. The router's constructor also calls
  `AuthMiddleware.getInstance()`, which `AuthMiddleware.ts` does not define; the model
  takes the router as constructed.
- `getActiveSession` passes no owner when called from GET, and `closeSession` passes
  none when called from DELETE or `onclose`. So those verbs reach any user's session.
- The registry-only router's POST connects a transport but never hands the request
  to it. The transport's `onsessioninitialized` callback runs only while the transport
  handles an initialize request, so as written it never runs and the registry stays
  empty: GET and DELETE always answer 400, and every POST with a session header too.

## Model

| member | source | states |
|---|---|---|
| SessionRecord.Insert | src/models/MCPSession.ts:23-28 | saving a new document fails exactly when its id is empty (`required`) or already taken (`unique`), and names which; otherwise it adds that one key, filed with that document, and leaves every other record unchanged |
| SessionRecord.InsertKeepsKeyed | src/models/MCPSession.ts:23-28 | a successful insert keeps every record filed under its own id |
| SessionRecord.TtlPurge | src/models/MCPSession.ts:48-52 | the store's own expiry deletion may drop only records whose expiry has passed; records not yet due survive unchanged |
| SessionRecord.SweepPartitions | src/services/MCPSessionService.ts:215-221 | `ExpiredIds` and the records `DeleteExpired` keeps split the store with no overlap; the number deleted is the store's size less the kept; something is deleted exactly when the store changes, which is the sweep's `deletedCount > 0` |
| SessionRecord.SweepIdempotent | src/services/MCPSessionService.ts:215-217 | a second sweep at the same or an earlier time deletes nothing and leaves what the first sweep kept |
| SessionLifecycle.Create | src/services/MCPSessionService.ts:40-97 | succeeds exactly when no store call throws and the id is non-empty and unknown, or is non-empty, known, `active` and not owned by someone else; on success the handle is registered and the saved record is active with a fresh 24-hour expiry; on failure the records are untouched and the handle under that id is forgotten |
| SessionLifecycle.Close | src/services/MCPSessionService.ts:109-142 | an unknown id, a foreign owner or a store failure changes nothing and answers false; otherwise the record is saved closed with a new 24-hour grace expiry, the handle is forgotten, and the answer is true exactly when a handle was registered |
| SessionLifecycle.GetActive | src/services/MCPSessionService.ts:154-202 | the registry never changes and no record is added or removed; the lookup finds the session exactly when no store call throws, the session is live for the caller and a handle is registered; a find touches only `lastActivity`; a store failure changes nothing, and otherwise the lookup only ever heals a record (saves a live but handle-less one as closed) |
| SessionLifecycle.Unbound | src/services/MCPSessionService.ts:223-231 | after the sweep's loop the registry holds exactly the handles without a session id |
| SessionLifecycle.CleanUp | src/services/MCPSessionService.ts:211-242 | succeeds exactly when the delete does not throw; on success the records are those not yet expired, and the registry is unchanged when nothing expired and otherwise is exactly `Unbound` of the old registry |
| SessionLifecycle.StepKeepsInv | src/models/MCPSession.ts:23-28 | every manager call (create, close, lookup, sweep) keeps the unique key and keeps every handle with a session id backed by a record |
| SessionLifecycle.RunKeepsInv | src/services/MCPSessionService.ts:40-242 | any sequence of manager calls keeps the same invariant |
| SessionLifecycle.StepKeepsKeyed | src/models/MCPSession.ts:23-28 | every step, including the store's own expiry deletion, keeps every record filed under its own non-empty id |
| SessionLifecycle.RunKeepsKeyed | src/models/MCPSession.ts:23-52 | any sequence of steps, expiry deletions included, keeps the records keyed |
| SessionLifecycle.SessionService.constructor | src/services/MCPSessionService.ts:14-19 | starts with an empty registry over the given records, and valid when those records are keyed |
| SessionLifecycle.SessionService.CreateSession | src/services/MCPSessionService.ts:40-97 | performs `Create` in place on both stores, and keeps the invariant |
| SessionLifecycle.SessionService.CloseSession | src/services/MCPSessionService.ts:109-142 | performs `Close` in place, and keeps the invariant |
| SessionLifecycle.SessionService.GetActiveSession | src/services/MCPSessionService.ts:154-202 | performs `GetActive` in place, and keeps the invariant |
| SessionLifecycle.SessionService.CleanUpExpiredSessions | src/services/MCPSessionService.ts:211-242 | deletes the expired records, then walks the registry and removes each handle with a session id; the result is `CleanUp`, and the invariant is kept |
| SessionProperties.CreateUnknownId | src/services/MCPSessionService.ts:74-87 | an unknown non-empty id gains exactly one new active record with the given owner, client info and timestamps, and its handle is registered |
| SessionProperties.CreateRenewsActive | src/services/MCPSessionService.ts:52-63 | an active record with a matching or absent owner is renewed in place; its client info is replaced only when new info is given |
| SessionProperties.CreateOwnerConflict | src/services/MCPSessionService.ts:46-49 | a known id owned by someone else fails with an ownership error, and the records are untouched |
| SessionProperties.CreateOnTerminalRecord | src/services/MCPSessionService.ts:64-67 | a closed or expired record makes the call fall through to a second insert under the same id, which the unique index rejects; the records stay and no handle is left under the id |
| SessionProperties.CreateEmptyIdRejected | src/models/MCPSession.ts:24-27 | an empty session id never succeeds: the records are untouched, no handle stays under it, and with no record under "" and a lookup that does not throw, the save fails for the missing required id |
| SessionProperties.CreateFailureRollsBack | src/services/MCPSessionService.ts:89-96 | whatever makes the call throw, no handle stays registered under the id |
| SessionProperties.CreatedRecordIsKeyed | src/services/MCPSessionService.ts:40-97 | under the invariant, the record a successful create returns carries the id it is filed under |
| SessionProperties.CloseRefuses | src/services/MCPSessionService.ts:113-123 | with no record, or a record owned by someone else, the answer is false and nothing changes |
| SessionProperties.CloseMarksClosed | src/services/MCPSessionService.ts:125-136 | the record is saved closed whatever its earlier status, with a 24-hour grace expiry and owner and client info kept; the answer is true exactly when a handle was registered, and afterwards none is |
| SessionProperties.CloseTwice | src/services/MCPSessionService.ts:125-141 | after a close has gone through, a second close of the same id answers false, whoever asks |
| SessionProperties.CloseAtMostOnce | src/services/MCPSessionService.ts:109-142 | of two closes in a row, at most one answers true |
| SessionProperties.GetActiveRejects | src/services/MCPSessionService.ts:158-180 | a missing record, a foreign owner, a non-active status or an expiry strictly in the past answers not found and writes nothing |
| SessionProperties.TenantIsolation | src/services/MCPSessionService.ts:165-168 | a caller whose owner differs from the record's never gets the session and changes nothing |
| SessionProperties.GetActiveHealsStaleRecord | src/services/MCPSessionService.ts:183-190 | a live record with no registered handle is saved closed, with nothing else about it changed, and the answer is not found |
| SessionProperties.GetActiveTouchesOnlyLastActivity | src/services/MCPSessionService.ts:192-196 | a successful lookup refreshes `lastActivity` only: expiry, client info and status stay |
| SessionProperties.CreateThenResume | src/services/MCPSessionService.ts:40-202 | after a successful create, a lookup within the 24-hour window by the same owner, or by any caller whose owner does not conflict with the record's, finds the same record and the same handle |
| SessionProperties.CleanUpKeepsExactlyUnexpired | src/services/MCPSessionService.ts:215-217 | a successful sweep keeps a record, unchanged, exactly when its expiry has not strictly passed |
| SessionProperties.CleanUpDropsEveryBoundHandle | src/services/MCPSessionService.ts:220-232 | when the sweep deletes anything, every handle with a session id is dropped, including handles of sessions still stored |
| SessionProperties.ClosedRecordLifetime | src/services/MCPSessionService.ts:125-129 | a closed record is kept by sweeps up to 24 hours after the close and removed by any sweep later than that |
| SessionProperties.NeverReactivated | src/services/MCPSessionService.ts:40-242 | no operation turns a closed or expired record back into an active one |
| SessionProperties.ExpiredNeverWritten | src/services/MCPSessionService.ts:40-242 | starting from a store without the `expired` status, no sequence of operations produces one |
| SessionProperties.NewSessionLivesADay | src/models/MCPSession.ts:35-52 | a session created under an unknown id is the schema's `Document` for that id with the caller's owner and client info: active, created now, live for that owner exactly up to 86 400 000 ms later, and kept by a sweep exactly up to then |
| SessionProperties.PurgeOrphansHandle | src/models/MCPSession.ts:49-52 | the store's own expiry deletion can remove a record whose handle is still registered, so the handle invariant fails while the records stay keyed; the manager's sweep then drops nothing, and the lookup answers not found |
| SessionProperties.ScenarioCloseThenResume | src/services/MCPSessionService.ts:40-202 | create, close (true), look up (not found), close again (false) |
| SessionProperties.ScenarioTenants | src/services/MCPSessionService.ts:154-202 | a session created for tenant A is not found by tenant B and is found by tenant A |
| Http.EchoIdIsStable | src/routes/v1/MCPRouter.ts:90 | `EchoId` (`req.body.id \|\| null`) applied to its own result changes nothing, and a non-null echo is never falsy |
| Http.EchoDropsOnlyFalsyIds | src/routes/v1/MCPRouter.ts:90 | the falsy values 0, `false` and "" echo as null, while "0", "false" and -1 are echoed as given |
| ValidationMiddleware.ValidationGatesAgree | src/middlewares/ValidationMiddleware.ts:14-49 | `checkMCPValidation` and `checkStandardValidation` pass exactly when there are no errors and exactly together; otherwise both answer 400, the first as a JSON-RPC failure with code -32600, 'Invalid Request', the errors as data and the echoed id, the second with `success: false`, 'Validation failed' and the same errors |
| AuthMiddleware.TokenStripsBearer | src/middlewares/AuthMiddleware.ts:26 | `Token` of a header `Bearer <t>` is `t` |
| AuthMiddleware.TokenInvertsBearer | src/middlewares/AuthMiddleware.ts:26 | `Token` leaves a header unchanged exactly when it lacks the `Bearer ` prefix, and when the prefix is there, putting it back in front of the token gives the header again |
| AuthMiddleware.EmptyTokenIffBareBearer | src/middlewares/AuthMiddleware.ts:26-33 | a present header yields an empty token exactly when it is `Bearer ` alone |
| AuthMiddleware.Authenticate | src/middlewares/AuthMiddleware.ts:13-59 | a missing header, an empty token and a refused token each get their own 401 body; a verifier that throws gets the 500 'Authentication error'; the request goes on exactly when the token verifies, with the payload's user id and email |
| McpRules.DigitsAfterDot | src/routes/v1/MCPRouter.ts:39 | after the decimal point the scanner accepts exactly the non-empty digit strings |
| McpRules.NumericBodyMatchesPattern | src/routes/v1/MCPRouter.ts:39 | the scanner accepts exactly the strings of the form `([0-9]*[.])?[0-9]+` |
| McpRules.NumericStringMatchesRegex | src/routes/v1/MCPRouter.ts:39 | `isNumeric` on a string (`NumericString`) holds exactly when the string without one leading sign matches that form |
| McpRules.ValidationsAcceptExactlyWellShaped | src/routes/v1/MCPRouter.ts:36-40 | `CommonValidations` (`JsonRpcRule`, `MethodRule`, `IdRule`) reports no error exactly when `jsonrpc`, if present, is "2.0", `method`, if present, is a non-empty string, and `id`, if present, is a number below 10^21 in magnitude or a numeric string |
| McpRules.ValidationErrorsNameTheirField | src/routes/v1/MCPRouter.ts:36-40 | every error names `jsonrpc`, `method` or `id`, the errors come in the rules' order (all `jsonrpc` errors, then `method`, then `id`), and there are at most four |
| McpRules.NullMethodReportedTwice | src/routes/v1/MCPRouter.ts:38 | a null method fails both `isString` (default message) and `notEmpty` (custom message) |
| McpRules.ExponentFormIdRejected | src/routes/v1/MCPRouter.ts:39 | a numeric id of 10^21, which the validator sees as the string "1e+21", fails `isNumeric`, as does -10^21, while 10^21 - 2^17, the largest double below 10^21, passes |
| McpRoutes.Admit | src/routes/v1/MCPRouter.ts:66 | a body the rules reject is answered 400 / -32600 before authentication; otherwise the authentication gate decides |
| McpRoutes.McpRouter.constructor | src/routes/v1/MCPRouter.ts:24-30 | the router holds the session service it is given |
| McpRoutes.McpRouter.Post | src/routes/v1/MCPRouter.ts:66-147 | performs `PostSpec` through the service, and keeps the service's invariant; what `PostSpec` answers is stated by the `McpRouteProperties` lemmas below |
| McpRoutes.McpRouter.OnTransportClose | src/routes/v1/MCPRouter.ts:109-111 | a transport's close runs `closeSession` with no owner, and keeps the invariant |
| McpRoutes.McpRouter.Get | src/routes/v1/MCPRouter.ts:157-207 | performs `PollSpec` through the service, and keeps the invariant |
| McpRoutes.McpRouter.Delete | src/routes/v1/MCPRouter.ts:216-253 | performs `DeleteSpec` through the service, and keeps the invariant |
| McpRouteProperties.MalformedRequestTouchesNothing | src/routes/v1/MCPRouter.ts:36-40 | a malformed body gets the 400 / -32600 whatever the authorization, and no verb touches either store |
| McpRouteProperties.UnauthenticatedRequestTouchesNothing | src/middlewares/AuthMiddleware.ts:13-59 | a well-shaped request the token gate rejects gets its 401 or 500, and no verb touches either store |
| McpRouteProperties.DetachedAuthenticateAnswers500 | src/middlewares/AuthMiddleware.ts:13-58 | with a token verifier that always throws, as the detached `authenticate` does, every well-shaped request with a non-empty token gets the 500 `success: false` 'Authentication error' on POST, GET and DELETE, and neither store changes |
| McpRouteProperties.ResumeNeverCreates | src/routes/v1/MCPRouter.ts:79-96 | a POST naming a session never adds a record or a handle; it reaches the transport exactly when the session is live for the authenticated user and a handle is registered |
| McpRouteProperties.InvalidSessionRefused | src/routes/v1/MCPRouter.ts:79-93 | a POST naming a session not live for the caller (unknown, closed, expired or foreign) gets the 400 / -32000 'Invalid session' with the echoed id and changes nothing; with no store failure, so does a live session without a handle |
| McpRouteProperties.ForeignSessionRefused | src/routes/v1/MCPRouter.ts:80-93 | a POST naming another owner's session changes nothing and gets exactly the reply it would get if that id had no record |
| McpRouteProperties.InitializeCreatesOwnedSession | src/routes/v1/MCPRouter.ts:97-115 | a header-less initialize request registers the new transport under the generated id and saves an active record owned by the authenticated user, with their user agent and address |
| McpRouteProperties.HeaderlessNonInitializeRefused | src/routes/v1/MCPRouter.ts:116-127 | a header-less non-initialize request changes nothing and gets a 400 / -32000 whose version key is `jjsonrpc` |
| McpRouteProperties.PostRepliesEchoId | src/routes/v1/MCPRouter.ts:90 | every reply the POST handler writes itself echoes the request id or null |
| McpRouteProperties.PollAndDeleteIgnoreIdentity | src/routes/v1/MCPRouter.ts:176 | what GET and DELETE do does not depend on which user authenticated |
| McpRouteProperties.PollReachesAnyOwnersSession | src/routes/v1/MCPRouter.ts:173-193 | GET reaches a session exactly when it is active, not expired and has a handle, whoever owns it, and then hands the request to that session's registered handle |
| McpRouteProperties.MissingHeaderRefused | src/routes/v1/MCPRouter.ts:160-231 | `PollSpec` and `DeleteSpec` without a session header answer the 400 / -32000 'No valid session ID provided' with a null id and change nothing |
| McpRouteProperties.PollInvalidSessionRefused | src/routes/v1/MCPRouter.ts:173-187 | a GET naming a session that is not live gets the 400 'Invalid or expired session ID' with a null id and changes nothing; with no store failure, so does a live session without a handle |
| McpRouteProperties.DeleteUnknownSessionNotFound | src/routes/v1/MCPRouter.ts:233-251 | a DELETE of an id with no record answers the 404 / -32000 'Session not found' with a null id and changes nothing, whatever the store does |
| McpRouteProperties.LookupFailureReplies | src/routes/v1/MCPRouter.ts:134-146 | a lookup that throws is a 500 on both verbs: -32000 with the echoed id on POST, -32603 with a null id on GET |
| McpRouteProperties.DeleteClosesAnySession | src/routes/v1/MCPRouter.ts:233-251 | DELETE closes any user's session; with a handle registered the answer is the 200 'Session <id> closed successfully', and without one the record is still closed and the answer is 404 'Session not found' |
| McpRouteProperties.RoutesKeepInv | src/routes/v1/MCPRouter.ts:66-253 | every verb keeps the stores' invariant |
| V1Routes.V1Router.constructor | src/routes/v1/V1Router.ts:9-11 | starts with an empty, self-keyed registry |
| V1Routes.V1Router.Post | src/routes/v1/V1Router.ts:36-70 | decides as `PostDecision` and changes nothing |
| V1Routes.V1Router.OnSessionInitialized | src/routes/v1/V1Router.ts:45-47 | the callback's body registers the transport under the id it was given, and the registry stays self-keyed when that is the transport's own id; nothing in the router ever triggers it |
| V1Routes.V1Router.OnClose | src/routes/v1/V1Router.ts:64-66 | forgets exactly the key of the closing transport (`KeyOf`: its session id, or the property name "undefined" when it has none), so the registry only shrinks, and keeps it self-keyed |
| V1Routes.V1Router.Get | src/routes/v1/V1Router.ts:80-99 | decides as `PollDecision` and changes nothing |
| V1Routes.V1Router.Delete | src/routes/v1/V1Router.ts:108-130 | forgets the named transport through its close and answers 200, or answers 400 and changes nothing; the result is `DeleteEffect` |
| V1Routes.PostConnectsOnlyKnownOrNew | src/routes/v1/V1Router.ts:38-61 | POST reuses exactly the registered sessions, connects a new transport exactly for a header-less initialize request, never hands the request on, and otherwise answers the `jjsonrpc` 400 |
| V1Routes.InitializedSessionIsPolled | src/routes/v1/V1Router.ts:45-47 | once a transport is registered, GET with its id dispatches to it |
| V1Routes.DeleteThenPollRefused | src/routes/v1/V1Router.ts:108-130 | on a self-keyed registry DELETE forgets exactly the named session and answers 200, and a later GET for it gets the 400 |
| V1Routes.DeleteOnlyShrinks | src/routes/v1/V1Router.ts:108-130 | `DeleteEffect` never adds a key to the registry |
| V1Routes.EmptyRegistryRefuses | src/routes/v1/V1Router.ts:36-130 | on the empty registry the router keeps, `PollDecision` and `DeleteEffect` always answer the 400 and change nothing, and `PostDecision` connects a transport exactly for a header-less initialize request and otherwise answers the `jjsonrpc` 400 |

## Left out

- `startCleanupScheduler` is left out because it only starts a timer. Its interval is `intervalMinutes * 1000` ms, so the value is really in seconds. The sweep it runs is `CleanUpExpiredSessions`.
- Concurrency is left out. Each operation is one atomic step, and the asynchronous interleavings of requests, handlers and the timer are not modelled.
- Transport closing is left out. `close()` on a handle, and the `onclose` it triggers while `closeSession` or the sweep is running, are not modelled. The router's hook is modelled as its own call, `OnTransportClose`.
- The protocol library is left out: `handleRequest`, `server.connect`, `isInitializeRequest` (an input flag here) and the replies the library writes. The library's own errors, which the POST handler would answer with its 500, are out too. Only the lookup failure is modelled.
- When `onsessioninitialized` runs is left out. The model performs `createSession` within the POST that creates the transport.
- SessionLifecycle.RunKeepsInv: holds for runs of manager calls only. The store's own expiry deletion (`PurgeOp`) may remove a record whose handle is still registered, which breaks the handle half of `Inv` (`PurgeOrphansHandle`); only `Keyed` is proved for runs that include it (`RunKeepsKeyed`).
- McpRules.ValidationsAcceptExactlyWellShaped: ids are integers, and the rounding of large integer literals to doubles is left out; a literal that rounds to 10^21 or beyond would be rejected, and one that rounds below it accepted.
- `closeSession` and `getActiveSession` re-save an existing record under its own id. Under `Keyed` that id is never empty, so the `required` check on those saves is not modelled.
- Mongoose schema strictness is left out. The service writes `tenantId`, a field the schema does not declare (its owner field is `userId`). The model keeps the single owner field the service reads and writes.
- The store's expiry monitor runs on its own timer, which is left out. `TtlPurge` only bounds what it may delete.
- `updatedAt`, `metadata` and the secondary indexes are left out because nothing in the core reads them.
- The `default` branch of `createSession` (an unknown status) needs no model. The status type has exactly the three schema values, so that branch cannot be reached.
- Store failures are reduced to one fault per call: the lookup, or the save after it.
- The registry is a plain object in the source. Its inherited property names (`constructor`, `toString`) would count as present; the model uses a map.
- `BaseRouter.ts` is not part of this model. The registry-only router's registry is assumed to start empty, as `BaseMCPRouter` does.
- Header values that are arrays (repeated headers) are left out; a header is an optional string.
- Request fields are JSON scalars with integer numbers. Fractional numbers, arrays and objects are left out.
- The request-shape rules are checked on the body only. The validator also looks at cookies, headers, route parameters and the query string.
- Token verification is left out. `verifyToken` and JWT handling in `AuthService` are a function parameter.
- The `/v1` welcome route, the tenant sub-routes, the weather tool, the seeders, the server bootstrap and logging are outside the session core and are left out.
