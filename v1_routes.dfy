/** The registry-only `/mcp` endpoints (`V1Router`): no validation, no authentication and
    no durable records, only the in-memory map from session id to transport that the
    router inherits. POST never hands the request to the transport; it only connects it. */
module V1Routes {
  import opened Common
  import opened Transport
  import opened Http

  /** How a handler ends: a reply, a transport connected to the server (the handler then
      writes nothing), or the request handed to a registered transport. */
  datatype Handling = Respond(reply: Reply) | Connect(handle: Handle) | Dispatch(handle: Handle)

  /** The key `onclose` deletes: `transport.sessionId as string`, which is the property
      name "undefined" while the transport has no session id. */
  function KeyOf(h: Handle): string
  {
    if h.sessionId.Some? then h.sessionId.value else "undefined"
  }

  /** The registry holds every transport under its own session id. */
  ghost predicate SelfKeyed(registry: map<string, Handle>)
  {
    forall k | k in registry :: registry[k].sessionId == Some(k)
  }

  /** `POST /mcp`: a known session's transport, a new one for a header-less initialize
      request, otherwise the 400 with the misspelt `jjsonrpc` key. */
  function PostDecision(registry: map<string, Handle>, header: Option<string>, isInitialize: bool,
                        id: Option<Scalar>, newHandle: Handle): Handling
  {
    if Truthy(header) && header.value in registry then Connect(registry[header.value])
    else if !Truthy(header) && isInitialize then Connect(newHandle)
    else Respond(SessionRequiredReply(id))
  }

  /** `GET /mcp`. */
  function PollDecision(registry: map<string, Handle>, header: Option<string>): Handling
  {
    if !Truthy(header) || header.value !in registry then Respond(NoSessionIdReply())
    else Dispatch(registry[header.value])
  }

  /** `DELETE /mcp`: closing the transport runs its `onclose`, which forgets it. */
  function DeleteEffect(registry: map<string, Handle>, header: Option<string>): (map<string, Handle>, Reply)
  {
    if !Truthy(header) || header.value !in registry then (registry, NoSessionIdReply())
    else (registry - {KeyOf(registry[header.value])}, ClosedReply(header.value))
  }

  class V1Router {
    /** The inherited registry (a plain object keyed by session id). */
    var transports: map<string, Handle>

    ghost predicate Valid()
      reads this
    {
      SelfKeyed(transports)
    }

    constructor ()
      ensures transports == map[] && Valid()
    {
      transports := map[];
    }

    method Post(header: Option<string>, isInitialize: bool, id: Option<Scalar>, newHandle: Handle) returns (o: Handling)
      ensures o == PostDecision(transports, header, isInitialize, id, newHandle)
    {
      if Truthy(header) && header.value in transports {
        o := Connect(transports[header.value]);
      } else if !Truthy(header) && isInitialize {
        o := Connect(newHandle);
      } else {
        o := Respond(SessionRequiredReply(id));
      }
    }

    /** The body of the `onsessioninitialized(sessionId)` callback. The protocol library runs
        it only while the new transport handles an initialize request, and POST never hands
        the transport a request (GET does, but only for transports already registered), so
        as the router is written nothing ever calls this and the registry stays empty. */
    method OnSessionInitialized(sessionId: string, h: Handle)
      modifies this
      ensures transports == old(transports)[sessionId := h]
      ensures old(Valid()) && h.sessionId == Some(sessionId) ==> Valid()
    {
      transports := transports[sessionId := h];
    }

    /** `onclose`. */
    method OnClose(h: Handle)
      modifies this
      ensures transports == old(transports) - {KeyOf(h)}
      ensures transports.Keys <= old(transports.Keys)
      ensures old(Valid()) ==> Valid()
    {
      transports := transports - {KeyOf(h)};
    }

    method Get(header: Option<string>) returns (o: Handling)
      ensures o == PollDecision(transports, header)
    {
      if !Truthy(header) || header.value !in transports {
        return Respond(NoSessionIdReply());
      }
      o := Dispatch(transports[header.value]);
    }

    method Delete(header: Option<string>) returns (reply: Reply)
      modifies this
      ensures (transports, reply) == DeleteEffect(old(transports), header)
      ensures transports.Keys <= old(transports.Keys)
      ensures old(Valid()) ==> Valid()
    {
      if !Truthy(header) || header.value !in transports {
        return NoSessionIdReply();
      }
      OnClose(transports[header.value]);
      reply := ClosedReply(header.value);
    }
  }

  /** POST reuses exactly the registered sessions; without a header it connects a new
      transport exactly for an initialize request; every other request gets the 400. */
  lemma PostConnectsOnlyKnownOrNew(registry: map<string, Handle>, header: Option<string>, isInitialize: bool,
                                   id: Option<Scalar>, newHandle: Handle)
    ensures var o := PostDecision(registry, header, isInitialize, id, newHandle);
      && (Truthy(header) ==> (o.Connect? <==> header.value in registry))
      && (Truthy(header) && o.Connect? ==> o.handle == registry[header.value])
      && (!Truthy(header) ==> (o.Connect? <==> isInitialize))
      && (!Truthy(header) && o.Connect? ==> o.handle == newHandle)
      && !o.Dispatch?
      && (o.Respond? ==> o.reply.status == 400 && o.reply.body.versionKey == "jjsonrpc")
  {
  }

  /** Once `onsessioninitialized` has registered a transport, GET hands requests to it. */
  lemma InitializedSessionIsPolled(registry: map<string, Handle>, sessionId: string, h: Handle)
    requires sessionId != ""
    ensures PollDecision(registry[sessionId := h], Some(sessionId)) == Dispatch(h)
  {
  }

  /** On a self-keyed registry, DELETE forgets exactly the named session, and a GET for it
      afterwards is refused. */
  lemma DeleteThenPollRefused(registry: map<string, Handle>, header: Option<string>)
    requires SelfKeyed(registry)
    requires Truthy(header) && header.value in registry
    ensures var (after, reply) := DeleteEffect(registry, header);
      && after == registry - {header.value}
      && reply == ClosedReply(header.value) && reply.status == 200
      && SelfKeyed(after)
      && PollDecision(after, header) == Respond(NoSessionIdReply())
  {
    assert KeyOf(registry[header.value]) == header.value;
  }

  /** Requests never add to the registry: DELETE only removes, POST and GET leave it alone. */
  lemma DeleteOnlyShrinks(registry: map<string, Handle>, header: Option<string>)
    ensures DeleteEffect(registry, header).0.Keys <= registry.Keys
    ensures |DeleteEffect(registry, header).0| <= |registry|
  {
    var after := DeleteEffect(registry, header).0;
    if after != registry {
      var k := KeyOf(registry[header.value]);
      assert after == registry - {k};
    }
  }

  /** With the registry as the router leaves it (empty, since the registering callback never
      runs), GET and DELETE always get the 'No valid session ID provided' 400, and POST with a
      session header always gets the `jjsonrpc` 400: only a header-less initialize request
      connects a transport. */
  lemma EmptyRegistryRefuses(header: Option<string>, isInitialize: bool, id: Option<Scalar>, newHandle: Handle)
    ensures PollDecision(map[], header) == Respond(NoSessionIdReply())
    ensures DeleteEffect(map[], header) == (map[], NoSessionIdReply())
    ensures Truthy(header) ==> PostDecision(map[], header, isInitialize, id, newHandle) == Respond(SessionRequiredReply(id))
    ensures PostDecision(map[], header, isInitialize, id, newHandle).Connect? <==> !Truthy(header) && isInitialize
  {
  }
}
