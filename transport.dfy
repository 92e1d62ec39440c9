/** Stand-in for the protocol library's streamable HTTP transport: an opaque handle
    with an identity and the optional `sessionId` the library assigns to it. */
module Transport {
  import opened Common

  datatype Handle = Handle(ref: nat, sessionId: Option<string>)

  /** `transport.sessionId` is set (and, as a string in a condition, non-empty). */
  predicate Bound(h: Handle)
  {
    Truthy(h.sessionId)
  }
}
