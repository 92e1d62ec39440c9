/** The session lifecycle manager (`MCPSessionService`). It keeps two stores in step:
    the durable record store (session id -> record) and the process-local registry
    (session id -> transport handle). Each operation is one atomic step over both.
    The pure functions `Create`, `Close`, `GetActive` and `CleanUp` say what one call
    does to the pair; the class `SessionService` performs the same steps in place
    and is proved to agree with them. */
module SessionLifecycle {
  import opened Common
  import opened SessionRecord
  import opened Transport

  /** A store call that throws during one operation: the lookup, or the save after it. */
  datatype Fault = NoFault | FindFails | SaveFails

  /** Why `createSession` throws. */
  datatype CreateError =
    | OwnershipConflict        // 'Session belongs to different tenant'
    | Rejected(why: SaveError) // the schema refuses the save: empty id, or id already taken
    | StoreError               // the store itself failed

  /** What `getActiveSession` gives back: record and handle, `{ session: null, transport: null }`,
      or a rethrown store error. */
  datatype Lookup = Found(record: Record, handle: Handle) | NotFound | LookupFailed

  /** The durable records and the process-local registry, side by side. */
  datatype Sessions = Sessions(records: map<string, Record>, transports: map<string, Handle>)

  /** `tenantId && session.tenantId && session.tenantId !== tenantId`: both owners are given and differ. */
  predicate OwnerConflict(caller: Option<string>, owner: Option<string>)
  {
    Truthy(caller) && Truthy(owner) && caller.value != owner.value
  }

  /** The record `createSession` saves for an id it does not know yet. */
  function NewRecord(id: string, owner: Option<string>, clientInfo: Option<ClientInfo>, now: int): Record
  {
    Document(id, now).(owner := owner, clientInfo := clientInfo)
  }

  /** An `active` record renewed by `createSession`: client info only when a new one is supplied. */
  function Renewed(r: Record, clientInfo: Option<ClientInfo>, now: int): Record
  {
    r.(clientInfo := if clientInfo.Some? then clientInfo else r.clientInfo,
       lastActivity := now, expiresAt := now + DAY_MS)
  }

  /** A record as `closeSession` saves it: closed, touched, and kept for a grace window. */
  function ClosedAt(r: Record, now: int): Record
  {
    r.(status := Closed, lastActivity := now, expiresAt := now + DAY_MS)
  }

  /** The catch block of `createSession`: close and forget whatever handle is registered under `id`. */
  function RollBack(s: Sessions, id: string): Sessions
  {
    s.(transports := s.transports - {id})
  }

  /** `createSession(sessionId, transport, tenantId?, clientInfo?)`. */
  function Create(s: Sessions, id: string, h: Handle, owner: Option<string>,
                  clientInfo: Option<ClientInfo>, now: int, fault: Fault): (out: (Sessions, Result<Record, CreateError>))
    ensures out.1.Success? <==>
      fault == NoFault && id != "" &&
      (id !in s.records || (s.records[id].status == Active && !OwnerConflict(owner, s.records[id].owner)))
    ensures out.1 == Failure(Rejected(MissingId)) <==>
      fault != FindFails && id == "" && !(id in s.records && OwnerConflict(owner, s.records[id].owner))
    ensures out.1.Failure? ==> out.0.records == s.records && out.0.transports == s.transports - {id}
    ensures out.1.Success? ==>
      && out.0.transports == s.transports[id := h]
      && out.0.records == s.records[id := out.1.value]
      && out.1.value.status == Active
      && out.1.value.lastActivity == now && out.1.value.expiresAt == now + DAY_MS
  {
    if fault == FindFails then (RollBack(s, id), Failure(StoreError))
    else if id in s.records then
      var existing := s.records[id];
      if OwnerConflict(owner, existing.owner) then (RollBack(s, id), Failure(OwnershipConflict))
      else if existing.status == Active then
        // the schema validates the id before the store is asked to write
        if id == "" then (RollBack(s, id), Failure(Rejected(MissingId)))
        else if fault == SaveFails then (RollBack(s, id), Failure(StoreError))
        else
          var renewed := Renewed(existing, clientInfo, now);
          assert fault == NoFault;
          (Sessions(s.records[id := renewed], s.transports[id := h]), Success(renewed))
      else
        // closed or expired: falls through to a second insert under the same id
        Insertion(s, id, h, owner, clientInfo, now, fault)
    else Insertion(s, id, h, owner, clientInfo, now, fault)
  }

  /** The second half of `createSession`: save a new document under `id`. */
  function Insertion(s: Sessions, id: string, h: Handle, owner: Option<string>,
                     clientInfo: Option<ClientInfo>, now: int, fault: Fault): (out: (Sessions, Result<Record, CreateError>))
  {
    var created := NewRecord(id, owner, clientInfo, now);
    match Insert(s.records, created)
    case Failure(why) => (RollBack(s, id), Failure(Rejected(why)))
    case Success(records) =>
      if fault == SaveFails then (RollBack(s, id), Failure(StoreError))
      else (Sessions(records, s.transports[id := h]), Success(created))
  }

  /** The guards `closeSession` passes before it writes anything. */
  predicate CloseAdmits(s: Sessions, id: string, caller: Option<string>, fault: Fault)
  {
    fault == NoFault && id in s.records && !OwnerConflict(caller, s.records[id].owner)
  }

  /** `closeSession(sessionId, tenantId?)`: every failure is caught and reported as `false`. */
  function Close(s: Sessions, id: string, caller: Option<string>, now: int, fault: Fault): (out: (Sessions, bool))
    ensures !CloseAdmits(s, id, caller, fault) ==> out == (s, false)
    ensures CloseAdmits(s, id, caller, fault) ==>
      && out.0.records == s.records[id := ClosedAt(s.records[id], now)]
      && out.0.transports == s.transports - {id}
      && (out.1 <==> id in s.transports)
  {
    if fault == FindFails || id !in s.records then (s, false)
    else
      var session := s.records[id];
      if OwnerConflict(caller, session.owner) then (s, false)
      else if fault == SaveFails then (s, false)
      else
        var records := s.records[id := ClosedAt(session, now)];
        if id in s.transports then (Sessions(records, s.transports - {id}), true)
        // `this.transports[sessionId].close()` throws on a missing handle; the catch answers false
        else (Sessions(records, s.transports), false)
  }

  /** The read-only checks of `getActiveSession`, in order: a record exists, the owners do
      not conflict, it is `active`, and its expiry has not strictly passed. */
  predicate Live(s: Sessions, id: string, caller: Option<string>, now: int)
  {
    && id in s.records
    && !OwnerConflict(caller, s.records[id].owner)
    && s.records[id].status == Active
    && !(s.records[id].expiresAt < now)
  }

  /** `getActiveSession(sessionId, tenantId?)`. */
  function GetActive(s: Sessions, id: string, caller: Option<string>, now: int, fault: Fault): (out: (Sessions, Lookup))
    ensures out.0.transports == s.transports
    ensures out.0.records.Keys == s.records.Keys
    ensures forall k | k in s.records && k != id :: out.0.records[k] == s.records[k]
    ensures out.1.Found? <==> fault == NoFault && Live(s, id, caller, now) && id in s.transports
    ensures out.1.Found? ==>
      out.1.handle == s.transports[id] && out.1.record == s.records[id].(lastActivity := now) &&
      out.0.records[id] == out.1.record
    ensures out.1.LookupFailed? ==> out.0 == s
  {
    if fault == FindFails then (s, LookupFailed)
    else if id !in s.records then (s, NotFound)
    else
      var session := s.records[id];
      if OwnerConflict(caller, session.owner) then (s, NotFound)
      else if session.status != Active then (s, NotFound)
      else if session.expiresAt < now then (s, NotFound)
      else if id !in s.transports then
        // read repair: a stale active record with no live handle is saved as closed
        if fault == SaveFails then (s, LookupFailed)
        else (s.(records := s.records[id := session.(status := Closed)]), NotFound)
      else if fault == SaveFails then (s, LookupFailed)
      else
        var touched := session.(lastActivity := now);
        assert fault == NoFault;
        (s.(records := s.records[id := touched]), Found(touched, s.transports[id]))
  }

  /** The registry after the sweep's loop: every handle whose `sessionId` is set is gone. */
  function Unbound(m: map<string, Handle>): (r: map<string, Handle>)
    ensures forall k :: k in r <==> k in m && !Bound(m[k])
    ensures forall k | k in r :: r[k] == m[k]
  {
    map k | k in m && !Bound(m[k]) :: m[k]
  }

  /** `cleanUpExpiredSessions()` at time `now`; `deleteFails` says whether `deleteMany` throws. */
  function CleanUp(s: Sessions, now: int, deleteFails: bool): (out: (Sessions, bool))
    ensures out.1 <==> !deleteFails
    ensures !out.1 ==> out.0 == s
    ensures out.1 ==> out.0.records == DeleteExpired(s.records, now)
    ensures out.1 && ExpiredIds(s.records, now) == {} ==> out.0.transports == s.transports
    ensures out.1 && ExpiredIds(s.records, now) != {} ==> out.0.transports == Unbound(s.transports)
    ensures out.1 && ExpiredIds(s.records, now) != {} ==>
      forall k | k in out.0.transports :: !Bound(out.0.transports[k])
  {
    if deleteFails then (s, false)
    else
      var deleted := ExpiredIds(s.records, now);
      var records := DeleteExpired(s.records, now);
      if |deleted| > 0 then (Sessions(records, Unbound(s.transports)), true)
      else (Sessions(records, s.transports), true)
  }

  /** What the two stores keep true between operations: the unique key holds, and every
      handle with a session id is backed by a record. */
  ghost predicate Inv(s: Sessions)
  {
    && Keyed(s.records)
    && forall k | k in s.transports && Bound(s.transports[k]) :: k in s.records
  }

  /** One call into the manager. */
  datatype Op =
    | CreateOp(id: string, h: Handle, owner: Option<string>, clientInfo: Option<ClientInfo>, now: int, fault: Fault)
    | CloseOp(id: string, caller: Option<string>, now: int, fault: Fault)
    | GetOp(id: string, caller: Option<string>, now: int, fault: Fault)
    | CleanUpOp(now: int, deleteFails: bool)
    | PurgeOp(now: int, drops: set<string>)  // the store's own expiry deletion, not a manager call

  /** A call into the manager, as opposed to the store acting on its own. */
  predicate IsCall(op: Op)
  {
    !op.PurgeOp?
  }

  function Step(s: Sessions, op: Op): Sessions
  {
    match op
    case CreateOp(id, h, owner, ci, now, fault) => Create(s, id, h, owner, ci, now, fault).0
    case CloseOp(id, caller, now, fault) => Close(s, id, caller, now, fault).0
    case GetOp(id, caller, now, fault) => GetActive(s, id, caller, now, fault).0
    case CleanUpOp(now, deleteFails) => CleanUp(s, now, deleteFails).0
    case PurgeOp(now, drops) => s.(records := TtlPurge(s.records, now, drops))
  }

  /** A sequence of calls, one after another. */
  function Run(s: Sessions, ops: seq<Op>): Sessions
    decreases |ops|
  {
    if ops == [] then s else Run(Step(s, ops[0]), ops[1..])
  }

  lemma StepKeepsInv(s: Sessions, op: Op)
    requires Inv(s) && IsCall(op)
    ensures Inv(Step(s, op))
  {
    match op
    case CleanUpOp(now, deleteFails) =>
      var out := CleanUp(s, now, deleteFails);
      if out.1 && ExpiredIds(s.records, now) == {} {
        assert out.0.records == s.records;
      }
    case _ =>
  }

  lemma {:induction false} RunKeepsInv(s: Sessions, ops: seq<Op>)
    requires Inv(s)
    requires forall i | 0 <= i < |ops| :: IsCall(ops[i])
    ensures Inv(Run(s, ops))
    decreases |ops|
  {
    if ops != [] {
      StepKeepsInv(s, ops[0]);
      assert forall i | 0 <= i < |ops[1..]| :: ops[1..][i] == ops[i + 1];
      RunKeepsInv(Step(s, ops[0]), ops[1..]);
    }
  }

  /** The unique key survives everything, the store's own expiry deletion included. */
  lemma StepKeepsKeyed(s: Sessions, op: Op)
    requires Keyed(s.records)
    ensures Keyed(Step(s, op).records)
  {
    match op
    case CleanUpOp(now, deleteFails) =>
    case PurgeOp(now, drops) =>
    case _ =>
  }

  lemma {:induction false} RunKeepsKeyed(s: Sessions, ops: seq<Op>)
    requires Keyed(s.records)
    ensures Keyed(Run(s, ops).records)
    decreases |ops|
  {
    if ops != [] {
      StepKeepsKeyed(s, ops[0]);
      RunKeepsKeyed(Step(s, ops[0]), ops[1..]);
    }
  }

  /** The manager itself: both stores as fields, updated in place. */
  class SessionService {
    /** The `MCPSession` collection. */
    var records: map<string, Record>
    /** The `transports` dictionary. */
    var transports: map<string, Handle>

    function State(): Sessions
      reads this
    {
      Sessions(records, transports)
    }

    ghost predicate Valid()
      reads this
    {
      Inv(State())
    }

    /** A process starting against a store that already holds `stored`: the registry starts empty. */
    constructor (stored: map<string, Record>)
      ensures records == stored && transports == map[]
      ensures Keyed(stored) ==> Valid()
    {
      records := stored;
      transports := map[];
    }

    method CreateSession(id: string, h: Handle, owner: Option<string>, clientInfo: Option<ClientInfo>,
                         now: int, fault: Fault) returns (r: Result<Record, CreateError>)
      modifies this
      ensures (State(), r) == Create(old(State()), id, h, owner, clientInfo, now, fault)
      ensures old(Valid()) ==> Valid()
    {
      if Valid() {
        StepKeepsInv(State(), CreateOp(id, h, owner, clientInfo, now, fault));
      }
      var error: Option<CreateError> := None;
      if fault == FindFails {
        error := Some(StoreError);
      } else if id in records {
        var existing := records[id];
        if OwnerConflict(owner, existing.owner) {
          error := Some(OwnershipConflict);
        } else if existing.status == Active {
          var renewed := Renewed(existing, clientInfo, now);
          transports := transports[id := h];
          if id == "" {
            error := Some(Rejected(MissingId));
          } else if fault == SaveFails {
            error := Some(StoreError);
          } else {
            records := records[id := renewed];
            return Success(renewed);
          }
        }
      }
      if error.None? {
        transports := transports[id := h];
        var created := NewRecord(id, owner, clientInfo, now);
        var inserted := Insert(records, created);
        if inserted.Failure? {
          error := Some(Rejected(inserted.error));
        } else if fault == SaveFails {
          error := Some(StoreError);
        } else {
          records := inserted.value;
          return Success(created);
        }
      }
      // catch: close and deregister whatever handle is now under `id`, then rethrow
      if id in transports {
        transports := transports - {id};
      }
      assert transports == old(transports) - {id};
      r := Failure(error.value);
    }

    method CloseSession(id: string, caller: Option<string>, now: int, fault: Fault) returns (ok: bool)
      modifies this
      ensures (State(), ok) == Close(old(State()), id, caller, now, fault)
      ensures old(Valid()) ==> Valid()
    {
      if Valid() {
        StepKeepsInv(State(), CloseOp(id, caller, now, fault));
      }
      if fault == FindFails || id !in records {
        return false;
      }
      var session := records[id];
      if OwnerConflict(caller, session.owner) || fault == SaveFails {
        return false;
      }
      records := records[id := ClosedAt(session, now)];
      if id !in transports {
        return false;
      }
      transports := transports - {id};
      ok := true;
    }

    method GetActiveSession(id: string, caller: Option<string>, now: int, fault: Fault) returns (found: Lookup)
      modifies this
      ensures (State(), found) == GetActive(old(State()), id, caller, now, fault)
      ensures old(Valid()) ==> Valid()
    {
      if Valid() {
        StepKeepsInv(State(), GetOp(id, caller, now, fault));
      }
      if fault == FindFails {
        return LookupFailed;
      }
      if id !in records {
        return NotFound;
      }
      var session := records[id];
      if OwnerConflict(caller, session.owner) || session.status != Active || session.expiresAt < now {
        return NotFound;
      }
      if id !in transports {
        if fault == SaveFails {
          return LookupFailed;
        }
        records := records[id := session.(status := Closed)];
        return NotFound;
      }
      if fault == SaveFails {
        return LookupFailed;
      }
      var touched := session.(lastActivity := now);
      records := records[id := touched];
      found := Found(touched, transports[id]);
    }

    method CleanUpExpiredSessions(now: int, deleteFails: bool) returns (ok: bool)
      modifies this
      ensures (State(), ok) == CleanUp(old(State()), now, deleteFails)
      ensures old(Valid()) ==> Valid()
    {
      if Valid() {
        StepKeepsInv(State(), CleanUpOp(now, deleteFails));
      }
      if deleteFails {
        return false;
      }
      var deleted := ExpiredIds(records, now);
      records := DeleteExpired(records, now);
      if |deleted| > 0 {
        ghost var registered := transports;
        var pending := transports.Keys;
        while pending != {}
          invariant records == DeleteExpired(old(records), now)
          invariant pending <= registered.Keys
          invariant forall k :: k in transports <==> k in registered && (k in pending || !Bound(registered[k]))
          invariant forall k | k in transports :: transports[k] == registered[k]
          decreases pending
        {
          var sessionId :| sessionId in pending;
          if Bound(transports[sessionId]) {
            transports := transports - {sessionId};
          }
          pending := pending - {sessionId};
        }
        assert transports == Unbound(registered);
      }
      ok := true;
    }
  }
}
