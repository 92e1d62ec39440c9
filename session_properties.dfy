/** Properties of the lifecycle manager's operations, stated over the pure step
    functions that the `SessionService` methods are proved to follow. */
module SessionProperties {
  import opened Common
  import opened SessionRecord
  import opened Transport
  import opened SessionLifecycle

  // ---------------------------------------------------------------- createSession

  /** An unknown, non-empty id: exactly one new `active` record, and the handle is registered. */
  lemma CreateUnknownId(s: Sessions, id: string, h: Handle, owner: Option<string>,
                        ci: Option<ClientInfo>, now: int)
    requires id !in s.records && id != ""
    ensures var (s', r) := Create(s, id, h, owner, ci, now, NoFault);
      && r.Success?
      && r.value.sessionId == id && r.value.status == Active
      && r.value.owner == owner && r.value.clientInfo == ci
      && r.value.createdAt == now && r.value.lastActivity == now
      && r.value.expiresAt == now + 86_400_000
      && s'.transports[id] == h
      && s'.records.Keys == s.records.Keys + {id}
      && |s'.records| == |s.records| + 1
      && (forall k | k in s.records :: s'.records[k] == s.records[k])
  {
    var (s', r) := Create(s, id, h, owner, ci, now, NoFault);
    assert s'.records.Keys == s.records.Keys + {id};
  }

  /** An `active` record whose owner matches or is absent is renewed in place:
      no second record, same owner and creation time, client info replaced only
      when a new one is supplied, and the handle registered. */
  lemma CreateRenewsActive(s: Sessions, id: string, h: Handle, owner: Option<string>,
                           ci: Option<ClientInfo>, now: int)
    requires id in s.records && s.records[id].status == Active && id != ""
    requires !OwnerConflict(owner, s.records[id].owner)
    ensures var (s', r) := Create(s, id, h, owner, ci, now, NoFault);
      && r.Success?
      && s'.records.Keys == s.records.Keys && |s'.records| == |s.records|
      && r.value.status == Active
      && r.value.owner == s.records[id].owner
      && r.value.createdAt == s.records[id].createdAt
      && r.value.clientInfo == (if ci.Some? then ci else s.records[id].clientInfo)
      && r.value.lastActivity == now && r.value.expiresAt == now + DAY_MS
      && s'.transports == s.transports[id := h]
  {
    var (s', r) := Create(s, id, h, owner, ci, now, NoFault);
    assert s'.records.Keys == s.records.Keys;
  }

  /** Both owners given and different: the call throws, the records are untouched,
      and the catch removes whatever handle is registered under the id, even one that
      was there before the call; every other registration stays. */
  lemma CreateOwnerConflict(s: Sessions, id: string, h: Handle, owner: Option<string>,
                            ci: Option<ClientInfo>, now: int, fault: Fault)
    requires id in s.records && OwnerConflict(owner, s.records[id].owner)
    requires fault != FindFails
    ensures var (s', r) := Create(s, id, h, owner, ci, now, fault);
      && r == Failure(OwnershipConflict)
      && s'.records == s.records
      && id !in s'.transports
      && (forall k | k in s.transports && k != id :: k in s'.transports && s'.transports[k] == s.transports[k])
  {
  }

  /** A `closed` or `expired` record: the call falls through to inserting a second record
      under the same id, which the unique key rejects; the handle it registered is removed. */
  lemma CreateOnTerminalRecord(s: Sessions, id: string, h: Handle, owner: Option<string>,
                               ci: Option<ClientInfo>, now: int, fault: Fault)
    requires id in s.records && s.records[id].status != Active
    requires !OwnerConflict(owner, s.records[id].owner) && fault != FindFails
    ensures var (s', r) := Create(s, id, h, owner, ci, now, fault);
      && r == Failure(Rejected(if id == "" then MissingId else DuplicateKey))
      && s'.records == s.records
      && id !in s'.transports
  {
  }

  /** `required: true`: an empty id is never saved, whatever the store holds, and the
      handle registered for it is removed again. */
  lemma CreateEmptyIdRejected(s: Sessions, h: Handle, owner: Option<string>,
                              ci: Option<ClientInfo>, now: int, fault: Fault)
    ensures var (s', r) := Create(s, "", h, owner, ci, now, fault);
      && r.Failure?
      && s'.records == s.records
      && "" !in s'.transports
      && (fault != FindFails && "" !in s.records ==> r == Failure(Rejected(MissingId)))
  {
  }

  /** Whatever makes the call throw, the catch rolls the registry back: no handle is
      left registered under the id without a saved record behind it. */
  lemma CreateFailureRollsBack(s: Sessions, id: string, h: Handle, owner: Option<string>,
                               ci: Option<ClientInfo>, now: int, fault: Fault)
    ensures var (s', r) := Create(s, id, h, owner, ci, now, fault);
      r.Failure? ==> s'.records == s.records && id !in s'.transports
  {
  }

  /** Under the store invariant the saved record carries the id it is filed under. */
  lemma CreatedRecordIsKeyed(s: Sessions, id: string, h: Handle, owner: Option<string>,
                             ci: Option<ClientInfo>, now: int, fault: Fault)
    requires Inv(s)
    ensures var (s', r) := Create(s, id, h, owner, ci, now, fault);
      r.Success? ==> r.value.sessionId == id && Inv(s')
  {
    StepKeepsInv(s, CreateOp(id, h, owner, ci, now, fault));
  }

  // ---------------------------------------------------------------- closeSession

  /** No record, or a record owned by someone else: `false`, and nothing changes. */
  lemma CloseRefuses(s: Sessions, id: string, caller: Option<string>, now: int, fault: Fault)
    requires id !in s.records || OwnerConflict(caller, s.records[id].owner)
    ensures Close(s, id, caller, now, fault) == (s, false)
  {
  }

  /** Otherwise the record is saved as closed whatever its previous status, with a
      24-hour grace expiry; the answer is `true` exactly when a handle was registered,
      and afterwards none is. With no handle the answer is `false` yet the record stays closed. */
  lemma CloseMarksClosed(s: Sessions, id: string, caller: Option<string>, now: int)
    requires id in s.records && !OwnerConflict(caller, s.records[id].owner)
    ensures var (s', ok) := Close(s, id, caller, now, NoFault);
      && s'.records[id].status == Closed
      && s'.records[id].lastActivity == now
      && s'.records[id].expiresAt == now + DAY_MS
      && s'.records[id].owner == s.records[id].owner
      && s'.records[id].clientInfo == s.records[id].clientInfo
      && s'.records.Keys == s.records.Keys
      && (ok <==> id in s.transports)
      && id !in s'.transports
  {
    var (s', ok) := Close(s, id, caller, now, NoFault);
    assert s'.records.Keys == s.records.Keys;
  }

  /** Once a close has gone through, a second close of the same id answers `false`,
      whoever asks and whenever. */
  lemma CloseTwice(s: Sessions, id: string, caller1: Option<string>, caller2: Option<string>,
                   now1: int, now2: int, fault2: Fault)
    requires id in s.records && !OwnerConflict(caller1, s.records[id].owner)
    ensures var (s1, _) := Close(s, id, caller1, now1, NoFault);
      !Close(s1, id, caller2, now2, fault2).1
  {
  }

  /** Of two closes of the same id in a row, at most one answers `true`. */
  lemma CloseAtMostOnce(s: Sessions, id: string, caller1: Option<string>, caller2: Option<string>,
                        now1: int, now2: int)
    ensures var (s1, ok1) := Close(s, id, caller1, now1, NoFault);
      var (_, ok2) := Close(s1, id, caller2, now2, NoFault);
      !(ok1 && ok2)
  {
  }

  // ---------------------------------------------------------------- getActiveSession

  /** Each read-only check that fails answers `(null, null)` and writes nothing. */
  lemma GetActiveRejects(s: Sessions, id: string, caller: Option<string>, now: int, fault: Fault)
    requires fault != FindFails
    requires || id !in s.records
             || OwnerConflict(caller, s.records[id].owner)
             || s.records[id].status != Active
             || s.records[id].expiresAt < now
    ensures GetActive(s, id, caller, now, fault) == (s, NotFound)
  {
  }

  /** Tenant isolation: a caller whose owner differs from the record's never gets it. */
  lemma TenantIsolation(s: Sessions, id: string, caller: Option<string>, now: int, fault: Fault)
    requires id in s.records && OwnerConflict(caller, s.records[id].owner)
    ensures !GetActive(s, id, caller, now, fault).1.Found?
    ensures GetActive(s, id, caller, now, fault).0 == s
  {
  }

  /** Read repair: a live-looking record with no registered handle is saved as closed,
      with nothing else about it changed, and the answer is `(null, null)`. */
  lemma GetActiveHealsStaleRecord(s: Sessions, id: string, caller: Option<string>, now: int)
    requires Live(s, id, caller, now) && id !in s.transports
    ensures var (s', found) := GetActive(s, id, caller, now, NoFault);
      && found == NotFound
      && s'.records == s.records[id := s.records[id].(status := Closed)]
      && s'.transports == s.transports
  {
  }

  /** A successful resume refreshes `lastActivity` only: expiry and client info stay. */
  lemma GetActiveTouchesOnlyLastActivity(s: Sessions, id: string, caller: Option<string>, now: int)
    requires Live(s, id, caller, now) && id in s.transports
    ensures var (s', found) := GetActive(s, id, caller, now, NoFault);
      && found == Found(s'.records[id], s.transports[id])
      && s'.records[id].lastActivity == now
      && s'.records[id].expiresAt == s.records[id].expiresAt
      && s'.records[id].clientInfo == s.records[id].clientInfo
      && s'.records[id].status == Active
      && s'.records == s.records[id := s.records[id].(lastActivity := now)]
  {
  }

  /** After a successful create, a resume within the 24-hour window by the same owner finds
      the same record and the same handle, and so does a resume by any caller whose owner
      does not conflict with the record's (no owner, or the record's own). */
  lemma CreateThenResume(s: Sessions, id: string, h: Handle, owner: Option<string>,
                         ci: Option<ClientInfo>, now: int, later: int, caller: Option<string>)
    requires Create(s, id, h, owner, ci, now, NoFault).1.Success?
    requires later <= now + DAY_MS
    ensures var (s1, r) := Create(s, id, h, owner, ci, now, NoFault);
      GetActive(s1, id, owner, later, NoFault).1 == Found(r.value.(lastActivity := later), h)
    ensures var (s1, r) := Create(s, id, h, owner, ci, now, NoFault);
      !OwnerConflict(caller, r.value.owner) ==>
        GetActive(s1, id, caller, later, NoFault).1 == Found(r.value.(lastActivity := later), h)
  {
    var (s1, r) := Create(s, id, h, owner, ci, now, NoFault);
    if id in s.records {
      assert r.value.owner == s.records[id].owner;
    }
  }

  // ---------------------------------------------------------------- cleanUpExpiredSessions

  /** A successful sweep keeps a record exactly when its expiry has not strictly passed,
      whatever its status, and keeps it unchanged. */
  lemma CleanUpKeepsExactlyUnexpired(s: Sessions, now: int, k: string)
    requires k in s.records
    ensures var (s', ok) := CleanUp(s, now, false);
      && ok
      && (k in s'.records <==> s.records[k].expiresAt >= now)
      && (k in s'.records ==> s'.records[k] == s.records[k])
  {
  }

  /** When the sweep deletes something it also drops every handle whose `sessionId`
      is set, including handles of sessions it did not delete. */
  lemma CleanUpDropsEveryBoundHandle(s: Sessions, now: int, k: string)
    requires k in s.transports && Bound(s.transports[k])
    requires exists e | e in s.records :: s.records[e].expiresAt < now
    ensures k !in CleanUp(s, now, false).0.transports
  {
    var e :| e in s.records && s.records[e].expiresAt < now;
    assert e in ExpiredIds(s.records, now);
  }

  /** A closed session is kept for its grace window and swept after it. */
  lemma ClosedRecordLifetime(s: Sessions, id: string, caller: Option<string>, t: int, sweep: int)
    requires id in s.records && !OwnerConflict(caller, s.records[id].owner)
    ensures var (s1, _) := Close(s, id, caller, t, NoFault);
      var (s2, _) := CleanUp(s1, sweep, false);
      (id in s2.records <==> sweep <= t + DAY_MS)
  {
  }

  // ---------------------------------------------------------------- over many calls

  /** No operation turns a `closed` or `expired` record back into an `active` one. */
  lemma NeverReactivated(s: Sessions, op: Op, k: string)
    requires k in s.records && s.records[k].status != Active
    ensures k in Step(s, op).records ==> Step(s, op).records[k].status != Active
  {
  }

  ghost predicate NoneExpired(s: Sessions)
  {
    forall k | k in s.records :: s.records[k].status != Expired
  }

  /** The service never writes the `expired` status: starting from a store without it,
      no sequence of calls produces one. */
  lemma {:induction false} ExpiredNeverWritten(s: Sessions, ops: seq<Op>)
    requires NoneExpired(s)
    ensures NoneExpired(Run(s, ops))
    decreases |ops|
  {
    if ops != [] {
      var s1 := Step(s, ops[0]);
      assert NoneExpired(s1) by {
        match ops[0]
        case CleanUpOp(now, deleteFails) =>
        case _ =>
      }
      ExpiredNeverWritten(s1, ops[1..]);
    }
  }

  /** The schema's defaults give a new session exactly one day: its owner finds it live,
      and every sweep keeps it, up to 24 hours after creation and not a moment later. */
  lemma NewSessionLivesADay(s: Sessions, id: string, h: Handle, owner: Option<string>,
                            ci: Option<ClientInfo>, now: int, t: int)
    requires id !in s.records && id != ""
    ensures var (s1, r) := Create(s, id, h, owner, ci, now, NoFault);
      && r.Success? && r.value == Document(id, now).(owner := owner, clientInfo := ci)
      && r.value.status == Active && r.value.createdAt == now && r.value.owner == owner
      && (Live(s1, id, owner, t) <==> t <= now + DAY_MS)
      && (id in CleanUp(s1, t, false).0.records <==> t <= now + DAY_MS)
  {
    CreateUnknownId(s, id, h, owner, ci, now);
  }

  /** Between operations the store may delete a record on its own once it has expired.
      A record with a live handle can go this way: the handle is then orphaned, and a
      sweep that finds nothing else to delete keeps it. The unique key still holds. */
  lemma PurgeOrphansHandle()
    ensures var s := Sessions(map["a" := Record("a", None, Active, 0, 0, 10, None)],
                              map["a" := Handle(1, Some("a"))]);
      var p := Step(s, PurgeOp(20, {"a"}));
      && Inv(s) && Keyed(p.records) && !Inv(p)
      && CleanUp(p, 30, false) == (p, true)
      && GetActive(p, "a", None, 30, NoFault) == (p, NotFound)
  {
    var s := Sessions(map["a" := Record("a", None, Active, 0, 0, 10, None)], map["a" := Handle(1, Some("a"))]);
    var p := Step(s, PurgeOp(20, {"a"}));
    assert p.records == map[];
    assert ExpiredIds(p.records, 30) == {};
  }

  // ---------------------------------------------------------------- scenarios

  const H1: Handle := Handle(1, Some("abc"))
  const H2: Handle := Handle(2, Some("s1"))

  /** Create "abc" unowned; close it (`true`); resume it (`(null, null)`); close again (`false`). */
  lemma ScenarioCloseThenResume(t: int)
    ensures var s0 := Sessions(map[], map[]);
      var (s1, r) := Create(s0, "abc", H1, None, None, t, NoFault);
      var (s2, ok1) := Close(s1, "abc", None, t + 1, NoFault);
      var (s3, found) := GetActive(s2, "abc", None, t + 2, NoFault);
      var (_, ok2) := Close(s3, "abc", None, t + 3, NoFault);
      r.Success? && ok1 && found == NotFound && !ok2
  {
  }

  /** Create "s1" owned by "tenantA": "tenantB" gets `(null, null)`, "tenantA" gets the record. */
  lemma ScenarioTenants(t: int)
    ensures var s0 := Sessions(map[], map[]);
      var (s1, r) := Create(s0, "s1", H2, Some("tenantA"), None, t, NoFault);
      var (s2, byB) := GetActive(s1, "s1", Some("tenantB"), t, NoFault);
      var (_, byA) := GetActive(s2, "s1", Some("tenantA"), t, NoFault);
      r.Success? && byB == NotFound && byA.Found? && byA.handle == H2
  {
    var s0 := Sessions(map[], map[]);
    var (s1, r) := Create(s0, "s1", H2, Some("tenantA"), None, t, NoFault);
    assert OwnerConflict(Some("tenantB"), s1.records["s1"].owner);
  }
}
