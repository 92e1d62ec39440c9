/** The durable session document (`MCPSession` schema): its status enumeration,
    its defaults, and the store operations the lifecycle manager relies on
    (lookup by id, insert under the unique index, delete-many by expiry, and the
    store's own time-to-live purge). Times are milliseconds since the epoch. */
module SessionRecord {
  import opened Common

  /** 24 * 60 * 60 * 1000: the session lifetime, reused as the grace window after a close. */
  const DAY_MS: int := 24 * 60 * 60 * 1000

  datatype Status = Active | Closed | Expired

  datatype ClientInfo = ClientInfo(userAgent: Option<string>, ipAddress: Option<string>)

  /** One session document. `owner` is the single optional owner field that the
      service reads and writes (see README on `tenantId` and `userId`). */
  datatype Record = Record(
    sessionId: string,
    owner: Option<string>,
    status: Status,
    createdAt: int,
    lastActivity: int,
    expiresAt: int,
    clientInfo: Option<ClientInfo>)

  /** The document the schema builds at time `now` when only `sessionId` is given. */
  function Document(sessionId: string, now: int): Record
  {
    Record(sessionId, None, Active, now, now, now + DAY_MS, None)
  }

  /** The unique index on `sessionId`, together with `required: true`: every record is
      filed under its own id, which is never empty, so the store holds at most one
      record per id. */
  ghost predicate Keyed(records: map<string, Record>)
  {
    forall k | k in records :: records[k].sessionId == k && k != ""
  }

  /** Why `save()` refuses a document before anything is written. */
  datatype SaveError =
    | MissingId     // `required: true` rejects an empty `sessionId`
    | DuplicateKey  // the unique index rejects a second record under the same id

  /** `save()` of a new document. */
  function Insert(records: map<string, Record>, r: Record): (out: Result<map<string, Record>, SaveError>)
    ensures out.Failure? <==> r.sessionId == "" || r.sessionId in records
    ensures out.Failure? ==> (out.error == MissingId <==> r.sessionId == "")
    ensures out.Success? ==> out.value.Keys == records.Keys + {r.sessionId}
    ensures out.Success? ==> out.value[r.sessionId] == r
    ensures out.Success? ==> forall k | k in records :: out.value[k] == records[k]
  {
    if r.sessionId == "" then Failure(MissingId)
    else if r.sessionId in records then Failure(DuplicateKey)
    else Success(records[r.sessionId := r])
  }

  lemma InsertKeepsKeyed(records: map<string, Record>, r: Record)
    requires Keyed(records)
    ensures Insert(records, r).Success? ==> Keyed(Insert(records, r).value)
  {
  }

  /** The ids that `deleteMany({ expiresAt: { $lt: now } })` removes; its size is `deletedCount`. */
  function ExpiredIds(records: map<string, Record>, now: int): (ids: set<string>)
    ensures forall k :: k in ids <==> k in records && records[k].expiresAt < now
  {
    set k | k in records && records[k].expiresAt < now
  }

  /** What `deleteMany({ expiresAt: { $lt: now } })` leaves: whatever the status,
      exactly the records whose expiry has not strictly passed. */
  function DeleteExpired(records: map<string, Record>, now: int): (kept: map<string, Record>)
    ensures forall k :: k in kept <==> k in records && records[k].expiresAt >= now
    ensures forall k | k in kept :: kept[k] == records[k]
    ensures kept.Keys == records.Keys - ExpiredIds(records, now)
  {
    map k | k in records && records[k].expiresAt >= now :: records[k]
  }

  /** The store's own TTL monitor (`expireAfterSeconds: 0`) at time `now`: it may drop
      any of the records in `drops` whose expiry has come, at a moment of its choosing. */
  function TtlPurge(records: map<string, Record>, now: int, drops: set<string>): (kept: map<string, Record>)
    ensures forall k | k in records && records[k].expiresAt > now :: k in kept && kept[k] == records[k]
    ensures forall k | k in kept :: k in records && kept[k] == records[k]
  {
    map k | k in records && !(k in drops && records[k].expiresAt <= now) :: records[k]
  }

  /** The sweep splits the store in two: the ids it deletes and the records it keeps are
      disjoint and together make up the store, so `deletedCount` is the number of records
      that disappear. */
  lemma SweepPartitions(records: map<string, Record>, now: int)
    ensures ExpiredIds(records, now) * DeleteExpired(records, now).Keys == {}
    ensures ExpiredIds(records, now) + DeleteExpired(records, now).Keys == records.Keys
    ensures |ExpiredIds(records, now)| == |records| - |DeleteExpired(records, now)|
    ensures |ExpiredIds(records, now)| > 0 <==> DeleteExpired(records, now) != records
  {
    var ids, kept := ExpiredIds(records, now), DeleteExpired(records, now);
    assert records.Keys == ids + kept.Keys;
    assert |records.Keys| == |ids| + |kept.Keys|;
    if |ids| > 0 {
      var k :| k in ids;
      assert k in records && k !in kept;
    } else {
      assert ids == {};
      assert kept.Keys == records.Keys;
    }
  }

  /** A second sweep no later than the first deletes nothing more. */
  lemma SweepIdempotent(records: map<string, Record>, first: int, second: int)
    requires second <= first
    ensures DeleteExpired(DeleteExpired(records, first), second) == DeleteExpired(records, first)
    ensures ExpiredIds(DeleteExpired(records, first), second) == {}
  {
    var kept := DeleteExpired(records, first);
    assert DeleteExpired(kept, second).Keys == kept.Keys;
  }
}
