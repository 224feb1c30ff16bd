/**
 * One row of `delegated_uploads` and every UPDATE the program makes to it.
 *
 * The functions give the row after each guarded UPDATE; where a transaction
 * returns an error and rolls back, the function returns `None`. Times are
 * milliseconds. Tokens, hashes, session ids, versions and ETags are numbers.
 */
module DelegatedRow {
  import opened Wrappers

  /** How long after its deadline a provider call may still take effect. */
  const FENCE := 120_000

  datatype Status = Reserved | Receiving | Staged | Committed | Cancelled | Expired | CleanupPending

  /** What the provider reports about a stored object. */
  datatype Object = Object(version: Option<nat>, etag: Option<nat>, checksum: Option<nat>)

  datatype Row = Row(
    size: nat,
    status: Status,
    expiresAt: int,
    capability: Option<nat>,
    leaseToken: Option<nat>,
    leaseExpiresAt: Option<int>,
    writeStarted: bool,
    completionStarted: bool,
    providerDeadline: Option<int>,
    sessionId: Option<nat>,
    version: Option<nat>,
    etag: Option<nat>,
    checksum: Option<nat>,
    cleanupAfter: Option<int>,
    cleanupToken: Option<nat>,
    cleanupLeaseExpiresAt: Option<int>,
    published: bool
  )

  predicate Idle(status: Status) {
    status.Reserved? || status.Receiving? || status.Staged?
  }

  predicate Finished(status: Status) {
    status.Cancelled? || status.Expired?
  }

  /** The CHECK constraints of the table that relate the columns modelled here. */
  predicate TableChecks(r: Row) {
    && (r.capability.Some? ==> r.status.Reserved? || r.status.Receiving?)
    && (r.status.Reserved? ==> r.capability.Some?)
    && (r.leaseToken.None? <==> r.leaseExpiresAt.None?)
    && (r.status.Receiving? <==> r.leaseToken.Some?)
    && (r.cleanupToken.None? <==> r.cleanupLeaseExpiresAt.None?)
    && (r.cleanupToken.Some? ==> r.status.CleanupPending?)
    && (r.status.CleanupPending? ==> r.cleanupAfter.Some?)
    && (r.status.Committed? <==> r.published)
    && (r.status.Staged? || r.status.Committed? ==> r.writeStarted && r.completionStarted && r.checksum.Some?)
    && (r.status.Reserved? ==> !r.writeStarted)
    && (r.completionStarted ==> r.writeStarted)
    && (r.writeStarted ==> r.providerDeadline.Some?)
    && (Finished(r.status) ==> !r.writeStarted)
  }

  /** A pre-provider receiver still holds the capability it may have to return to. */
  predicate RowInv(r: Row) {
    && TableChecks(r)
    && (r.status.Receiving? && !r.writeStarted ==> r.capability.Some?)
    && (r.status.CleanupPending? ==> r.writeStarted)
    && (r.sessionId.Some? ==> r.writeStarted || Finished(r.status))
  }

  function NewRow(size: nat, capability: nat, expiresAt: int): Row {
    Row(size, Reserved, expiresAt, Some(capability), None, None, false, false, None,
        None, None, None, None, None, None, None, false)
  }

  // ---- API side ----------------------------------------------------------

  /** The earliest time a cleanup worker may look at a quarantined row. */
  function CleanupDeadline(r: Row, now: int): (t: int)
    ensures t >= now + FENCE
    ensures r.providerDeadline.Some? ==> t >= r.providerDeadline.value + FENCE
    ensures r.leaseExpiresAt.Some? ==> t >= r.leaseExpiresAt.value + FENCE
  {
    Max(Max(r.leaseExpiresAt.GetOr(now), now), r.providerDeadline.GetOr(now)) + FENCE
  }

  function Quarantined(r: Row, after: int): Row {
    r.(status := CleanupPending, capability := None, leaseToken := None, leaseExpiresAt := None,
       cleanupAfter := Some(after))
  }

  function Closed(r: Row, status: Status): Row {
    r.(status := status, capability := None, leaseToken := None, leaseExpiresAt := None, cleanupAfter := None)
  }

  /** Expires an idle row in passing, inside some other transaction. */
  function Expire(r: Row, now: int): Row {
    if r.expiresAt > now || !Idle(r.status) then r
    else if r.writeStarted then Quarantined(r, CleanupDeadline(r, now))
    else Closed(r, Expired)
  }

  function RotateCapability(r: Row, now: int, capability: nat): Row {
    var e := Expire(r, now);
    if e.status.Reserved? then e.(capability := Some(capability)) else e
  }

  function ClaimTransfer(r: Row, now: int, capability: nat, leaseSeconds: int, token: nat): Option<Row> {
    if !(1 <= leaseSeconds <= 86_400) || r.capability != Some(capability) then None
    else
      var e := Expire(r, now);
      var deadline := now + leaseSeconds * 1_000;
      if !e.status.Reserved? || deadline > e.expiresAt then None
      else Some(e.(status := Receiving, leaseToken := Some(token), leaseExpiresAt := Some(deadline)))
  }

  /** The writer's compare-and-set: exact live lease on an unexpired receiving row. */
  predicate IsWriter(r: Row, token: nat, leaseExpiresAt: int, now: int) {
    && r.status.Receiving?
    && r.leaseToken == Some(token)
    && r.leaseExpiresAt == Some(leaseExpiresAt)
    && leaseExpiresAt > now
    && r.expiresAt > now
  }

  /** The durable mark before every provider mutation; `completing` before a PUT or assembly. */
  function BeforeMutation(
    r: Row, token: nat, leaseExpiresAt: int, now: int, timeout: nat, completing: bool): Option<Row>
  {
    if !IsWriter(r, token, leaseExpiresAt, now) then None
    else Some(r.(writeStarted := true, completionStarted := r.completionStarted || completing,
                 capability := None, providerDeadline := Some(now + timeout)))
  }

  function RecordMultipart(r: Row, token: nat, leaseExpiresAt: int, now: int, id: nat): Option<Row> {
    if !IsWriter(r, token, leaseExpiresAt, now) then None
    else if !r.writeStarted || (r.sessionId.Some? && r.sessionId.value != id) then None
    else Some(r.(sessionId := Some(id)))
  }

  function CompleteTransfer(r: Row, token: nat, leaseExpiresAt: int, now: int, stored: Object): Option<Row> {
    if !IsWriter(r, token, leaseExpiresAt, now) then None
    else if stored.checksum.None? || !r.writeStarted || !r.completionStarted then None
    else Some(r.(status := Staged, capability := None, leaseToken := None, leaseExpiresAt := None,
                 version := stored.version, etag := stored.etag, checksum := stored.checksum))
  }

  function Coalesce<T>(first: Option<T>, second: Option<T>): Option<T> {
    if first.Some? then first else second
  }

  function FailTransfer(
    r: Row, token: nat, now: int, timeout: nat, session: Option<nat>, stored: Option<Object>): Option<Row>
  {
    if !r.status.Receiving? || r.leaseToken != Some(token) then Some(r)
    else if session.Some? && r.sessionId.Some? && r.sessionId != session then None
    else if r.writeStarted || session.Some? || stored.Some? then
      var deadline := r.providerDeadline.GetOr(now + timeout);
      var q := Quarantined(r, CleanupDeadline(r, Max(now, deadline)));
      Some(q.(writeStarted := true,
              completionStarted := r.completionStarted || stored.Some?,
              providerDeadline := Some(deadline),
              sessionId := Coalesce(session, r.sessionId),
              version := if stored.Some? then Coalesce(stored.value.version, r.version) else r.version,
              etag := if stored.Some? then Coalesce(stored.value.etag, r.etag) else r.etag))
    else if r.expiresAt > now then
      Some(r.(status := Reserved, leaseToken := None, leaseExpiresAt := None))
    else
      Some(r.(status := Expired, capability := None, leaseToken := None, leaseExpiresAt := None))
  }

  function StoredObject(r: Row): Object {
    Object(r.version, r.etag, r.checksum)
  }

  /** A repeated commit of a published upload succeeds and changes nothing. */
  function Commit(r: Row, now: int, stored: Object): Option<Row> {
    var e := Expire(r, now);
    if e.status.Committed? then Some(e)
    else if !e.status.Staged? || StoredObject(e) != stored then None
    else Some(e.(status := Committed, published := true))
  }

  function Cancel(r: Row, now: int): Row {
    var e := Expire(r, now);
    if !Idle(e.status) then e
    else if e.writeStarted then Quarantined(e, CleanupDeadline(e, now))
    else Closed(e, Cancelled)
  }

  // ---- cleanup worker side ----------------------------------------------

  function Sweep(r: Row, now: int): Row {
    if (Idle(r.status) && r.expiresAt <= now)
       || (r.status.Receiving? && r.leaseExpiresAt.Some? && r.leaseExpiresAt.value <= now)
    then
      if r.writeStarted then
        var lease := if r.leaseExpiresAt.Some? then r.leaseExpiresAt.value + FENCE else now;
        var deadline := if r.providerDeadline.Some? then r.providerDeadline.value + FENCE else now;
        Quarantined(r, Max(now, Max(lease, deadline)))
      else Closed(r, Expired)
    else r
  }

  function ClaimCleanup(r: Row, now: int, token: nat, leaseMillis: nat): Option<Row> {
    if r.status.CleanupPending? && r.cleanupAfter.Some? && r.cleanupAfter.value <= now
       && (r.cleanupToken.None? || (r.cleanupLeaseExpiresAt.Some? && r.cleanupLeaseExpiresAt.value <= now))
    then Some(r.(cleanupToken := Some(token), cleanupLeaseExpiresAt := Some(now + leaseMillis)))
    else None
  }

  predicate OwnsClaim(r: Row, token: nat, now: int) {
    && r.status.CleanupPending?
    && r.cleanupToken == Some(token)
    && r.cleanupLeaseExpiresAt.Some?
    && r.cleanupLeaseExpiresAt.value > now
  }

  function RecordSession(r: Row, token: nat, now: int, id: nat): Option<Row> {
    if OwnsClaim(r, token, now) && r.sessionId.None? then Some(r.(sessionId := Some(id))) else None
  }

  function RecordVersion(r: Row, token: nat, now: int, seen: Object): Option<Row> {
    if OwnsClaim(r, token, now) && (r.version.None? || r.version == seen.version)
    then Some(r.(version := Coalesce(r.version, seen.version), etag := Coalesce(r.etag, seen.etag)))
    else None
  }

  function Finish(r: Row, token: nat, now: int): Option<Row> {
    if OwnsClaim(r, token, now) then
      Some(Closed(r, if r.expiresAt <= now then Expired else Cancelled)
           .(writeStarted := false, completionStarted := false, cleanupToken := None, cleanupLeaseExpiresAt := None))
    else None
  }

  function Reschedule(r: Row, token: nat, now: int, delay: nat): Row {
    if r.status.CleanupPending? && r.cleanupToken == Some(token)
    then r.(cleanupToken := None, cleanupLeaseExpiresAt := None, cleanupAfter := Some(now + delay))
    else r
  }
}
