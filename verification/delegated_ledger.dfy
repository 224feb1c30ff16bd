/**
 * The stored row itself: columns updated in place by guarded UPDATE statements.
 * Each method is one transaction and makes the change its row function specifies.
 * `DelegatedSafety` proves what those functions keep in every run, and in
 * `DelegatedWorker` every step of a run goes through these methods.
 */
module DelegatedLedger {
  import opened Wrappers
  import opened DelegatedRow

  class UploadRecord {
    const size: nat
    const expiresAt: int
    var status: Status
    var capability: Option<nat>
    var leaseToken: Option<nat>
    var leaseExpiresAt: Option<int>
    var writeStarted: bool
    var completionStarted: bool
    var providerDeadline: Option<int>
    var sessionId: Option<nat>
    var version: Option<nat>
    var etag: Option<nat>
    var checksum: Option<nat>
    var cleanupAfter: Option<int>
    var cleanupToken: Option<nat>
    var cleanupLeaseExpiresAt: Option<int>
    var published: bool

    function View(): Row
      reads this
    {
      Row(size, status, expiresAt, capability, leaseToken, leaseExpiresAt, writeStarted, completionStarted,
          providerDeadline, sessionId, version, etag, checksum, cleanupAfter, cleanupToken,
          cleanupLeaseExpiresAt, published)
    }

    ghost predicate Valid()
      reads this
    {
      RowInv(View())
    }

    constructor (size: nat, capability: nat, expiresAt: int)
      ensures View() == NewRow(size, capability, expiresAt) && Valid()
    {
      this.size := size;
      this.expiresAt := expiresAt;
      status, published := Reserved, false;
      this.capability, leaseToken, leaseExpiresAt := Some(capability), None, None;
      writeStarted, completionStarted, providerDeadline := false, false, None;
      sessionId, version, etag, checksum := None, None, None, None;
      cleanupAfter, cleanupToken, cleanupLeaseExpiresAt := None, None, None;
    }

    /** A stored row, as a transaction finds it. */
    constructor Load(r: Row)
      requires RowInv(r)
      ensures View() == r && Valid()
    {
      size, expiresAt, status, published := r.size, r.expiresAt, r.status, r.published;
      capability, leaseToken, leaseExpiresAt := r.capability, r.leaseToken, r.leaseExpiresAt;
      writeStarted, completionStarted, providerDeadline := r.writeStarted, r.completionStarted, r.providerDeadline;
      sessionId, version, etag, checksum := r.sessionId, r.version, r.etag, r.checksum;
      cleanupAfter, cleanupToken, cleanupLeaseExpiresAt := r.cleanupAfter, r.cleanupToken, r.cleanupLeaseExpiresAt;
    }

    /** Clears what only an idle row may hold. */
    method LeaveIdle(next: Status)
      modifies this`status, this`capability, this`leaseToken, this`leaseExpiresAt
      ensures status == next && capability.None? && leaseToken.None? && leaseExpiresAt.None?
    {
      status, capability, leaseToken, leaseExpiresAt := next, None, None, None;
    }

    /** Keeps the row for cleanup, no earlier than its lease, its deadline and `now`, plus the fence. */
    method Quarantine(now: int)
      modifies this`status, this`capability, this`leaseToken, this`leaseExpiresAt, this`cleanupAfter
      ensures View() == Quarantined(old(View()), CleanupDeadline(old(View()), now))
    {
      cleanupAfter := Some(Max(Max(leaseExpiresAt.GetOr(now), now), providerDeadline.GetOr(now)) + FENCE);
      LeaveIdle(CleanupPending);
    }

    method Expire(now: int)
      requires Valid()
      modifies this
      ensures Valid() && View() == DelegatedRow.Expire(old(View()), now)
    {
      if expiresAt > now || !Idle(status) {
        return;
      }
      if writeStarted {
        Quarantine(now);
      } else {
        LeaveIdle(Expired);
        cleanupAfter := None;
      }
    }

    /** A retry of the reservation may replace the capability of an idle one. */
    method Reserve(now: int, replacement: nat)
      requires Valid()
      modifies this
      ensures Valid() && View() == RotateCapability(old(View()), now, replacement)
    {
      Expire(now);
      if status.Reserved? {
        capability := Some(replacement);
      }
    }

    /** `false` is an error, and an error rolls the whole transaction back. */
    method ClaimTransfer(now: int, presented: nat, leaseSeconds: int, token: nat) returns (claimed: bool)
      requires Valid()
      modifies this
      ensures Valid()
      ensures
        match DelegatedRow.ClaimTransfer(old(View()), now, presented, leaseSeconds, token)
        case Some(r) => claimed && View() == r
        case None => !claimed && View() == old(View())
    {
      var deadline := now + leaseSeconds * 1_000;
      if !(1 <= leaseSeconds <= 86_400) || capability != Some(presented) || expiresAt <= now
         || !status.Reserved? || deadline > expiresAt
      {
        return false;
      }
      status, leaseToken, leaseExpiresAt := Receiving, Some(token), Some(deadline);
      return true;
    }

    method BeforeMutation(token: nat, lease: int, now: int, timeout: nat, completing: bool) returns (ok: bool)
      requires Valid()
      modifies this
      ensures Valid()
      ensures
        match DelegatedRow.BeforeMutation(old(View()), token, lease, now, timeout, completing)
        case Some(r) => ok && View() == r
        case None => !ok && View() == old(View())
    {
      ok := IsWriter(View(), token, lease, now);
      if ok {
        writeStarted, capability, providerDeadline := true, None, Some(now + timeout);
        if completing {
          completionStarted := true;
        }
      }
    }

    method RecordMultipart(token: nat, lease: int, now: int, id: nat) returns (ok: bool)
      requires Valid()
      modifies this
      ensures Valid()
      ensures
        match DelegatedRow.RecordMultipart(old(View()), token, lease, now, id)
        case Some(r) => ok && View() == r
        case None => !ok && View() == old(View())
    {
      ok := IsWriter(View(), token, lease, now) && writeStarted && (sessionId.None? || sessionId.value == id);
      if ok {
        sessionId := Some(id);
      }
    }

    method CompleteTransfer(token: nat, lease: int, now: int, stored: Object) returns (ok: bool)
      requires Valid()
      modifies this
      ensures Valid()
      ensures
        match DelegatedRow.CompleteTransfer(old(View()), token, lease, now, stored)
        case Some(r) => ok && View() == r
        case None => !ok && View() == old(View())
    {
      ok := IsWriter(View(), token, lease, now) && stored.checksum.Some? && writeStarted && completionStarted;
      if ok {
        LeaveIdle(Staged);
        version, etag, checksum := stored.version, stored.etag, stored.checksum;
      }
    }

    /** What a dropped writer knew about the provider survives with the row. */
    method KeepEvidence(deadline: int, session: Option<nat>, stored: Option<Object>)
      modifies this`writeStarted, this`completionStarted, this`providerDeadline, this`sessionId, this`version, this`etag
      ensures writeStarted && providerDeadline == Some(deadline)
      ensures completionStarted == (old(completionStarted) || stored.Some?)
      ensures sessionId == Coalesce(session, old(sessionId))
      ensures version == if stored.Some? then Coalesce(stored.value.version, old(version)) else old(version)
      ensures etag == if stored.Some? then Coalesce(stored.value.etag, old(etag)) else old(etag)
    {
      writeStarted, providerDeadline := true, Some(deadline);
      if session.Some? {
        sessionId := session;
      }
      if stored.Some? {
        completionStarted := true;
        version, etag := Coalesce(stored.value.version, version), Coalesce(stored.value.etag, etag);
      }
    }

    method FailTransfer(token: nat, now: int, timeout: nat, session: Option<nat>, stored: Option<Object>)
      returns (ok: bool)
      requires Valid()
      modifies this
      ensures Valid()
      ensures
        match DelegatedRow.FailTransfer(old(View()), token, now, timeout, session, stored)
        case Some(r) => ok && View() == r
        case None => !ok && View() == old(View())
    {
      if !status.Receiving? || leaseToken != Some(token) {
        return true;
      }
      if session.Some? && sessionId.Some? && sessionId != session {
        return false;
      }
      if writeStarted || session.Some? || stored.Some? {
        var deadline := providerDeadline.GetOr(now + timeout);
        Quarantine(Max(now, deadline));
        KeepEvidence(deadline, session, stored);
      } else if expiresAt > now {
        status, leaseToken, leaseExpiresAt := Reserved, None, None;
      } else {
        LeaveIdle(Expired);
      }
      return true;
    }

    method Commit(now: int, stored: Object) returns (ok: bool)
      requires Valid()
      modifies this
      ensures Valid()
      ensures
        match DelegatedRow.Commit(old(View()), now, stored)
        case Some(r) => ok && View() == r
        case None => !ok && View() == old(View())
    {
      if status.Committed? {
        return true;
      }
      ok := status.Staged? && expiresAt > now && Object(version, etag, checksum) == stored;
      if ok {
        status, published := Committed, true;
      }
    }

    method Cancel(now: int)
      requires Valid()
      modifies this
      ensures Valid() && View() == DelegatedRow.Cancel(old(View()), now)
    {
      Expire(now);
      if Idle(status) {
        if writeStarted {
          Quarantine(now);
        } else {
          LeaveIdle(Cancelled);
          cleanupAfter := None;
        }
      }
    }

    // ---- cleanup worker --------------------------------------------------

    method Sweep(now: int)
      requires Valid()
      modifies this
      ensures Valid() && View() == DelegatedRow.Sweep(old(View()), now)
    {
      if (Idle(status) && expiresAt <= now)
         || (status.Receiving? && leaseExpiresAt.Some? && leaseExpiresAt.value <= now)
      {
        if writeStarted {
          var after := now;
          if leaseExpiresAt.Some? {
            after := Max(after, leaseExpiresAt.value + FENCE);
          }
          if providerDeadline.Some? {
            after := Max(after, providerDeadline.value + FENCE);
          }
          LeaveIdle(CleanupPending);
          cleanupAfter := Some(after);
        } else {
          LeaveIdle(Expired);
          cleanupAfter := None;
        }
      }
    }

    method ClaimCleanup(now: int, token: nat, leaseMillis: nat) returns (claimed: bool)
      requires Valid()
      modifies this
      ensures Valid()
      ensures
        match DelegatedRow.ClaimCleanup(old(View()), now, token, leaseMillis)
        case Some(r) => claimed && View() == r
        case None => !claimed && View() == old(View())
    {
      claimed := status.CleanupPending? && cleanupAfter.Some? && cleanupAfter.value <= now
                 && (cleanupToken.None? || (cleanupLeaseExpiresAt.Some? && cleanupLeaseExpiresAt.value <= now));
      if claimed {
        cleanupToken, cleanupLeaseExpiresAt := Some(token), Some(now + leaseMillis);
      }
    }

    method RecordSession(token: nat, now: int, id: nat) returns (recorded: bool)
      requires Valid()
      modifies this
      ensures Valid()
      ensures
        match DelegatedRow.RecordSession(old(View()), token, now, id)
        case Some(r) => recorded && View() == r
        case None => !recorded && View() == old(View())
    {
      recorded := OwnsClaim(View(), token, now) && sessionId.None?;
      if recorded {
        sessionId := Some(id);
      }
    }

    method RecordVersion(token: nat, now: int, seen: Object) returns (recorded: bool)
      requires Valid()
      modifies this
      ensures Valid()
      ensures
        match DelegatedRow.RecordVersion(old(View()), token, now, seen)
        case Some(r) => recorded && View() == r
        case None => !recorded && View() == old(View())
    {
      recorded := OwnsClaim(View(), token, now) && (version.None? || version == seen.version);
      if recorded {
        version, etag := Coalesce(version, seen.version), Coalesce(etag, seen.etag);
      }
    }

    method Finish(token: nat, now: int) returns (finished: bool)
      requires Valid()
      modifies this
      ensures Valid()
      ensures
        match DelegatedRow.Finish(old(View()), token, now)
        case Some(r) => finished && View() == r
        case None => !finished && View() == old(View())
    {
      finished := OwnsClaim(View(), token, now);
      if finished {
        LeaveIdle(if expiresAt <= now then Expired else Cancelled);
        writeStarted, completionStarted := false, false;
        cleanupToken, cleanupLeaseExpiresAt, cleanupAfter := None, None, None;
      }
    }

    method Reschedule(token: nat, now: int, delay: nat)
      requires Valid()
      modifies this
      ensures Valid() && View() == DelegatedRow.Reschedule(old(View()), token, now, delay)
    {
      if status.CleanupPending? && cleanupToken == Some(token) {
        cleanupToken, cleanupLeaseExpiresAt, cleanupAfter := None, None, Some(now + delay);
      }
    }
  }
}
