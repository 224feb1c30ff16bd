/** The safety theorems of the delegated-upload protocol, over every run. */
module DelegatedTheorems {
  import opened Wrappers
  import opened DelegatedRow
  import opened DelegatedProtocol
  import opened DelegatedSafety

  lemma {:induction false} RunInv(s: State, steps: seq<Step>)
    requires Inv(s)
    ensures Inv(Run(s, steps))
    decreases |steps|
  {
    hide Inv, Next;
    if steps != [] {
      NextInv(s, steps[0]);
      RunInv(Next(s, steps[0]), steps[1..]);
    }
  }

  ghost predicate Reachable(s: State) {
    exists now: int, timeout: nat, size: nat, capability: nat, expiresAt: int, steps: seq<Step> ::
      s == Run(Init(now, timeout, size, capability, expiresAt), steps)
  }

  lemma ReachableInv(s: State)
    requires Reachable(s)
    ensures Inv(s)
  {
    hide Inv, Run, Init;
    var now: int, timeout: nat, size: nat, capability: nat, expiresAt: int, steps: seq<Step> :|
      s == Run(Init(now, timeout, size, capability, expiresAt), steps);
    InitInv(now, timeout, size, capability, expiresAt);
    RunInv(Init(now, timeout, size, capability, expiresAt), steps);
  }

  // ---- quarantine --------------------------------------------------------

  predicate Quarantine(status: Status) {
    status.CleanupPending? || Finished(status)
  }

  /** What one step may do to the row of a quarantined upload. */
  ghost predicate KeepsQuarantine(before: Row, after: Row) {
    Quarantine(after.status) && (Finished(before.status) ==> after == before)
  }

  /** The one UPDATE, if any, behind a worker's step. */
  lemma WorkersUpdate(s: State, t: nat, answered: bool, applied: bool, pick: nat, delay: nat)
    ensures WorkStep(s, t, answered, applied, pick, delay).row ==
            if t !in s.workers then s.row else match s.workers[t].phase
            case Recording(id, _) => RecordSession(s.row, t, s.now, id).GetOr(s.row)
            case Versioning(seen) => RecordVersion(s.row, t, s.now, seen).GetOr(s.row)
            case Finishing => Finish(s.row, t, s.now).GetOr(s.row)
            case Deferred => Reschedule(s.row, t, s.now, delay)
            case _ => s.row
  {
    hide Head, Abort, Delete, EvidenceKnown, MustList, JobIds,
         RecordSession, RecordVersion, Finish, Reschedule, DelegatedRow.OwnsClaim;
  }

  lemma WorkKeepsQuarantine(s: State, t: nat, answered: bool, applied: bool, pick: nat, delay: nat)
    requires Quarantine(s.row.status)
    ensures KeepsQuarantine(s.row, WorkStep(s, t, answered, applied, pick, delay).row)
  {
    hide WorkStep;
    WorkersUpdate(s, t, answered, applied, pick, delay);
  }

  /** A finished row stays as it is; a quarantined one never becomes publishable again. */
  lemma QuarantineStep(s: State, step: Step)
    requires Quarantine(s.row.status)
    ensures KeepsQuarantine(s.row, Next(s, step).row)
  {
    if step.Work? {
      WorkKeepsQuarantine(s, step.worker, step.answered, step.applied, step.pick, step.delay);
    }
  }

  lemma {:induction false} QuarantineIsForever(s: State, steps: seq<Step>)
    requires Quarantine(s.row.status)
    ensures Quarantine(Run(s, steps).row.status)
    ensures Finished(s.row.status) ==> Run(s, steps).row == s.row
    decreases |steps|
  {
    hide Next;
    if steps != [] {
      QuarantineStep(s, steps[0]);
      QuarantineIsForever(Next(s, steps[0]), steps[1..]);
    }
  }

  /**
   * A row that is cancelled or expired has nothing at the provider, no call of its
   * writer can still take effect, and that holds in everything that follows.
   */
  lemma FinishedMeansEmpty(s: State, later: seq<Step>)
    requires Reachable(s) && Finished(s.row.status)
    ensures Empty(s.provider)
    ensures forall c <- s.calls :: !MayLand(s, c)
    ensures Finished(Run(s, later).row.status) && Empty(Run(s, later).provider)
  {
    ReachableInv(s);
    QuarantineIsForever(s, later);
    RunInv(s, later);
    assert s.wrote.Some? ==> forall c <- s.calls :: CallOk(s, c);
  }

  // ---- publication -------------------------------------------------------

  lemma WorkKeepsCommitted(s: State, t: nat, answered: bool, applied: bool, pick: nat, delay: nat)
    requires s.row.status.Committed? && s.workers == map[]
    ensures WorkStep(s, t, answered, applied, pick, delay) == s
  {
  }

  /** After publication nothing is in flight and no cleanup worker has claimed the row. */
  lemma CommittedIsQuiet(s: State)
    requires Inv(s) && s.row.status.Committed?
    ensures s.workers == map[] && s.calls == {} && s.removals == {}
    ensures s.provider.objects == [StoredObject(s.row)]
  {
    hide InvWriters, InvWorkers;
    assert s.workers == map[];
    assert forall c <- s.calls :: CallOk(s, c);
  }

  /** No step touches a committed row or the object it published. */
  lemma CommittedStep(s: State, step: Step)
    requires Inv(s) && s.row.status.Committed?
    ensures Next(s, step).row == s.row
    ensures Next(s, step).provider.objects == s.provider.objects == [StoredObject(s.row)]
  {
    hide Inv, WorkStep;
    CommittedIsQuiet(s);
    if step.Work? {
      WorkKeepsCommitted(s, step.worker, step.answered, step.applied, step.pick, step.delay);
    }
  }

  /** In every run, a committed object was confirmed by HEAD, is there, and stays there. */
  lemma {:induction false} CommittedForever(s: State, later: seq<Step>)
    requires Inv(s) && s.row.status.Committed?
    ensures Run(s, later).row == s.row
    ensures Run(s, later).provider.objects == [StoredObject(s.row)]
    ensures StoredObject(s.row) in s.confirmed
    decreases |later|
  {
    if later != [] {
      NextInv(s, later[0]);
      CommittedStep(s, later[0]);
      CommittedForever(Next(s, later[0]), later[1..]);
    } else {
      CommittedStep(s, Tick(0));
    }
  }

  lemma PublishedObjectIsNeverTouched(s: State, later: seq<Step>)
    requires Reachable(s) && s.row.status.Committed?
    ensures Run(s, later).row == s.row
    ensures Run(s, later).provider.objects == [StoredObject(s.row)]
    ensures StoredObject(s.row) in s.confirmed
    ensures s.workers == map[]
  {
    ReachableInv(s);
    CommittedForever(s, later);
  }

  /**
   * Whatever happens after a commit was applied, repeating it at any time, with whatever
   * evidence, succeeds and changes nothing: a commit whose reply was lost can be retried.
   */
  lemma CommitCanBeRepeated(s: State, obj: Object, later: seq<Step>, now: int, again: Object)
    requires Reachable(s) && Next(s, Publish(obj)).row.status.Committed?
    ensures var n := Next(s, Publish(obj));
            Run(n, later).row == n.row && Commit(Run(n, later).row, now, again) == Some(n.row)
  {
    var n := Next(s, Publish(obj));
    assert Reachable(n) by {
      hide Next;
      ReachableNext(s, Publish(obj));
    }
    PublishedObjectIsNeverTouched(n, later);
  }

  // ---- before any write --------------------------------------------------

  /**
   * A transfer that fails before any provider write gives its reservation back: claimed
   * with the same capability, abandoned after any time short of expiry, and recorded as
   * failed, the row is what it was, and can be claimed again.
   */
  lemma FailedClaimIsUndone(s: State, capability: nat, leaseSeconds: int, elapsed: nat)
    requires Inv(s) && ClaimTransfer(s.row, s.now, capability, leaseSeconds, s.counter).Some?
    requires s.now + elapsed < s.row.expiresAt
    ensures var steps := [Transfer(capability, leaseSeconds), Tick(elapsed), Abandon(s.counter), Fail(s.counter)];
            Run(s, steps).row == s.row && Run(s, steps).now == s.now + elapsed
  {
    hide Inv, Run;
    var t := s.counter;
    var s1 := Next(s, Transfer(capability, leaseSeconds));
    ClaimedRow(s, capability, leaseSeconds);
    var s2 := Next(s1, Tick(elapsed));
    var s3 := Next(s2, Abandon(t));
    RunFour(s, Transfer(capability, leaseSeconds), Tick(elapsed), Abandon(t), Fail(t));
  }

  lemma ClaimedRow(s: State, capability: nat, leaseSeconds: int)
    requires Inv(s) && ClaimTransfer(s.row, s.now, capability, leaseSeconds, s.counter).Some?
    ensures s.row.status.Reserved? && !s.row.writeStarted && s.row.leaseToken.None? && s.row.leaseExpiresAt.None?
    ensures var n := Next(s, Transfer(capability, leaseSeconds));
            && n.row == s.row.(status := Receiving, leaseToken := Some(s.counter),
                               leaseExpiresAt := Some(s.now + leaseSeconds * 1_000))
            && s.counter in n.writers && n.writers[s.counter].session.None? && n.writers[s.counter].stored.None?
            && n.writers[s.counter].phase.Ready? && n.now == s.now
  {
    hide InvHistory, InvCalls, InvProvider, InvEvidence, InvQuarantine, InvWriters, InvWorkers, InvRemovals;
  }

  lemma RunFour(s: State, a: Step, b: Step, c: Step, d: Step)
    ensures Run(s, [a, b, c, d]) == Next(Next(Next(Next(s, a), b), c), d)
  {
    hide Next;
    assert [a, b, c, d][1..] == [b, c, d] && [b, c, d][1..] == [c, d] && [c, d][1..] == [d] && [d][1..] == [];
    assert Run(s, [a, b, c, d]) == Run(Next(s, a), [b, c, d]);
    assert Run(Next(s, a), [b, c, d]) == Run(Next(Next(s, a), b), [c, d]);
    assert Run(Next(Next(s, a), b), [c, d]) == Run(Next(Next(Next(s, a), b), c), [d]);
  }

  /** After a retried reservation its new capability claims, within the bounds of a lease, and no other does. */
  lemma NewCapabilityClaims(s: State, capability: nat, presented: nat, leaseSeconds: int)
    requires s.row.status.Reserved? && s.row.expiresAt > s.now
    ensures var n := Next(s, Reserve(capability));
            ClaimTransfer(n.row, n.now, presented, leaseSeconds, n.counter).Some? <==>
            && presented == capability && 1 <= leaseSeconds <= 86_400
            && s.now + leaseSeconds * 1_000 <= s.row.expiresAt
  {
  }

  // ---- durable marks -----------------------------------------------------

  /** A call that can still change the provider, now or later. */
  predicate Alive(s: State, c: Call) {
    c in s.calls && (Publishes(c.kind) || s.now <= c.deadline + FENCE)
  }

  /**
   * Provider bytes, or a call that may still make some, imply the write mark; an
   * object, or a PUT or assembly in flight, implies the completion mark.
   */
  lemma MarksPrecedeEffects(s: State)
    requires Reachable(s)
    ensures !Empty(s.provider) || (exists c <- s.calls :: Alive(s, c)) ==> s.row.writeStarted
    ensures s.provider.objects != [] || (exists c <- s.calls :: Publishes(c.kind)) ==> s.row.completionStarted
  {
    ReachableInv(s);
    assert forall c <- s.calls :: CallOk(s, c);
  }

  /** Cleanup workers leave a row that is not in quarantine alone. */
  lemma WorkNeedsQuarantine(s: State, t: nat, answered: bool, applied: bool, pick: nat, delay: nat)
    requires !s.row.status.CleanupPending?
    ensures WorkStep(s, t, answered, applied, pick, delay).row == s.row
  {
    hide WorkStep;
    WorkersUpdate(s, t, answered, applied, pick, delay);
  }

  /** A row ends without quarantine only when no provider write was ever begun. */
  lemma DirectEndIsUnwritten(s: State, step: Step)
    requires !Quarantine(s.row.status) && Finished(Next(s, step).row.status)
    ensures !s.row.writeStarted && Next(s, step).provider == s.provider
  {
    hide WorkStep;
    if step.Work? {
      WorkNeedsQuarantine(s, step.worker, step.answered, step.applied, step.pick, step.delay);
    }
  }

  /** The sweep's direct branch to expired, and the cancellation that skips quarantine, lose no bytes. */
  lemma DirectEndLosesNothing(s: State, step: Step)
    requires Reachable(s) && !Quarantine(s.row.status) && Finished(Next(s, step).row.status)
    ensures Empty(s.provider) && s.calls == {}
    ensures Next(s, step).provider == s.provider
  {
    hide Next, Reachable;
    ReachableInv(s);
    DirectEndIsUnwritten(s, step);
  }

  /** Every row the program ever writes satisfies the table's CHECK constraints. */
  lemma ChecksAlwaysHold(s: State)
    requires Reachable(s)
    ensures TableChecks(s.row)
  {
    ReachableInv(s);
  }

  /** One key, one attempt: never two calls in flight, never a second object or session. */
  lemma OneProviderWrite(s: State)
    requires Reachable(s)
    ensures |s.calls| <= 1 && |s.provider.objects| <= 1 && |s.provider.sessions| <= 1
  {
    ReachableInv(s);
    if s.calls != {} {
      var c :| c in s.calls;
      assert s.calls == {c};
    }
    if s.provider.sessions != {} {
      assert s.provider.sessions == {s.created.value};
    }
  }

  // ---- a writer and its lease --------------------------------------------

  /** The upload is being received under this writer's own lease, and neither lease nor reservation is over. */
  predicate InLease(s: State, t: nat) {
    && t in s.writers && s.row.status == Receiving && s.row.leaseToken == Some(t)
    && s.row.leaseExpiresAt == Some(s.writers[t].leaseExpiresAt)
    && s.now < s.writers[t].leaseExpiresAt && s.now < s.row.expiresAt
  }

  /** Outside its lease a writer can neither announce a write, nor record a session, nor stage. */
  lemma LateWriterIsHarmless(s: State, t: nat, replied: bool, applied: bool, disarmed: bool)
    requires !InLease(s, t)
    ensures Next(s, Validate(t, replied)).row == s.row && Next(s, RecordId(t, replied)).row == s.row
    ensures Next(s, Stage(t, applied, disarmed)).row == s.row
    ensures t in s.writers && s.writers[t].phase.Validating? ==>
              !Next(s, Validate(t, replied)).writers[t].phase.Cleared?
  {
    hide BeforeMutation, RecordMultipart, CompleteTransfer;
    if t in s.writers {
      OutsideLease(s.row, t, s.writers[t].leaseExpiresAt, s.now);
      OutsideLeaseNothing(s, t);
    }
  }

  lemma OutsideLease(r: Row, t: nat, leaseExpiresAt: int, now: int)
    ensures IsWriter(r, t, leaseExpiresAt, now) <==>
            && r.status == Receiving && r.leaseToken == Some(t) && r.leaseExpiresAt == Some(leaseExpiresAt)
            && now < leaseExpiresAt && now < r.expiresAt
  {
  }

  lemma OutsideLeaseNothing(s: State, t: nat)
    requires t in s.writers && !IsWriter(s.row, t, s.writers[t].leaseExpiresAt, s.now)
    ensures var w := s.writers[t];
            && (w.phase.Validating? ==>
                  BeforeMutation(s.row, t, w.leaseExpiresAt, s.now, s.timeout, Publishes(w.phase.kind)).None?)
            && (w.phase.Created? ==> RecordMultipart(s.row, t, w.leaseExpiresAt, s.now, w.phase.id).None?)
            && (w.phase.Stored? ==> CompleteTransfer(s.row, t, w.leaseExpiresAt, s.now, w.phase.obj).None?)
  {
  }

  /** Within its lease it can: marks and deadline, the session, and the evidence are recorded as they should. */
  lemma LeaseHolderActs(s: State, t: nat)
    requires Reachable(s) && InLease(s, t)
    ensures
      var w := s.writers[t];
      && (w.phase.Validating? && w.phase.start < s.now ==>
            && Next(s, Validate(t, true)).writers[t].phase == Cleared(w.phase.kind, w.phase.start)
            && Next(s, Validate(t, true)).row ==
               s.row.(writeStarted := true, completionStarted := s.row.completionStarted || Publishes(w.phase.kind),
                      capability := None, providerDeadline := Some(s.now + s.timeout)))
      && (w.phase.Created? ==>
            && Next(s, RecordId(t, true)).writers[t].phase == Uploading(w.phase.id)
            && Next(s, RecordId(t, true)).row == s.row.(sessionId := Some(w.phase.id)))
      && (w.phase.Stored? && w.phase.obj.checksum.Some? ==>
            && Next(s, Stage(t, true, true)).writers[t].phase.Closed?
            && Next(s, Stage(t, true, true)).row ==
               s.row.(status := Staged, capability := None, leaseToken := None, leaseExpiresAt := None,
                      version := w.phase.obj.version, etag := w.phase.obj.etag, checksum := w.phase.obj.checksum))
  {
    hide Reachable, Inv;
    ReachableInv(s);
    HolderIsOk(s, t);
    OutsideLease(s.row, t, s.writers[t].leaseExpiresAt, s.now);
  }

  lemma HolderIsOk(s: State, t: nat)
    requires Inv(s) && InLease(s, t)
    ensures var w := s.writers[t];
            && (w.phase.Created? ==>
                  s.row.writeStarted && (s.row.sessionId.Some? ==> s.row.sessionId.value == w.phase.id))
            && (w.phase.Stored? ==> s.row.writeStarted && s.row.completionStarted)
  {
    hide RowInv, InvCalls, InvProvider, InvQuarantine, InvWorkers, InvRemovals;
  }

  // ---- stale workers -----------------------------------------------------

  /** A worker whose claim is gone can neither change the row nor end another's claim. */
  lemma StaleWorkerIsHarmless(s: State, t: nat, answered: bool, applied: bool, pick: nat, delay: nat)
    requires s.row.cleanupToken != Some(t)
    ensures WorkStep(s, t, answered, applied, pick, delay).row == s.row
  {
    hide WorkStep;
    WorkersUpdate(s, t, answered, applied, pick, delay);
  }

  /** The upload is in quarantine under this worker's own claim, and its lease is not over. */
  predicate InClaim(s: State, t: nat) {
    && s.row.status == CleanupPending && s.row.cleanupToken == Some(t)
    && s.row.cleanupLeaseExpiresAt.Some? && s.now < s.row.cleanupLeaseExpiresAt.value
  }

  /** Outside its claim a worker can at most give up what is left of it. */
  lemma LateWorkerIsHarmless(s: State, t: nat, answered: bool, applied: bool, pick: nat, delay: nat)
    requires !InClaim(s, t)
    ensures var n := WorkStep(s, t, answered, applied, pick, delay);
            n.row == s.row || (t in s.workers && s.workers[t].phase.Deferred? && n.row.cleanupToken.None?)
  {
    hide WorkStep;
    WorkersUpdate(s, t, answered, applied, pick, delay);
  }

  /** Within its claim it records the session and the evidence that are missing, and ends the row. */
  lemma ClaimHolderActs(s: State, t: nat)
    requires Reachable(s) && InClaim(s, t) && t in s.workers
    ensures
      var phase, row := s.workers[t].phase, WorkStep(s, t, true, true, 0, 0).row;
      && (phase.Recording? ==>
            row == if s.row.sessionId.None? then s.row.(sessionId := Some(phase.id)) else s.row)
      && (phase.Versioning? ==>
            row == if s.row.version.Some? && s.row.version != phase.seen.version then s.row
                   else s.row.(version := phase.seen.version,
                               etag := if s.row.etag.Some? then s.row.etag else phase.seen.etag))
      && (phase.Finishing? ==>
            row == s.row.(status := if s.now < s.row.expiresAt then Cancelled else Expired,
                          writeStarted := false, completionStarted := false,
                          cleanupAfter := None, cleanupToken := None, cleanupLeaseExpiresAt := None))
  {
    hide WorkStep, Reachable, Inv;
    ReachableInv(s);
    WorkersUpdate(s, t, true, true, 0, 0);
    PendingIsBare(s);
  }

  lemma PendingIsBare(s: State)
    requires Inv(s) && s.row.status.CleanupPending?
    ensures s.row.capability.None? && s.row.leaseToken.None? && s.row.leaseExpiresAt.None? && s.row.cleanupAfter.Some?
    ensures s.row.cleanupToken.Some? ==> s.row.cleanupLeaseExpiresAt.Some?
  {
    hide InvHistory, InvCalls, InvProvider, InvEvidence, InvWriters, InvWorkers, InvRemovals;
  }

  /** A quarantined row is claimed exactly when it is due and no worker's claim is live, and by a new worker. */
  lemma DueRowIsClaimed(s: State, leaseMillis: nat)
    requires Reachable(s) && s.row.status.CleanupPending?
    ensures s.row.cleanupAfter.Some?
    ensures var n := Next(s, ClaimJob(leaseMillis));
            if s.row.cleanupAfter.value <= s.now && !(s.row.cleanupToken.Some? && InClaim(s, s.row.cleanupToken.value))
            then n.row == s.row.(cleanupToken := Some(s.counter), cleanupLeaseExpiresAt := Some(s.now + leaseMillis))
                 && s.counter !in s.workers && s.counter in n.workers && n.workers[s.counter] == Worker(Starting, n.row)
            else n == s
  {
    hide Reachable, Inv;
    ReachableInv(s);
    PendingIsBare(s);
    CounterIsNew(s);
  }

  lemma CounterIsNew(s: State)
    requires Inv(s)
    ensures s.counter !in s.workers
  {
    hide RowInv, InvHistory, InvCalls, InvProvider, InvEvidence, InvWriters, InvQuarantine, InvRemovals;
  }

  /** `after` is `before`, or less of it. */
  ghost predicate OnlyRemoved(before: Provider, after: Provider) {
    && after.sessions <= before.sessions && after.parts <= before.parts
    && (after.objects == before.objects || after.objects == [])
  }

  /**
   * Whatever cleanup removes, at once or by an answer that never came, it removes from a
   * quarantined or finished upload; and it never adds anything.
   */
  lemma CleanupOnlyRemovesQuarantined(s: State, step: Step)
    requires Reachable(s) && (step.Work? || step.LandRemoval?)
    ensures OnlyRemoved(s.provider, Next(s, step).provider)
    ensures Next(s, step).provider != s.provider ==> Quarantine(s.row.status)
  {
    hide Reachable, Inv, OnlyRemoved;
    ReachableInv(s);
    WorkersMeanQuarantine(s);
    if step.Work? {
      RemovalIsSmall(s, step.worker, step.answered, step.applied, step.pick, step.delay);
    } else {
      LateRemovalIsSmall(s, step.removal);
    }
  }

  lemma WorkersMeanQuarantine(s: State)
    requires Inv(s)
    ensures s.workers != map[] || s.removals != {} ==> Quarantine(s.row.status)
  {
    hide RowInv, InvHistory, InvCalls, InvProvider, InvEvidence, InvWriters, InvWorkers;
  }

  lemma RemovalIsSmall(s: State, t: nat, answered: bool, applied: bool, pick: nat, delay: nat)
    requires Inv(s)
    ensures var after := WorkStep(s, t, answered, applied, pick, delay).provider;
            OnlyRemoved(s.provider, after) && (after != s.provider ==> s.workers != map[])
  {
    hide RowInv, InvHistory, InvCalls, InvEvidence, InvQuarantine, InvWriters, Head, EvidenceKnown, MustList, JobIds;
    if t in s.workers && s.workers[t].phase.Deleting? {
      DeleteInv(s, t);
    }
  }

  lemma LateRemovalIsSmall(s: State, removal: Removal)
    requires Inv(s)
    ensures var after := LandRemovalStep(s, removal).provider;
            OnlyRemoved(s.provider, after) && (after != s.provider ==> s.removals != {})
  {
    hide RowInv, InvHistory, InvCalls, InvEvidence, InvQuarantine, InvWriters;
    if removal in s.removals && removal.OfObject? {
      LateDeleteInv(s, removal.version);
    }
  }

  predicate AboutToRemove(s: State, t: nat) {
    t in s.workers && (s.workers[t].phase.Aborting? || s.workers[t].phase.Deleting?)
  }

  lemma RemovalFollowsOwnership(s: State, step: Step, t: nat)
    requires !AboutToRemove(s, t) && AboutToRemove(Next(s, step), t)
    ensures step.Work? && step.worker == t && InClaim(s, t)
  {
  }

  // ---- runs that exist ---------------------------------------------------

  lemma {:induction false} RunAppends(s: State, steps: seq<Step>, step: Step)
    ensures Run(s, steps + [step]) == Next(Run(s, steps), step)
    decreases |steps|
  {
    hide Next;
    if steps == [] {
      assert [step][1..] == [];
    } else {
      assert (steps + [step])[1..] == steps[1..] + [step];
      RunAppends(Next(s, steps[0]), steps[1..], step);
    }
  }

  lemma ReachableNext(s: State, step: Step)
    requires Reachable(s)
    ensures Reachable(Next(s, step))
  {
    hide Next, Init;
    var now: int, timeout: nat, size: nat, capability: nat, expiresAt: int, steps: seq<Step> :|
      s == Run(Init(now, timeout, size, capability, expiresAt), steps);
    RunAppends(Init(now, timeout, size, capability, expiresAt), steps, step);
  }

  lemma InitReachable(now: int, timeout: nat, size: nat, capability: nat, expiresAt: int)
    ensures Reachable(Init(now, timeout, size, capability, expiresAt))
  {
    hide Init;
    assert Run(Init(now, timeout, size, capability, expiresAt), []) == Init(now, timeout, size, capability, expiresAt);
  }

  /** A small upload whose writer holds its lease and has begun its budget. */
  lemma BegunPut() returns (s: State)
    ensures Reachable(s)
    ensures s.writers == map[0 := Writer(Validating(Put, 0), 3_600_000, None, None)]
    ensures s.calls == {} && Empty(s.provider) && !s.provider.marker && s.now == 1 && s.timeout == 1_000
    ensures s.row == NewRow(10, 7, 100_000_000)
                     .(status := Receiving, leaseToken := Some(0), leaseExpiresAt := Some(3_600_000))
    ensures s.wrote.None? && s.confirmed == {}
  {
    hide WorkStep, ValidateStep, LandStep, Inv;
    InitReachable(0, 1_000, 10, 7, 100_000_000);
    var s0 := Init(0, 1_000, 10, 7, 100_000_000);
    var s1 := Next(s0, Transfer(7, 3_600));
    ReachableNext(s0, Transfer(7, 3_600));
    var s2 := Next(s1, Begin(0, Put));
    ReachableNext(s1, Begin(0, Put));
    s := Next(s2, Tick(1));
    ReachableNext(s2, Tick(1));
  }

  /** Its compare-and-set passed and it holds a live budget. */
  lemma ClearedPut() returns (s: State)
    ensures Reachable(s)
    ensures s.writers == map[0 := Writer(Cleared(Put, 0), 3_600_000, None, None)]
    ensures s.calls == {} && Empty(s.provider) && !s.provider.marker && s.now == 1 && s.timeout == 1_000
    ensures s.row.status.Receiving? && s.row.leaseToken == Some(0) && s.row.writeStarted
    ensures s.row.providerDeadline == Some(1_001) && s.row.leaseExpiresAt == Some(3_600_000)
    ensures s.row.sessionId.None? && s.row.completionStarted && s.row.expiresAt == 100_000_000 && s.confirmed == {}
  {
    hide WorkStep, LandStep, Inv, Reachable;
    var s0 := BegunPut();
    s := Next(s0, Validate(0, true));
    ReachableNext(s0, Validate(0, true));
  }

  // ---- every upload can be published ---------------------------------------

  /** The writer of an upload of this size holds its lease, and nothing of it is in flight. */
  ghost predicate Transferring(s: State, size: nat, phase: WriterPhase, session: Option<nat>) {
    && Reachable(s) && s.writers == map[0 := Writer(phase, 3_600_000, session, None)]
    && s.calls == {} && !s.provider.marker && s.timeout == 1_000 && 0 <= s.now <= 10 && s.confirmed == {}
    && s.row.size == size && s.row.status.Receiving? && s.row.leaseToken == Some(0)
    && s.row.leaseExpiresAt == Some(3_600_000) && s.row.expiresAt == 100_000_000
  }

  /** A call that is begun and announced. */
  lemma CallCleared(s: State, size: nat, phase: WriterPhase, session: Option<nat>, kind: Kind) returns (n: State)
    requires Transferring(s, size, phase, session) && s.now <= 9 && MayBegin(size, phase, kind)
    ensures Transferring(n, size, Cleared(kind, s.now), session)
    ensures n.now == s.now + 1 && n.provider == s.provider && n.counter == s.counter
    ensures n.row.writeStarted && n.row.sessionId == s.row.sessionId
    ensures n.row.completionStarted == (s.row.completionStarted || Publishes(kind))
  {
    hide Inv, Reachable, WorkStep, LandStep;
    var s1 := Next(s, Begin(0, kind));
    ReachableNext(s, Begin(0, kind));
    var s2 := Next(s1, Tick(1));
    ReachableNext(s1, Tick(1));
    n := Next(s2, Validate(0, true));
    ReachableNext(s2, Validate(0, true));
  }

  /** A call that is begun, announced, made and answered. */
  lemma CallAnswered(s: State, size: nat, phase: WriterPhase, session: Option<nat>, kind: Kind, obj: Object)
    returns (n: State)
    requires Transferring(s, size, phase, session) && s.now <= 9 && MayBegin(size, phase, kind)
    requires kind.Complete? ==> session.GetOr(0) in s.provider.sessions
    ensures var c := Call(kind, 0, session.GetOr(0), s.now + 1_000);
            && n.provider == Effect(s.provider, c, obj, s.counter)
            && Transferring(n, size, Answered(c, obj, s.counter), if kind.Create? then Some(s.counter) else session)
    ensures n.now == s.now + 1 && n.row.writeStarted && n.row.sessionId == s.row.sessionId
    ensures n.row.completionStarted == (s.row.completionStarted || Publishes(kind))
  {
    hide Inv, Reachable, Effect, Next, Answered, MayBegin;
    var c := Call(kind, 0, session.GetOr(0), s.now + 1_000);
    var s3 := CallCleared(s, size, phase, session, kind);
    IssueAndLand(s3, session, kind, s.now, obj);
    var s4 := Next(s3, Issue(0));
    ReachableNext(s3, Issue(0));
    n := Next(s4, Land(c, obj, true));
    ReachableNext(s4, Land(c, obj, true));
    EffectKeepsMarker(s.provider, c, obj, s.counter);
  }

  lemma EffectKeepsMarker(p: Provider, c: Call, obj: Object, id: nat)
    requires !p.marker
    ensures !Effect(p, c, obj, id).marker
  {
  }

  lemma IssueAndLand(s: State, session: Option<nat>, kind: Kind, start: int, obj: Object)
    requires s.writers == map[0 := Writer(Cleared(kind, start), 3_600_000, session, None)]
    requires s.calls == {} && s.timeout == 1_000 && s.now == start + 1
    requires kind.Complete? ==> session.GetOr(0) in s.provider.sessions
    ensures var c := Call(kind, 0, session.GetOr(0), start + 1_000);
            var n := Next(Next(s, Issue(0)), Land(c, obj, true));
            && n.provider == Effect(s.provider, c, obj, s.counter) && n.calls == {} && n.row == s.row
            && n.now == s.now && n.timeout == s.timeout && n.confirmed == s.confirmed
            && n.writers == map[0 := Writer(Answered(c, obj, s.counter), 3_600_000,
                                            if kind.Create? then Some(s.counter) else session, None)]
  {
    hide Effect;
    var c := Call(kind, 0, session.GetOr(0), start + 1_000);
    assert Next(s, Issue(0)).calls == {c};
  }

  /** The bytes of an upload of any size reach the provider: by one PUT up to 100 MiB, and in parts beyond. */
  lemma BytesArrive(size: nat, obj: Object) returns (s: State, session: Option<nat>)
    ensures Transferring(s, size, Stored(obj), session) && s.provider.objects == [obj]
    ensures s.row.writeStarted && s.row.completionStarted
    ensures session.None? <==> size <= 104_857_600
  {
    hide WorkStep, ValidateStep, LandStep, Inv, Reachable;
    InitReachable(0, 1_000, size, 7, 100_000_000);
    var s0 := Init(0, 1_000, size, 7, 100_000_000);
    var s1 := Next(s0, Transfer(7, 3_600));
    ReachableNext(s0, Transfer(7, 3_600));
    if size <= 104_857_600 {
      s := CallAnswered(s1, size, Ready, None, Put, obj);
      return s, None;
    }
    var s2 := CallAnswered(s1, size, Ready, None, Create, obj);
    session := Some(s1.counter);
    var s3 := Next(s2, RecordId(0, true));
    ReachableNext(s2, RecordId(0, true));
    var s4 := CallAnswered(s3, size, Uploading(s1.counter), session, Part, obj);
    s := CallAnswered(s4, size, Uploading(s1.counter), session, Complete, obj);
  }

  lemma StagingStages(s: State, size: nat, obj: Object, session: Option<nat>)
    requires Transferring(s, size, Stored(obj), session) && s.row.writeStarted && s.row.completionStarted
    requires obj.checksum.Some?
    ensures var n := Next(s, Stage(0, true, true));
            && n.row.status.Staged? && StoredObject(n.row) == obj && n.row.size == size && n.row.expiresAt > n.now
            && n.provider == s.provider && n.confirmed == {}
  {
  }

  /** Publication does happen: an upload of any size, confirmed by a lookup, is committed with its object. */
  lemma EverySizeCanBePublished(size: nat, obj: Object) returns (s: State)
    requires obj.checksum.Some?
    ensures Reachable(s) && s.row.size == size && s.row.status.Committed? && StoredObject(s.row) == obj
    ensures s.provider.objects == [obj]
  {
    hide WorkStep, ValidateStep, LandStep, HeadForCommitStep, Inv, Reachable;
    var s0, session := BytesArrive(size, obj);
    StagingStages(s0, size, obj, session);
    var s1 := Next(s0, Stage(0, true, true));
    ReachableNext(s0, Stage(0, true, true));
    hide StageStep;
    ConfirmStaged(s1, obj);
    var s2 := Next(s1, HeadForCommit);
    ReachableNext(s1, HeadForCommit);
    s := Next(s2, Publish(obj));
    ReachableNext(s2, Publish(obj));
  }

  lemma ConfirmStaged(s: State, obj: Object)
    requires s.row.status.Staged? && StoredObject(s.row) == obj && obj.checksum.Some?
    requires s.provider.objects == [obj] && !s.provider.marker
    ensures HeadForCommitStep(s) == s.(confirmed := s.confirmed + {obj})
  {
  }

  /** A reply that is lost: a PUT or an assembly is looked up, and what is found is the evidence; else it failed. */
  lemma LostRepliesAreLookedUp(s: State, t: nat)
    requires t in s.writers && s.writers[t].phase.Awaiting?
    ensures var n := Next(Next(s, GiveUp(t)), Reconcile(t));
            && n == s.(writers := n.writers)
            && n.writers == s.writers[t := s.writers[t].(phase :=
                 if (s.writers[t].phase.kind.Put? || s.writers[t].phase.kind.Complete?) && Head(s.provider, None).Some?
                 then Stored(Head(s.provider, None).value) else Dropped)]
  {
    hide Head;
  }

  // ---- a PUT that is never answered ----------------------------------------

  /** Its PUT was sent and never answered, and the lookup after it found nothing. */
  lemma AbandonedPut() returns (s: State, c: Call)
    ensures Reachable(s) && s.calls == {c} && c == Call(Put, 0, 0, 1_000)
    ensures s.writers == map[0 := Writer(Dropped, 3_600_000, None, None)]
    ensures Empty(s.provider) && !s.provider.marker && s.now == 1 && s.timeout == 1_000
    ensures s.row.status.Receiving? && s.row.leaseToken == Some(0) && s.row.writeStarted
    ensures s.row.providerDeadline == Some(1_001) && s.row.leaseExpiresAt == Some(3_600_000)
    ensures s.row.sessionId.None?
  {
    hide WorkStep, ValidateStep, LandStep, Inv, Reachable;
    var s0 := ClearedPut();
    c := Call(Put, 0, 0, 1_000);
    var s1 := Next(s0, Issue(0));
    ReachableNext(s0, Issue(0));
    assert s1.calls == {c};
    var s2 := Next(s1, GiveUp(0));
    ReachableNext(s1, GiveUp(0));
    s := Next(s2, Reconcile(0));
    ReachableNext(s2, Reconcile(0));
  }

  /** The same upload in quarantine, long past the fence. */
  lemma UnansweredPut() returns (s: State, c: Call)
    ensures Reachable(s) && s.row.status.CleanupPending? && Fenced(s)
    ensures Empty(s.provider) && s.calls == {c} && c.kind.Put?
  {
    hide WorkStep, ValidateStep, LandStep, Inv, Reachable;
    var s0;
    s0, c := AbandonedPut();
    var s1 := Next(s0, Fail(0));
    ReachableNext(s0, Fail(0));
    assert s1.row.status.CleanupPending?;
    s := Next(s1, Tick(10_000_000));
    ReachableNext(s1, Tick(10_000_000));
  }

  /**
   * Why an unknown outcome stays in quarantine: past every deadline and fence, with
   * nothing at the provider, an unanswered PUT can still produce the object.
   */
  lemma AbsenceProvesNothing()
    ensures exists s: State, step: Step ::
      Reachable(s) && s.row.status.CleanupPending? && Fenced(s) && Empty(s.provider)
      && !Empty(Next(s, step).provider)
  {
    var s, c := UnansweredPut();
    var step := Land(c, Object(None, Some(1), Some(2)), false);
    assert Next(s, step).provider.objects == [Object(None, Some(1), Some(2))];
  }
}
