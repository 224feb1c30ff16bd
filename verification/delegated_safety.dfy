/**
 * What every run of the delegated-upload protocol keeps, and the safety theorems
 * that follow: quarantine ends only over an empty provider, a published object is
 * never touched, durable marks precede effects, and stale workers are isolated.
 */
module DelegatedSafety {
  import opened Wrappers
  import opened Multipart
  import opened DelegatedRow
  import opened DelegatedProtocol

  // ---- the invariant -----------------------------------------------------

  /** The last instant at which a session or part may still appear has passed. */
  ghost predicate Fenced(s: State) {
    s.row.providerDeadline.Some? && s.now >= s.row.providerDeadline.value + FENCE
  }

  /** Only the writer that first passed the compare-and-set ever reaches the provider. */
  ghost predicate InvHistory(s: State) {
    && (s.wrote.None? ==>
          !s.row.writeStarted && s.calls == {} && s.created.None? && s.landed.None? && Empty(s.provider))
    && (s.wrote.Some? ==>
          && s.wrote.value < s.counter
          && !s.row.status.Reserved?
          && (s.row.status.Receiving? ==> s.row.leaseToken == s.wrote)
          && (s.row.writeStarted || Finished(s.row.status))
          && s.row.providerDeadline.Some?)
  }

  ghost predicate CallOk(s: State, c: Call) {
    && s.wrote == Some(c.writer)
    && s.landed.None?
    && s.row.providerDeadline.Some?
    && c.deadline < s.row.providerDeadline.value
    && (c.kind.Create? ==> s.created.None? && s.row.size > SINGLE_UPLOAD_MAX_BYTES)
    && (c.kind.Part? || c.kind.Complete? ==> s.created == Some(c.session))
    && (Publishes(c.kind) ==> s.row.completionStarted)
  }

  /** At most one provider call is ever in flight, and none after an object landed. */
  ghost predicate InvCalls(s: State) {
    && (forall c <- s.calls :: CallOk(s, c))
    && (forall c <- s.calls, d <- s.calls :: c == d)
  }

  ghost predicate InvProvider(s: State) {
    && (s.created.None? ==> s.provider.sessions == {})
    && (s.created.Some? ==>
          s.provider.sessions <= {s.created.value} && s.created.value < s.counter
          && s.row.size > SINGLE_UPLOAD_MAX_BYTES)
    && s.provider.parts <= s.provider.sessions
    && !s.provider.marker
    && (s.landed.None? ==> s.provider.objects == [])
    && (s.landed.Some? ==> s.provider.objects == [] || s.provider.objects == [s.landed.value])
    && (s.workers == map[] ==>
          && (s.created.Some? && s.landed.None? ==> s.created.value in s.provider.sessions)
          && (s.landed.Some? ==> s.provider.objects == [s.landed.value]))
  }

  /** Evidence in the row is evidence of the one object that landed. */
  ghost predicate EvidenceOf(r: Row, created: Option<nat>, landed: Option<Object>) {
    && (EvidenceKnown(r) ==> landed.Some?)
    && (r.version.Some? ==> landed.Some? && landed.value.version == r.version)
    && (r.sessionId.Some? ==> created == r.sessionId)
  }

  ghost predicate InvEvidence(s: State) {
    && EvidenceOf(s.row, s.created, s.landed)
    && (s.landed.Some? ==> s.row.completionStarted || Finished(s.row.status))
    && (s.row.status.Staged? || s.row.status.Committed? ==> s.landed == Some(StoredObject(s.row)))
    && (s.row.status.Committed? ==> StoredObject(s.row) in s.confirmed)
  }

  ghost predicate InvQuarantine(s: State) {
    && (s.row.status.CleanupPending? ==>
          s.wrote.Some? && s.row.cleanupAfter.Some? && s.row.providerDeadline.Some?
          && s.row.cleanupAfter.value >= s.row.providerDeadline.value + FENCE)
    && (s.workers != map[] ==>
          s.wrote.Some? && Fenced(s) && (s.row.status.CleanupPending? || Finished(s.row.status)))
    && (Finished(s.row.status) && s.wrote.Some? ==>
          Fenced(s) && Empty(s.provider) && (forall c <- s.calls :: !Publishes(c.kind)))
  }

  /** The writer with the floor: nothing in flight, nothing landed. */
  ghost predicate Holds(s: State, t: nat, w: Writer) {
    s.wrote == Some(t) && s.calls == {} && s.landed.None? && w.session == s.created && w.stored.None?
  }

  ghost predicate WriterOk(s: State, t: nat, w: Writer) {
    match w.phase
    case Ready => s.wrote != Some(t) && w.session.None? && w.stored.None?
    case Validating(kind, start) =>
      && start <= s.now
      && (kind.Put? || kind.Create? ==> s.wrote != Some(t) && w.session.None? && w.stored.None?)
      && (kind.Put? ==> s.row.size <= SINGLE_UPLOAD_MAX_BYTES)
      && (kind.Create? ==> s.row.size > SINGLE_UPLOAD_MAX_BYTES)
      && (kind.Part? || kind.Complete? ==> Holds(s, t, w) && w.session.Some?)
    case Cleared(kind, start) =>
      && Holds(s, t, w)
      && s.row.providerDeadline.Some?
      && start + s.timeout < s.row.providerDeadline.value
      && (kind.Create? ==> w.session.None? && s.row.size > SINGLE_UPLOAD_MAX_BYTES)
      && (kind.Part? || kind.Complete? ==> w.session.Some?)
      && (Publishes(kind) ==> s.row.completionStarted || Finished(s.row.status))
    case Awaiting(kind) =>
      && s.wrote == Some(t)
      && (w.session.Some? ==> w.session == s.created)
      && w.stored.None?
      && (kind.Part? || kind.Complete? ==> w.session.Some?)
    case Created(id) => Holds(s, t, w) && w.session == Some(id)
    case Uploading(id) => Holds(s, t, w) && w.session == Some(id)
    case Reconciling => s.wrote == Some(t) && (w.session.Some? ==> w.session == s.created) && w.stored.None?
    case Stored(o) =>
      s.wrote == Some(t) && s.landed == Some(o) && (w.session.Some? ==> w.session == s.created) && w.stored.None?
    case Dropped =>
      && (w.session.Some? || w.stored.Some? ==> s.wrote == Some(t))
      && (w.session.Some? ==> w.session == s.created)
      && (w.stored.Some? ==> w.stored == s.landed)
    case Closed => true
  }

  ghost predicate InvWriters(s: State) {
    forall t <- s.writers :: t < s.counter && WriterOk(s, t, s.writers[t])
  }

  ghost predicate WorkerPhaseOk(s: State, job: Row, phase: WorkerPhase) {
    match phase
    case Starting => true
    case Listing => true
    case Recording(id, todo) => s.created == Some(id) && s.provider.sessions <= todo
    case NextAbort(todo, known) => s.provider.sessions <= todo
    case Aborting(id, todo, known) => s.provider.sessions <= todo
    case Confirming(id, todo, known) => s.provider.sessions <= todo - {id}
    case Checking(known) => s.provider.sessions == {}
    case Heading(known) => s.provider.sessions == {}
    case Versioning(o) => s.provider.sessions == {} && s.landed == Some(o)
    case Deleting(v) => s.provider.sessions == {} && s.landed.Some? && v == s.landed.value.version
    case Verifying(v) => s.provider.sessions == {} && s.landed.Some? && v == s.landed.value.version
    case Finishing =>
      s.provider.sessions == {} && s.provider.objects == [] && (s.landed.Some? || !s.row.completionStarted)
    case Deferred => true
    case Ended => true
  }

  /** What a worker remembers stays true while other parties move. */
  ghost predicate WorkerOk(s: State, w: Worker) {
    && w.job.size == s.row.size
    && EvidenceOf(w.job, s.created, s.landed)
    && (!w.job.completionStarted ==> !s.row.completionStarted)
    && WorkerPhaseOk(s, w.job, w.phase)
  }

  ghost predicate InvWorkers(s: State) {
    forall t <- s.workers :: t < s.counter && WorkerOk(s, s.workers[t])
  }

  /** A removal still under way was asked for by a worker, so it concerns a quarantined or finished upload. */
  ghost predicate InvRemovals(s: State) {
    && (s.removals != {} ==> s.workers != map[])
    && (forall removal <- s.removals ::
          removal.OfObject? ==> s.landed.Some? && removal.version == s.landed.value.version)
  }

  ghost predicate Inv(s: State) {
    && RowInv(s.row)
    && InvHistory(s)
    && InvCalls(s)
    && InvProvider(s)
    && InvEvidence(s)
    && InvQuarantine(s)
    && InvWriters(s)
    && InvWorkers(s)
    && InvRemovals(s)
  }

  // ---- every step keeps it -----------------------------------------------

  lemma InitInv(now: int, timeout: nat, size: nat, capability: nat, expiresAt: int)
    ensures Inv(Init(now, timeout, size, capability, expiresAt))
  {
  }

  lemma TickInv(s: State, elapsed: nat)
    requires Inv(s)
    ensures Inv(s.(now := s.now + elapsed))
  {
  }

  lemma ReserveInv(s: State, capability: nat)
    requires Inv(s)
    ensures Inv(s.(row := RotateCapability(s.row, s.now, capability)))
  {
  }

  /** An unfinished upload that may have bytes goes into quarantine until its fence. */
  lemma QuarantineInv(s: State, after: int)
    requires Inv(s) && Idle(s.row.status) && s.row.writeStarted
    requires s.row.providerDeadline.Some? ==> after >= s.row.providerDeadline.value + FENCE
    ensures Inv(s.(row := Quarantined(s.row, after)))
  {
  }

  /** One without bytes just ends. */
  lemma CloseInv(s: State, status: Status)
    requires Inv(s) && Idle(s.row.status) && !s.row.writeStarted && Finished(status)
    ensures Inv(s.(row := DelegatedRow.Closed(s.row, status)))
  {
  }

  lemma QueryInv(s: State)
    requires Inv(s)
    ensures Inv(s.(row := Expire(s.row, s.now)))
  {
    hide Inv;
    if Idle(s.row.status) && s.row.writeStarted {
      QuarantineInv(s, CleanupDeadline(s.row, s.now));
    } else if Idle(s.row.status) {
      CloseInv(s, Expired);
    }
  }

  lemma CancelInv(s: State)
    requires Inv(s)
    ensures Inv(s.(row := Cancel(s.row, s.now)))
  {
    hide Inv, Expire;
    QueryInv(s);
    var e := s.(row := Expire(s.row, s.now));
    if Idle(e.row.status) && e.row.writeStarted {
      QuarantineInv(e, CleanupDeadline(e.row, s.now));
    } else if Idle(e.row.status) {
      CloseInv(e, Cancelled);
    }
  }

  lemma SweepInv(s: State)
    requires Inv(s)
    ensures Inv(s.(row := Sweep(s.row, s.now)))
  {
    hide Inv;
    if Idle(s.row.status) && s.row.writeStarted {
      var r := s.row;
      var lease := if r.leaseExpiresAt.Some? then r.leaseExpiresAt.value + FENCE else s.now;
      var deadline := if r.providerDeadline.Some? then r.providerDeadline.value + FENCE else s.now;
      QuarantineInv(s, Max(s.now, Max(lease, deadline)));
    } else if Idle(s.row.status) {
      CloseInv(s, Expired);
    }
  }

  lemma ClaimInv(s: State, capability: nat, leaseSeconds: int)
    requires Inv(s)
    ensures Inv(ClaimStep(s, capability, leaseSeconds))
  {
  }

  /** A writer changes phase and nothing else. */
  lemma SetWriterInv(s: State, t: nat, w: Writer)
    requires Inv(s) && t in s.writers && WriterOk(s, t, w)
    ensures Inv(SetWriter(s, t, w))
  {
    hide RowInv, EvidenceOf, EvidenceKnown, Empty, StoredObject;
  }

  /** With at most one object ever stored, a lookup that finds something finds that object. */
  lemma HeadFindsLanded(s: State, version: Option<nat>)
    requires InvProvider(s)
    requires version.Some? ==> s.landed.Some? && s.landed.value.version == version
    ensures Head(s.provider, version).Some? ==> s.landed == Head(s.provider, version)
    ensures Head(s.provider, version).None? ==> s.provider.objects == []
  {
  }

  lemma BeginInv(s: State, t: nat, kind: Kind)
    requires Inv(s)
    ensures Inv(BeginStep(s, t, kind))
  {
    if t in s.writers && MayBegin(s.row.size, s.writers[t].phase, kind) {
      SetWriterInv(s, t, s.writers[t].(phase := Validating(kind, s.now)));
    }
  }

  /** A successful compare-and-set, seen before its reply reaches the writer. */
  lemma ClearedInv(s: State, t: nat, r: Row)
    requires Inv(s) && t in s.writers && s.writers[t].phase.Validating? && s.writers[t].phase.start < s.now
    requires
      var w := s.writers[t];
      BeforeMutation(s.row, t, w.leaseExpiresAt, s.now, s.timeout, Publishes(w.phase.kind)) == Some(r)
    ensures Inv(SetPhase(s, t, Dropped).(row := r, wrote := Some(t)))
    ensures WriterOk(SetPhase(s, t, Dropped).(row := r, wrote := Some(t)), t,
                     s.writers[t].(phase := Cleared(s.writers[t].phase.kind, s.writers[t].phase.start)))
    ensures s.wrote.None? || s.wrote == Some(t)
  {
    assert s.workers == map[];
  }

  lemma ValidateInv(s: State, t: nat, replied: bool)
    requires Inv(s)
    ensures Inv(ValidateStep(s, t, replied))
  {
    if t in s.writers && s.writers[t].phase.Validating? && s.writers[t].phase.start < s.now {
      var w := s.writers[t];
      match BeforeMutation(s.row, t, w.leaseExpiresAt, s.now, s.timeout, Publishes(w.phase.kind))
      case None =>
        SetWriterInv(s, t, w.(phase := Dropped));
      case Some(r) =>
        ClearedInv(s, t, r);
        var s1 := SetPhase(s, t, Dropped).(row := r, wrote := Some(t));
        var w' := w.(phase := Cleared(w.phase.kind, w.phase.start));
        if replied {
          SetWriterInv(s1, t, w');
          assert SetWriter(s1, t, w').writers == SetPhase(s, t, w'.phase).writers;
        }
    }
  }

  lemma IssueInv(s: State, t: nat)
    requires Inv(s)
    ensures Inv(IssueStep(s, t))
  {
  }

  /** An effect that lands before, or without, its reply. */
  lemma LandSilentInv(s: State, c: Call, obj: Object)
    requires Inv(s) && MayLand(s, c)
    ensures Inv(LandStep(s, c, obj, false))
    ensures s.calls == {c}
  {
    assert s.calls - {c} == {};
  }

  lemma LandInv(s: State, c: Call, obj: Object, replied: bool)
    requires Inv(s)
    ensures Inv(LandStep(s, c, obj, replied))
  {
    if MayLand(s, c) {
      LandSilentInv(s, c, obj);
      if replied && c.writer in s.writers && s.writers[c.writer].phase == Awaiting(c.kind) {
        var s1 := LandStep(s, c, obj, false);
        var w := s.writers[c.writer];
        SetWriterInv(s1, c.writer,
          w.(phase := Answered(c, obj, s.counter), session := if c.kind.Create? then Some(s.counter) else w.session));
      }
    }
  }

  lemma LoseInv(s: State, c: Call)
    requires Inv(s)
    ensures Inv(s.(calls := s.calls - {c}))
  {
  }

  lemma GiveUpInv(s: State, t: nat)
    requires Inv(s)
    ensures Inv(GiveUpStep(s, t))
  {
    if t in s.writers && s.writers[t].phase.Awaiting? {
      SetWriterInv(s, t, s.writers[t].(phase := if Publishes(s.writers[t].phase.kind) then Reconciling else Dropped));
    }
  }

  lemma ReconcileInv(s: State, t: nat)
    requires Inv(s)
    ensures Inv(ReconcileStep(s, t))
  {
    if t in s.writers && s.writers[t].phase.Reconciling? {
      HeadFindsLanded(s, None);
      match Head(s.provider, None) {
        case Some(o) => SetWriterInv(s, t, s.writers[t].(phase := Stored(o)));
        case None => SetWriterInv(s, t, s.writers[t].(phase := Dropped));
      }
    }
  }

  lemma RecordIdRowInv(s: State, t: nat, r: Row)
    requires Inv(s) && t in s.writers && s.writers[t].phase.Created?
    requires RecordMultipart(s.row, t, s.writers[t].leaseExpiresAt, s.now, s.writers[t].phase.id) == Some(r)
    ensures Inv(s.(row := r))
  {
  }

  lemma RecordIdInv(s: State, t: nat, replied: bool)
    requires Inv(s)
    ensures Inv(RecordIdStep(s, t, replied))
  {
    if t in s.writers && s.writers[t].phase.Created? {
      var w := s.writers[t];
      match RecordMultipart(s.row, t, w.leaseExpiresAt, s.now, w.phase.id) {
        case None => SetWriterInv(s, t, w.(phase := Dropped));
        case Some(r) =>
          RecordIdRowInv(s, t, r);
          SetWriterInv(s.(row := r), t, w.(phase := if replied then Uploading(w.phase.id) else Dropped));
      }
    }
  }

  lemma StageRowInv(s: State, t: nat, r: Row)
    requires Inv(s) && t in s.writers && s.writers[t].phase.Stored?
    requires CompleteTransfer(s.row, t, s.writers[t].leaseExpiresAt, s.now, s.writers[t].phase.obj) == Some(r)
    ensures Inv(s.(row := r))
  {
  }

  lemma StageInv(s: State, t: nat, applied: bool, disarmed: bool)
    requires Inv(s)
    ensures Inv(StageStep(s, t, applied, disarmed))
  {
    if t in s.writers && s.writers[t].phase.Stored? {
      var w := s.writers[t];
      var dropped := w.(phase := Dropped, stored := Some(w.phase.obj));
      match CompleteTransfer(s.row, t, w.leaseExpiresAt, s.now, w.phase.obj) {
        case None => SetWriterInv(s, t, dropped);
        case Some(r) =>
          StageRowInv(s, t, r);
          SetWriterInv(if applied then s.(row := r) else s, t,
                       if disarmed then w.(phase := WriterPhase.Closed) else dropped);
      }
    }
  }

  lemma AbandonInv(s: State, t: nat)
    requires Inv(s)
    ensures Inv(AbandonStep(s, t))
  {
    if t in s.writers && !s.writers[t].phase.Closed? {
      var w := s.writers[t];
      SetWriterInv(s, t, w.(phase := Dropped, stored := if w.phase.Stored? then Some(w.phase.obj) else w.stored));
    }
  }

  /** Recording a failure never forgets provider bytes. */
  lemma FailRowInv(s: State, t: nat, r: Row)
    requires Inv(s) && t in s.writers && s.writers[t].phase.Dropped?
    requires FailTransfer(s.row, t, s.now, s.timeout, s.writers[t].session, s.writers[t].stored) == Some(r)
    ensures Inv(s.(row := r))
  {
  }

  lemma FailInv(s: State, t: nat)
    requires Inv(s)
    ensures Inv(FailStep(s, t))
  {
    if t in s.writers && s.writers[t].phase.Dropped? {
      var w := s.writers[t];
      var s1 := s;
      match FailTransfer(s.row, t, s.now, s.timeout, w.session, w.stored) {
        case None =>
        case Some(r) =>
          FailRowInv(s, t, r);
          s1 := s.(row := r);
      }
      SetWriterInv(s1, t, w.(phase := WriterPhase.Closed));
    }
  }

  lemma HeadForCommitInv(s: State)
    requires Inv(s)
    ensures Inv(HeadForCommitStep(s))
  {
  }

  lemma PublishInv(s: State, obj: Object)
    requires Inv(s)
    ensures Inv(PublishStep(s, obj))
  {
  }

  lemma ClaimJobInv(s: State, leaseMillis: nat)
    requires Inv(s)
    ensures Inv(ClaimJobStep(s, leaseMillis))
  {
  }

  /** A worker changes phase and nothing else. */
  lemma SetWorkInv(s: State, t: nat, phase: WorkerPhase)
    requires Inv(s) && t in s.workers && WorkerPhaseOk(s, s.workers[t].job, phase)
    ensures Inv(SetWork(s, t, phase))
  {
    hide RowInv, EvidenceOf, EvidenceKnown, Empty, Publishes, StoredObject;
  }

  lemma RecordingInv(s: State, t: nat, r: Row)
    requires Inv(s) && t in s.workers && s.workers[t].phase.Recording?
    requires RecordSession(s.row, t, s.now, s.workers[t].phase.id) == Some(r)
    ensures Inv(s.(row := r))
  {
  }

  lemma AbortInv(s: State, t: nat)
    requires Inv(s) && t in s.workers && s.workers[t].phase.Aborting?
    ensures Inv(s.(provider := Abort(s.provider, s.workers[t].phase.id)))
  {
  }

  lemma VersioningInv(s: State, t: nat, r: Row)
    requires Inv(s) && t in s.workers && s.workers[t].phase.Versioning?
    requires RecordVersion(s.row, t, s.now, s.workers[t].phase.seen) == Some(r)
    ensures Inv(s.(row := r))
  {
  }

  lemma DeleteInv(s: State, t: nat)
    requires Inv(s) && t in s.workers && s.workers[t].phase.Deleting?
    ensures Inv(s.(provider := Delete(s.provider, s.workers[t].phase.version)))
  {
    if s.provider.objects != [] {
      assert s.provider.objects[..0] == [];
      assert WithoutVersion(s.provider.objects[..0], s.landed.value.version.GetOr(0)) == [];
    }
  }

  /** A worker's unanswered removal is remembered. */
  lemma AskedInv(s: State, t: nat, removal: Removal)
    requires Inv(s) && t in s.workers
    requires removal.OfObject? ==> s.landed.Some? && removal.version == s.landed.value.version
    ensures Inv(s.(removals := s.removals + {removal}))
  {
    hide RowInv, EvidenceOf, EvidenceKnown, Empty, Publishes, StoredObject;
  }

  lemma LateAbortInv(s: State, id: nat)
    requires Inv(s) && OfSession(id) in s.removals
    ensures Inv(s.(provider := Abort(s.provider, id)))
  {
    hide RowInv, EvidenceOf, EvidenceKnown, Publishes, StoredObject;
  }

  lemma LateDeleteInv(s: State, version: Option<nat>)
    requires Inv(s) && OfObject(version) in s.removals
    ensures Inv(s.(provider := Delete(s.provider, version)))
  {
    hide RowInv, EvidenceOf, EvidenceKnown, Publishes, StoredObject;
    if s.provider.objects != [] {
      assert s.provider.objects[..0] == [];
      assert WithoutVersion(s.provider.objects[..0], s.landed.value.version.GetOr(0)) == [];
    }
  }

  lemma LandRemovalInv(s: State, removal: Removal)
    requires Inv(s)
    ensures Inv(LandRemovalStep(s, removal))
  {
    hide Inv;
    if removal in s.removals {
      match removal
      case OfSession(id) =>
        LateAbortInv(s, id);
        FewerRemovalsInv(s.(provider := Abort(s.provider, id)), removal);
      case OfObject(version) =>
        LateDeleteInv(s, version);
        FewerRemovalsInv(s.(provider := Delete(s.provider, version)), removal);
    }
  }

  lemma FewerRemovalsInv(s: State, removal: Removal)
    requires Inv(s)
    ensures Inv(s.(removals := s.removals - {removal}))
  {
    hide RowInv, EvidenceOf, EvidenceKnown, Empty, Publishes, StoredObject;
  }

  lemma FinishInv(s: State, t: nat, r: Row)
    requires Inv(s) && t in s.workers && s.workers[t].phase.Finishing?
    requires Finish(s.row, t, s.now) == Some(r)
    ensures Inv(s.(row := r))
  {
  }

  lemma RescheduleInv(s: State, t: nat, delay: nat)
    requires Inv(s) && t in s.workers
    ensures Inv(s.(row := Reschedule(s.row, t, s.now, delay)))
  {
  }

  /** The steps in which a worker first checks its claim and looks for sessions. */
  lemma ListInv(s: State, t: nat, answered: bool, applied: bool, pick: nat, delay: nat)
    requires Inv(s) && t in s.workers && (s.workers[t].phase.Starting? || s.workers[t].phase.Listing?)
    ensures Inv(WorkStep(s, t, answered, applied, pick, delay))
  {
    hide RowInv, InvHistory, InvCalls, InvEvidence, InvQuarantine, InvWriters, InvRemovals;
    var job := s.workers[t].job;
    if s.workers[t].phase.Starting? {
      var owns := answered && OwnsClaim(s.row, t, s.now);
      SetWorkInv(s, t, if !owns then Deferred else if MustList(job) then Listing else Checking(false));
    } else {
      SetWorkInv(s, t,
        if !answered then Deferred
        else if job.sessionId.None? && pick in s.provider.sessions then Recording(pick, s.provider.sessions)
        else if job.sessionId.None? && s.provider.sessions != {} then Listing
        else NextAbort(s.provider.sessions + JobIds(job), job.sessionId.Some?));
    }
  }

  /** The steps in which a worker walks through the sessions it found. */
  lemma LookInv(s: State, t: nat, answered: bool, applied: bool, pick: nat, delay: nat)
    requires Inv(s) && t in s.workers
    requires
      var phase := s.workers[t].phase;
      phase.NextAbort? || phase.Confirming? || phase.Checking? || phase.Ended?
    ensures Inv(WorkStep(s, t, answered, applied, pick, delay))
  {
    hide RowInv, InvHistory, InvCalls, InvEvidence, InvQuarantine, InvWriters, InvRemovals;
    var owns := answered && OwnsClaim(s.row, t, s.now);
    match s.workers[t].phase
    case NextAbort(todo, known) =>
      SetWorkInv(s, t,
        if todo == {} then Checking(known)
        else if !owns then Deferred
        else if pick in todo then Aborting(pick, todo, known)
        else NextAbort(todo, known));
    case Confirming(id, todo, known) =>
      SetWorkInv(s, t, if answered && id !in s.provider.parts then NextAbort(todo - {id}, known) else Deferred);
    case Checking(known) =>
      SetWorkInv(s, t, if owns then Heading(known) else Deferred);
    case Ended =>
  }

  /** The steps in which a worker looks for the object. */
  lemma HeadInv(s: State, t: nat, answered: bool, applied: bool, pick: nat, delay: nat)
    requires Inv(s) && t in s.workers && (s.workers[t].phase.Heading? || s.workers[t].phase.Verifying?)
    ensures Inv(WorkStep(s, t, answered, applied, pick, delay))
  {
    hide RowInv, InvHistory, InvCalls, InvEvidence, InvQuarantine, InvWriters, InvRemovals;
    var job := s.workers[t].job;
    match s.workers[t].phase
    case Heading(known) =>
      HeadFindsLanded(s, job.version);
      SetWorkInv(s, t,
        if !answered then Deferred
        else
          match Head(s.provider, job.version)
          case Some(o) => Versioning(o)
          case None =>
            if EvidenceKnown(job) || (!job.completionStarted && known) then Finishing else Deferred);
    case Verifying(v) =>
      HeadFindsLanded(s, v);
      SetWorkInv(s, t, if answered && Head(s.provider, v).None? then Finishing else Deferred);
  }

  /** The steps in which a worker changes the row. */
  lemma RowChangeInv(s: State, t: nat, answered: bool, applied: bool, pick: nat, delay: nat)
    requires Inv(s) && t in s.workers
    requires
      var phase := s.workers[t].phase;
      phase.Recording? || phase.Versioning? || phase.Finishing? || phase.Deferred?
    ensures Inv(WorkStep(s, t, answered, applied, pick, delay))
  {
    hide RowInv, InvHistory, InvCalls, InvProvider, InvEvidence, InvQuarantine, InvWriters, InvRemovals;
    var job := s.workers[t].job;
    match s.workers[t].phase
    case Recording(id, todo) =>
      match RecordSession(s.row, t, s.now, id) {
        case None => SetWorkInv(s, t, Deferred);
        case Some(r) =>
          RecordingInv(s, t, r);
          SetWorkInv(s.(row := r), t, if answered then NextAbort(todo, true) else Deferred);
      }
    case Versioning(o) =>
      match RecordVersion(s.row, t, s.now, o) {
        case None => SetWorkInv(s, t, Deferred);
        case Some(r) =>
          VersioningInv(s, t, r);
          SetWorkInv(s.(row := r), t, if answered then Deleting(Coalesce(o.version, job.version)) else Deferred);
      }
    case Finishing =>
      match Finish(s.row, t, s.now) {
        case None => SetWorkInv(s, t, Deferred);
        case Some(r) => FinishInv(s, t, r); SetWorkInv(s.(row := r), t, Ended);
      }
    case Deferred =>
      RescheduleInv(s, t, delay);
      SetWorkInv(s.(row := Reschedule(s.row, t, s.now, delay)), t, Ended);
  }

  /** The steps in which a worker changes the provider. */
  lemma RemovalInv(s: State, t: nat, answered: bool, applied: bool, pick: nat, delay: nat)
    requires Inv(s) && t in s.workers && (s.workers[t].phase.Aborting? || s.workers[t].phase.Deleting?)
    ensures Inv(WorkStep(s, t, answered, applied, pick, delay))
  {
    hide RowInv, InvHistory, InvCalls, InvProvider, InvEvidence, InvQuarantine, InvWriters, InvRemovals;
    match s.workers[t].phase
    case Aborting(id, todo, known) =>
      AbortInv(s, t);
      var s1 := if answered || applied then s.(provider := Abort(s.provider, id)) else s;
      if !answered {
        AskedInv(s1, t, OfSession(id));
      }
      var s2 := if answered then s1 else s1.(removals := s1.removals + {OfSession(id)});
      SetWorkInv(s2, t, if answered then Confirming(id, todo, known) else Deferred);
    case Deleting(v) =>
      DeleteInv(s, t);
      var s1 := if answered || applied then s.(provider := Delete(s.provider, v)) else s;
      if !answered {
        AskedInv(s1, t, OfObject(v));
      }
      var s2 := if answered then s1 else s1.(removals := s1.removals + {OfObject(v)});
      SetWorkInv(s2, t, if answered then Verifying(v) else Deferred);
  }

  lemma WorkInv(s: State, t: nat, answered: bool, applied: bool, pick: nat, delay: nat)
    requires Inv(s)
    ensures Inv(WorkStep(s, t, answered, applied, pick, delay))
  {
    hide Inv;
    if t in s.workers {
      var phase := s.workers[t].phase;
      if phase.Starting? || phase.Listing? {
        ListInv(s, t, answered, applied, pick, delay);
      } else if phase.NextAbort? || phase.Confirming? || phase.Checking? || phase.Ended? {
        LookInv(s, t, answered, applied, pick, delay);
      } else if phase.Heading? || phase.Verifying? {
        HeadInv(s, t, answered, applied, pick, delay);
      } else if phase.Aborting? || phase.Deleting? {
        RemovalInv(s, t, answered, applied, pick, delay);
      } else {
        RowChangeInv(s, t, answered, applied, pick, delay);
      }
    }
  }

  predicate IsWriterStep(step: Step) {
    step.Begin? || step.Validate? || step.Issue? || step.GiveUp? || step.Reconcile? || step.RecordId? || step.Stage?
    || step.Abandon? || step.Fail?
  }

  lemma WriterStepInv(s: State, step: Step)
    requires Inv(s) && IsWriterStep(step)
    ensures Inv(Next(s, step))
  {
    hide Inv, ClaimStep, BeginStep, ValidateStep, IssueStep, LandStep, GiveUpStep, ReconcileStep, RecordIdStep,
         StageStep, AbandonStep, FailStep, HeadForCommitStep, PublishStep, ClaimJobStep, WorkStep, LandRemovalStep,
         Cancel, Sweep, Expire;
    match step
    case Begin(t, kind) => BeginInv(s, t, kind);
    case Validate(t, replied) => ValidateInv(s, t, replied);
    case Issue(t) => IssueInv(s, t);
    case GiveUp(t) => GiveUpInv(s, t);
    case Reconcile(t) => ReconcileInv(s, t);
    case RecordId(t, replied) => RecordIdInv(s, t, replied);
    case Stage(t, applied, disarmed) => StageInv(s, t, applied, disarmed);
    case Abandon(t) => AbandonInv(s, t);
    case Fail(t) => FailInv(s, t);
  }

  lemma NextInv(s: State, step: Step)
    requires Inv(s)
    ensures Inv(Next(s, step))
  {
    hide Inv, ClaimStep, BeginStep, ValidateStep, IssueStep, LandStep, GiveUpStep, ReconcileStep, RecordIdStep,
         StageStep, AbandonStep, FailStep, HeadForCommitStep, PublishStep, ClaimJobStep, WorkStep, LandRemovalStep,
         Cancel, Sweep, Expire;
    match step
    case Tick(elapsed) => TickInv(s, elapsed);
    case Reserve(capability) => ReserveInv(s, capability);
    case Query => QueryInv(s);
    case CancelRow => CancelInv(s);
    case SweepRow => SweepInv(s);
    case Transfer(capability, leaseSeconds) => ClaimInv(s, capability, leaseSeconds);
    case Land(c, obj, replied) => LandInv(s, c, obj, replied);
    case Lose(c) => LoseInv(s, c);
    case LandRemoval(removal) => LandRemovalInv(s, removal);
    case HeadForCommit => HeadForCommitInv(s);
    case Publish(obj) => PublishInv(s, obj);
    case ClaimJob(leaseMillis) => ClaimJobInv(s, leaseMillis);
    case Work(t, answered, applied, pick, delay) => WorkInv(s, t, answered, applied, pick, delay);
    case _ => WriterStepInv(s, step);
  }
}
