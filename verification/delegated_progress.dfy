/** Exactly when a quarantine can end without another answer from the provider's writes. */
module DelegatedProgress {
  import opened Wrappers
  import opened DelegatedRow
  import opened DelegatedProtocol
  import opened DelegatedSafety
  import opened DelegatedTheorems

  /** No write of the upload takes effect in these steps. */
  predicate NothingLands(steps: seq<Step>) {
    forall i :: 0 <= i < |steps| ==> !steps[i].Land?
  }

  /** Some run in which nothing more lands ends the row. */
  ghost predicate CanEnd(s: State) {
    exists steps: seq<Step> :: NothingLands(steps) && Finished(Run(s, steps).row.status)
  }

  lemma EndedCanEnd(s: State)
    requires Finished(s.row.status)
    ensures CanEnd(s)
  {
    assert Run(s, []) == s && NothingLands([]);
  }

  lemma CanEndBefore(s: State, step: Step)
    requires !step.Land? && CanEnd(Next(s, step))
    ensures CanEnd(s)
  {
    hide Next;
    var steps: seq<Step> :| NothingLands(steps) && Finished(Run(Next(s, step), steps).row.status);
    assert NothingLands([step] + steps);
    assert ([step] + steps)[1..] == steps;
    assert Run(s, [step] + steps) == Run(Next(s, step), steps);
  }

  /** The worker's next step when everything answers; `pick` chooses a session. */
  function Undisturbed(s: State, t: nat, pick: nat): State {
    Next(s, Work(t, true, true, pick, 0))
  }

  /** A worker with a live claim on a quarantined row. */
  ghost predicate Working(s: State, t: nat) {
    Inv(s) && t in s.workers && OwnsClaim(s.row, t, s.now)
  }

  /** Enough is known to finish: the object, evidence of it, or the session of an unassembled upload. */
  predicate Resolved(s: State, job: Row, known: bool) {
    s.provider.objects != [] || EvidenceKnown(job) || (!job.completionStarted && known)
  }

  lemma StepWorks(s: State, t: nat, pick: nat)
    requires Working(s, t) && !s.workers[t].phase.Finishing? && !s.workers[t].phase.Deferred?
    ensures Inv(Undisturbed(s, t, pick)) && t in Undisturbed(s, t, pick).workers
    ensures OwnsClaim(Undisturbed(s, t, pick).row, t, s.now) && Undisturbed(s, t, pick).now == s.now
    ensures Undisturbed(s, t, pick).workers[t].job == s.workers[t].job
  {
    NextInv(s, Work(t, true, true, pick, 0));
    StepKeepsClaim(s, t, pick);
  }

  lemma StepKeepsClaim(s: State, t: nat, pick: nat)
    requires t in s.workers && OwnsClaim(s.row, t, s.now)
    requires !s.workers[t].phase.Finishing? && !s.workers[t].phase.Deferred?
    ensures var n := Undisturbed(s, t, pick);
            t in n.workers && OwnsClaim(n.row, t, s.now) && n.now == s.now && n.workers[t].job == s.workers[t].job
  {
    hide Head, Abort, Delete, EvidenceKnown, MustList, JobIds, Expire, Cancel, Sweep, RotateCapability, Finish,
         Reschedule, ClaimStep, BeginStep, ValidateStep, IssueStep, LandStep, GiveUpStep, ReconcileStep,
         RecordIdStep, StageStep, AbandonStep, FailStep, HeadForCommitStep, PublishStep, ClaimJobStep;
  }

  lemma FinishingEnds(s: State, t: nat)
    requires Working(s, t) && s.workers[t].phase.Finishing?
    ensures CanEnd(s)
  {
    hide Inv;
    EndedCanEnd(Undisturbed(s, t, 0));
    CanEndBefore(s, Work(t, true, true, 0, 0));
  }

  lemma VerifyingEnds(s: State, t: nat)
    requires Working(s, t) && s.workers[t].phase.Verifying? && s.provider.objects == []
    ensures CanEnd(s)
  {
    hide Inv;
    var n := Undisturbed(s, t, 0);
    StepWorks(s, t, 0);
    HeadOfNothing(s.provider, s.workers[t].phase.version);
    FinishingEnds(n, t);
    CanEndBefore(s, Work(t, true, true, 0, 0));
  }

  lemma HeadOfNothing(p: Provider, version: Option<nat>)
    requires p.objects == []
    ensures Head(p, version) == None
  {
  }

  /** Deleting the one object's version leaves none. */
  lemma DeletedIsGone(s: State, t: nat)
    requires Inv(s) && t in s.workers && s.workers[t].phase.Deleting?
    ensures Delete(s.provider, s.workers[t].phase.version).objects == []
  {
    hide RowInv, InvHistory, InvCalls, InvEvidence, InvQuarantine, InvWriters;
    if s.provider.objects != [] {
      assert s.provider.objects[..0] == [];
      assert WithoutVersion(s.provider.objects[..0], s.landed.value.version.GetOr(0)) == [];
    }
  }

  lemma DeletingEnds(s: State, t: nat)
    requires Working(s, t) && s.workers[t].phase.Deleting?
    ensures CanEnd(s)
  {
    hide Inv, Delete;
    var n := Undisturbed(s, t, 0);
    StepWorks(s, t, 0);
    DeletedIsGone(s, t);
    VerifyingEnds(n, t);
    CanEndBefore(s, Work(t, true, true, 0, 0));
  }

  /** The version a lookup saw is never in conflict with the recorded one. */
  lemma VersionIsRecorded(s: State, t: nat)
    requires Working(s, t) && s.workers[t].phase.Versioning?
    ensures RecordVersion(s.row, t, s.now, s.workers[t].phase.seen).Some?
  {
    hide RowInv, InvHistory, InvCalls, InvProvider, InvQuarantine, InvWriters;
  }

  lemma VersioningEnds(s: State, t: nat)
    requires Working(s, t) && s.workers[t].phase.Versioning?
    ensures CanEnd(s)
  {
    hide Inv, RecordVersion;
    VersionIsRecorded(s, t);
    var n := Undisturbed(s, t, 0);
    StepWorks(s, t, 0);
    DeletingEnds(n, t);
    CanEndBefore(s, Work(t, true, true, 0, 0));
  }

  /** A lookup finds the object when there is one. */
  lemma HeadFindsObject(s: State, t: nat)
    requires Inv(s) && t in s.workers && s.provider.objects != []
    ensures Head(s.provider, s.workers[t].job.version).Some?
  {
    hide RowInv, InvHistory, InvCalls, InvEvidence, InvQuarantine, InvWriters;
  }

  lemma HeadingEnds(s: State, t: nat)
    requires Working(s, t) && s.workers[t].phase.Heading?
    requires Resolved(s, s.workers[t].job, s.workers[t].phase.known)
    ensures CanEnd(s)
  {
    hide Inv, Head;
    var n := Undisturbed(s, t, 0);
    StepWorks(s, t, 0);
    if s.provider.objects != [] {
      HeadFindsObject(s, t);
    }
    if n.workers[t].phase.Versioning? {
      VersioningEnds(n, t);
    } else {
      FinishingEnds(n, t);
    }
    CanEndBefore(s, Work(t, true, true, 0, 0));
  }

  lemma CheckingEnds(s: State, t: nat)
    requires Working(s, t) && s.workers[t].phase.Checking?
    requires Resolved(s, s.workers[t].job, s.workers[t].phase.known)
    ensures CanEnd(s)
  {
    hide Inv;
    var n := Undisturbed(s, t, 0);
    StepWorks(s, t, 0);
    HeadingEnds(n, t);
    CanEndBefore(s, Work(t, true, true, 0, 0));
  }

  /** Aborting the sessions one by one reaches the lookup. */
  lemma {:induction false} AbortsEnd(s: State, t: nat)
    requires Working(s, t) && s.workers[t].phase.NextAbort?
    requires Resolved(s, s.workers[t].job, s.workers[t].phase.known)
    ensures CanEnd(s)
    decreases |s.workers[t].phase.todo|
  {
    hide Inv, Resolved;
    var todo := s.workers[t].phase.todo;
    if todo == {} {
      var n := Undisturbed(s, t, 0);
      StepWorks(s, t, 0);
      SameResolved(s, n, s.workers[t].job, s.workers[t].phase.known);
      CheckingEnds(n, t);
      CanEndBefore(s, Work(t, true, true, 0, 0));
    } else {
      var pick :| pick in todo;
      var aborting := Undisturbed(s, t, pick);
      StepWorks(s, t, pick);
      var confirming := Undisturbed(aborting, t, 0);
      StepWorks(aborting, t, 0);
      var n := Undisturbed(confirming, t, 0);
      StepWorks(confirming, t, 0);
      assert n.workers[t].phase == NextAbort(todo - {pick}, s.workers[t].phase.known);
      SameResolved(s, n, s.workers[t].job, s.workers[t].phase.known);
      AbortsEnd(n, t);
      CanEndBefore(confirming, Work(t, true, true, 0, 0));
      CanEndBefore(aborting, Work(t, true, true, 0, 0));
      CanEndBefore(s, Work(t, true, true, pick, 0));
    }
  }

  lemma SameResolved(s: State, n: State, job: Row, known: bool)
    requires s.provider.objects == n.provider.objects && Resolved(s, job, known)
    ensures Resolved(n, job, known)
  {
  }

  /** What the worker will know: its own record, or a session it finds. */
  predicate WillKnow(s: State, job: Row) {
    job.sessionId.Some? || s.provider.sessions != {}
  }

  lemma ListingEnds(s: State, t: nat)
    requires Working(s, t) && s.workers[t].phase.Listing?
    requires s.row.sessionId == s.workers[t].job.sessionId
    requires Resolved(s, s.workers[t].job, WillKnow(s, s.workers[t].job))
    ensures CanEnd(s)
  {
    hide Inv, Resolved;
    var job := s.workers[t].job;
    if job.sessionId.None? && s.provider.sessions != {} {
      var pick :| pick in s.provider.sessions;
      var recording := Undisturbed(s, t, pick);
      StepWorks(s, t, pick);
      var n := Undisturbed(recording, t, 0);
      StepWorks(recording, t, 0);
      assert n.workers[t].phase.NextAbort? && n.workers[t].phase.known;
      SameResolved(s, n, job, true);
      AbortsEnd(n, t);
      CanEndBefore(recording, Work(t, true, true, 0, 0));
      CanEndBefore(s, Work(t, true, true, pick, 0));
    } else {
      var n := Undisturbed(s, t, 0);
      StepWorks(s, t, 0);
      SameResolved(s, n, job, job.sessionId.Some?);
      AbortsEnd(n, t);
      CanEndBefore(s, Work(t, true, true, 0, 0));
    }
  }

  /** A worker that has just claimed the row. */
  lemma ClaimedEnds(s: State, t: nat)
    requires Working(s, t) && s.workers[t].phase.Starting? && s.row.sessionId == s.workers[t].job.sessionId
    requires Resolved(s, s.workers[t].job, WillKnow(s, s.workers[t].job))
    ensures CanEnd(s)
  {
    hide Inv, Resolved, MustList;
    var job := s.workers[t].job;
    var n := Undisturbed(s, t, 0);
    StepWorks(s, t, 0);
    if MustList(job) {
      SameResolved(s, n, job, WillKnow(s, job));
      ListingEnds(n, t);
    } else {
      SmallHasNoSession(s, t);
      SameResolved(s, n, job, false);
      CheckingEnds(n, t);
    }
    CanEndBefore(s, Work(t, true, true, 0, 0));
  }

  lemma SmallHasNoSession(s: State, t: nat)
    requires Inv(s) && t in s.workers && !MustList(s.workers[t].job)
    ensures !WillKnow(s, s.workers[t].job)
  {
    hide RowInv, InvHistory, InvCalls, InvEvidence, InvQuarantine, InvWriters;
  }

  /** A due row that no live claim holds. */
  lemma DueRowEnds(s: State)
    requires Inv(s) && ClaimCleanup(s.row, s.now, s.counter, 1).Some?
    requires Resolved(s, s.row, WillKnow(s, s.row))
    ensures CanEnd(s)
  {
    hide Inv;
    var n := Next(s, ClaimJob(1));
    NextInv(s, ClaimJob(1));
    ClaimedEnds(n, s.counter);
    CanEndBefore(s, ClaimJob(1));
  }

  /**
   * A quarantine can be ended, by a worker that claims it once its wait and any earlier
   * claim are over, whenever the object is there, some evidence of it is recorded, or the
   * upload was never assembled and its session is recorded or still listed.
   */
  lemma CleanupCanFinish(s: State)
    requires Inv(s) && s.row.status.CleanupPending?
    requires Resolved(s, s.row, WillKnow(s, s.row))
    ensures CanEnd(s)
  {
    var due := Max(s.row.cleanupAfter.GetOr(0), s.row.cleanupLeaseExpiresAt.GetOr(0));
    var wait := Tick(Max(0, due - s.now));
    NextInv(s, wait);
    var n := Next(s, wait);
    assert ClaimCleanup(n.row, n.now, n.counter, 1).Some?;
    DueRowEnds(n);
    CanEndBefore(s, wait);
  }

  // ---- the converse ------------------------------------------------------

  /** What a worker takes for granted once it has looked for sessions. */
  predicate Known(phase: WorkerPhase) {
    match phase
    case NextAbort(_, known) => known
    case Aborting(_, _, known) => known
    case Confirming(_, _, known) => known
    case Checking(known) => known
    case Heading(known) => known
    case _ => false
  }

  /** The worker with the claim found nothing that could let it finish. */
  predicate WorkerStuck(row: Row, w: Worker) {
    && !EvidenceKnown(w.job) && w.job.completionStarted == row.completionStarted
    && !w.phase.Versioning? && !w.phase.Deleting? && !w.phase.Verifying? && !w.phase.Finishing?
    && (!row.completionStarted ==> w.job.sessionId.None? && !w.phase.Recording? && !Known(w.phase))
  }

  /** A quarantined row about which nothing is known, and whose worker, if any, knows nothing either. */
  ghost predicate Stuck(s: State) {
    && s.row.status.CleanupPending? && s.provider.objects == [] && !EvidenceKnown(s.row)
    && (!s.row.completionStarted ==> !WillKnow(s, s.row))
    && (forall t <- s.workers :: t < s.counter)
    && (s.row.cleanupToken.Some? && s.row.cleanupToken.value in s.workers ==>
          WorkerStuck(s.row, s.workers[s.row.cleanupToken.value]))
  }

  lemma DeletingNothing(p: Provider, version: Option<nat>)
    requires p.objects == []
    ensures Delete(p, version).objects == [] && Delete(p, version).sessions == p.sessions
  {
  }

  /** While a row is in quarantine only cleanup workers change it, and without a landing nothing appears. */
  lemma OthersLeaveIt(s: State, step: Step)
    requires s.row.status.CleanupPending? && s.provider.objects == []
    requires !step.Land? && !step.Work? && !step.ClaimJob?
    ensures var n := Next(s, step);
            && n.row == s.row && n.workers == s.workers && n.counter == s.counter
            && n.provider.objects == [] && n.provider.sessions <= s.provider.sessions
  {
    hide Head, CleanupDeadline, Effect, MayLand, EvidenceKnown, Delete;
    if step.LandRemoval? && step.removal.OfObject? {
      DeletingNothing(s.provider, step.removal.version);
    }
  }

  /** A step of anyone but a cleanup worker. */
  lemma OthersStayStuck(s: State, step: Step)
    requires Stuck(s) && !step.Land? && !step.Work?
    ensures Stuck(Next(s, step))
  {
    if step.ClaimJob? {
      ClaimStaysStuck(s, step.leaseMillis);
    } else {
      hide Next, EvidenceKnown;
      OthersLeaveIt(s, step);
    }
  }

  /** Whoever claims the row now starts from what the row says. */
  lemma ClaimStaysStuck(s: State, leaseMillis: nat)
    requires Stuck(s)
    ensures Stuck(ClaimJobStep(s, leaseMillis))
  {
  }

  /** A worker changes only its own entry, and removes at most. */
  lemma WorkLeavesRest(s: State, t: nat, answered: bool, applied: bool, pick: nat, delay: nat)
    requires s.provider.objects == []
    ensures var n := WorkStep(s, t, answered, applied, pick, delay);
            && n.workers.Keys == s.workers.Keys && n.counter == s.counter
            && (forall u <- s.workers :: u != t ==> n.workers[u] == s.workers[u])
            && n.provider.objects == [] && n.provider.sessions <= s.provider.sessions
  {
    hide Head, EvidenceKnown, MustList, JobIds, Delete, RecordSession, RecordVersion, Finish, Reschedule, OwnsClaim;
    if t in s.workers && s.workers[t].phase.Deleting? {
      DeletingNothing(s.provider, s.workers[t].phase.version);
    }
  }

  /** The row after a stuck worker's step: it may learn a session, or lose its claim, and nothing more. */
  lemma HolderRow(s: State, t: nat, answered: bool, applied: bool, pick: nat, delay: nat)
    requires Stuck(s) && t in s.workers && s.row.cleanupToken == Some(t)
    ensures var r := WorkStep(s, t, answered, applied, pick, delay).row;
            && r.status.CleanupPending? && !EvidenceKnown(r) && r.completionStarted == s.row.completionStarted
            && (r.cleanupToken == Some(t) || r.cleanupToken.None?)
            && (!s.row.completionStarted ==> r.sessionId == s.row.sessionId)
  {
    hide Delete, MustList, Head, Abort, JobIds, RecordVersion, Finish;
  }

  lemma HolderWorker(s: State, t: nat, answered: bool, applied: bool, pick: nat, delay: nat)
    requires Stuck(s) && t in s.workers && s.row.cleanupToken == Some(t)
    ensures WorkerStuck(s.row, WorkStep(s, t, answered, applied, pick, delay).workers[t])
  {
    hide Delete, MustList, Abort, EvidenceKnown, RecordSession, RecordVersion, Finish, Reschedule, OwnsClaim;
    HeadOfNothing(s.provider, s.workers[t].job.version);
  }

  lemma HolderStaysStuck(s: State, step: Step)
    requires Stuck(s) && step.Work? && s.row.cleanupToken == Some(step.worker)
    ensures Stuck(Next(s, step))
  {
    if step.worker in s.workers {
      hide WorkStep, EvidenceKnown;
      WorkLeavesRest(s, step.worker, step.answered, step.applied, step.pick, step.delay);
      HolderRow(s, step.worker, step.answered, step.applied, step.pick, step.delay);
      HolderWorker(s, step.worker, step.answered, step.applied, step.pick, step.delay);
    }
  }

  /** A worker without the claim may still delete or abort, and finds nothing. */
  lemma StaleStaysStuck(s: State, step: Step)
    requires Stuck(s) && step.Work? && s.row.cleanupToken != Some(step.worker)
    ensures Stuck(Next(s, step))
  {
    StaleWorkerIsHarmless(s, step.worker, step.answered, step.applied, step.pick, step.delay);
    WorkLeavesRest(s, step.worker, step.answered, step.applied, step.pick, step.delay);
  }

  lemma {:induction false} StuckStays(s: State, steps: seq<Step>)
    requires Stuck(s) && NothingLands(steps)
    ensures Stuck(Run(s, steps))
    decreases |steps|
  {
    hide Next, Stuck;
    if steps != [] {
      if !steps[0].Work? {
        OthersStayStuck(s, steps[0]);
      } else if s.row.cleanupToken == Some(steps[0].worker) {
        HolderStaysStuck(s, steps[0]);
      } else {
        StaleStaysStuck(s, steps[0]);
      }
      StuckStays(Next(s, steps[0]), steps[1..]);
    }
  }

  /**
   * A quarantine no worker holds can end without another landing exactly when the object
   * is there, some evidence of it is recorded, or the upload was never assembled and its
   * session is recorded or still listed. Every other outcome is truly unknown and stays.
   */
  lemma CanEndIff(s: State)
    requires Inv(s) && s.row.status.CleanupPending? && s.row.cleanupToken.None?
    ensures CanEnd(s) <==> Resolved(s, s.row, WillKnow(s, s.row))
  {
    hide CanEnd;
    if Resolved(s, s.row, WillKnow(s, s.row)) {
      CleanupCanFinish(s);
    } else {
      UnresolvedIsStuck(s);
      StuckCannotEnd(s);
    }
  }

  lemma UnresolvedIsStuck(s: State)
    requires Inv(s) && s.row.status.CleanupPending? && s.row.cleanupToken.None?
    requires !Resolved(s, s.row, WillKnow(s, s.row))
    ensures Stuck(s)
  {
  }

  lemma StuckCannotEnd(s: State)
    requires Stuck(s)
    ensures !CanEnd(s)
  {
    hide Run;
    forall steps: seq<Step> | NothingLands(steps)
      ensures !Finished(Run(s, steps).row.status)
    {
      StuckStays(s, steps);
    }
  }
}
