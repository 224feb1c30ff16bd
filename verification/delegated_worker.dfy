/**
 * The cleanup worker as it is written: one long procedure whose every call may find the
 * world changed by others. Each call is one step of the protocol, so whatever the
 * procedure does is a run of the protocol, and what it reports can be relied on.
 */
module DelegatedWorker {
  import opened Wrappers
  import opened DelegatedLedger
  import opened DelegatedRow
  import opened DelegatedProtocol
  import opened DelegatedSafety
  import opened DelegatedTheorems
  import opened DelegatedProgress

  /** Why a claimed row is not finished now. */
  datatype Problem =
    | CleanupLeaseLost
    | MultipartDiscoveryUnavailable
    | MultipartAbortUnavailable
    | MultipartPartsUnconfirmed
    | ObjectHeadUnavailable
    | ObjectDeleteUnavailable
    | ObjectDeletionUnconfirmed
    | ProviderOutcomeUnknown

  /** A database error ends the procedure without giving the claim back. */
  datatype Outcome = Cleaned | Kept(problem: Problem) | DatabaseError

  datatype Lookup = Found(obj: Object) | NotFound | Unanswered

  /** A step of anyone but worker `t` leaves that worker alone. */
  lemma OthersLeaveWorker(s: State, step: Step, t: nat)
    requires t in s.workers && t < s.counter && !(step.Work? && step.worker == t)
    ensures t in Next(s, step).workers && Next(s, step).workers[t] == s.workers[t]
    ensures t < Next(s, step).counter
  {
    hide Head, Abort, Delete, MayLand, Effect, WorkStep, Expire, Cancel, Sweep, RotateCapability,
         DelegatedRow.ClaimTransfer, BeforeMutation, RecordMultipart, CompleteTransfer, FailTransfer, Commit;
    if step.Work? {
      WorkersKeepApart(s, step.worker, step.answered, step.applied, step.pick, step.delay, t);
    }
  }

  lemma WorkersKeepApart(s: State, t: nat, answered: bool, applied: bool, pick: nat, delay: nat, other: nat)
    requires other in s.workers && other != t
    ensures var n := WorkStep(s, t, answered, applied, pick, delay);
            n.counter == s.counter && other in n.workers && n.workers[other] == s.workers[other]
  {
    hide Head, Abort, Delete, EvidenceKnown, MustList, JobIds,
         RecordSession, RecordVersion, Finish, Reschedule, DelegatedRow.OwnsClaim;
  }

  /** Where a worker's step leads it. */
  function PhaseAfter(s: State, t: nat, answered: bool, pick: nat): WorkerPhase
    requires t in s.workers
  {
    var job := s.workers[t].job;
    var owns := answered && DelegatedRow.OwnsClaim(s.row, t, s.now);
    match s.workers[t].phase
    case Starting => if !owns then Deferred else if MustList(job) then Listing else Checking(false)
    case Listing =>
      if !answered then Deferred
      else if job.sessionId.None? && pick in s.provider.sessions then Recording(pick, s.provider.sessions)
      else if job.sessionId.None? && s.provider.sessions != {} then Listing
      else NextAbort(s.provider.sessions + JobIds(job), job.sessionId.Some?)
    case Recording(id, todo) =>
      if answered && RecordSession(s.row, t, s.now, id).Some? then NextAbort(todo, true) else Deferred
    case NextAbort(todo, known) =>
      if todo == {} then Checking(known)
      else if !owns then Deferred
      else if pick in todo then Aborting(pick, todo, known)
      else NextAbort(todo, known)
    case Aborting(id, todo, known) => if answered then Confirming(id, todo, known) else Deferred
    case Confirming(id, todo, known) =>
      if answered && id !in s.provider.parts then NextAbort(todo - {id}, known) else Deferred
    case Checking(known) => if owns then Heading(known) else Deferred
    case Heading(known) =>
      if !answered then Deferred
      else
        (match Head(s.provider, job.version)
         case Some(o) => Versioning(o)
         case None => if EvidenceKnown(job) || (!job.completionStarted && known) then Finishing else Deferred)
    case Versioning(o) =>
      if !answered || RecordVersion(s.row, t, s.now, o).None? then Deferred
      else Deleting(Coalesce(o.version, job.version))
    case Deleting(v) => if answered then Verifying(v) else Deferred
    case Verifying(v) => if answered && Head(s.provider, v).None? then Finishing else Deferred
    case Finishing => if Finish(s.row, t, s.now).Some? then Ended else Deferred
    case Deferred => Ended
    case Ended => Ended
  }

  /** The worker is still about its sessions. */
  predicate AboutSessions(phase: WorkerPhase) {
    phase.Starting? || phase.Listing? || phase.Recording? || phase.NextAbort? || phase.Aborting? || phase.Confirming?
  }

  lemma StepLeads(s: State, t: nat, answered: bool, applied: bool, pick: nat, delay: nat)
    requires t in s.workers
    ensures var n := Next(s, Work(t, answered, applied, pick, delay));
            n.counter == s.counter && t in n.workers
            && n.workers[t] == Worker(PhaseAfter(s, t, answered, pick), s.workers[t].job)
  {
    hide WorkStep, PhaseAfter;
    if AboutSessions(s.workers[t].phase) {
      SessionStepLeads(s, t, answered, applied, pick, delay);
    } else {
      ObjectStepLeads(s, t, answered, applied, pick, delay);
    }
  }

  lemma SessionStepLeads(s: State, t: nat, answered: bool, applied: bool, pick: nat, delay: nat)
    requires t in s.workers && AboutSessions(s.workers[t].phase)
    ensures var n := WorkStep(s, t, answered, applied, pick, delay);
            n.counter == s.counter && t in n.workers
            && n.workers[t] == Worker(PhaseAfter(s, t, answered, pick), s.workers[t].job)
  {
    hide Head, Abort, Delete, EvidenceKnown, MustList, JobIds,
         RecordSession, RecordVersion, Finish, Reschedule, DelegatedRow.OwnsClaim;
  }

  lemma ObjectStepLeads(s: State, t: nat, answered: bool, applied: bool, pick: nat, delay: nat)
    requires t in s.workers && !AboutSessions(s.workers[t].phase)
    ensures var n := WorkStep(s, t, answered, applied, pick, delay);
            n.counter == s.counter && t in n.workers
            && n.workers[t] == Worker(PhaseAfter(s, t, answered, pick), s.workers[t].job)
  {
    hide Head, Abort, Delete, EvidenceKnown, MustList, JobIds,
         RecordSession, RecordVersion, Finish, Reschedule, DelegatedRow.OwnsClaim;
  }

  /** The world the procedure acts in: the stored row, everything else, and all that has happened. */
  class World {
    ghost const origin: State
    ghost var steps: seq<Step>
    const record: UploadRecord
    var state: State
    /** Nobody but the worker has acted. */
    ghost var quiet: bool
    /** Every call of the worker has been answered. */
    ghost var answered: bool

    constructor (origin: State)
      requires Inv(origin)
      ensures Valid() && state == origin && fresh(record)
    {
      this.origin, steps, state := origin, [], origin;
      quiet, answered := true, true;
      record := new UploadRecord.Load(origin.row);
      new;
      assert Run(origin, []) == origin;
    }

    /** Only protocol steps have happened, and the stored row is where they led. */
    ghost predicate Valid()
      reads this, record
    {
      Inv(origin) && state == Run(origin, steps) && record.Valid() && record.View() == state.row
    }

    ghost predicate Phase(t: nat, job: Row, phase: WorkerPhase)
      reads this, record
    {
      Valid() && t in state.workers && t < state.counter && state.workers[t] == Worker(phase, job)
    }

    lemma StateInv()
      requires Valid()
      ensures Inv(state)
    {
      RunInv(origin, steps);
    }

    /** A step has happened whose change of the row is already stored. */
    method Note(step: Step)
      requires Inv(origin) && state == Run(origin, steps) && record.Valid() && record.View() == Next(state, step).row
      modifies this`state, this`steps
      ensures Valid() && state == Next(old(state), step) && steps == old(steps) + [step]
    {
      RunAppends(origin, steps, step);
      steps := steps + [step];
      state := Next(state, step);
    }

    /** The transaction behind a writer's step. */
    method UpdateByWriter(step: Step)
      requires Valid() && (step.Validate? || step.RecordId? || step.Stage? || step.Fail?)
      modifies record
      ensures record.Valid() && record.View() == Next(state, step).row
    {
      hide Inv, DelegatedRow.BeforeMutation, DelegatedRow.RecordMultipart, DelegatedRow.CompleteTransfer,
           DelegatedRow.FailTransfer;
      if step.writer in state.writers {
        var t, w := step.writer, state.writers[step.writer];
        match step
        case Validate(_, _) =>
          if w.phase.Validating? && w.phase.start < state.now {
            var _ := record.BeforeMutation(t, w.leaseExpiresAt, state.now, state.timeout, Publishes(w.phase.kind));
          }
        case RecordId(_, _) =>
          if w.phase.Created? {
            var _ := record.RecordMultipart(t, w.leaseExpiresAt, state.now, w.phase.id);
          }
        case Stage(_, applied, _) =>
          if w.phase.Stored? && applied {
            var _ := record.CompleteTransfer(t, w.leaseExpiresAt, state.now, w.phase.obj);
          }
        case Fail(_) =>
          if w.phase.Dropped? {
            var _ := record.FailTransfer(t, state.now, state.timeout, w.session, w.stored);
          }
      }
    }

    /** The transaction behind a step of the interface or of the cleanup service. */
    method UpdateRow(step: Step)
      requires Valid() && !step.Work? && !step.Validate? && !step.RecordId? && !step.Stage? && !step.Fail?
      modifies record
      ensures record.Valid() && record.View() == Next(state, step).row
    {
      hide Inv, RotateCapability, Expire, Cancel, Sweep, DelegatedRow.ClaimTransfer, DelegatedRow.Commit,
           DelegatedRow.ClaimCleanup, Head, Effect, MayLand, Abort, Delete;
      match step
      case Reserve(capability) => record.Reserve(state.now, capability);
      case Query => record.Expire(state.now);
      case CancelRow => record.Cancel(state.now);
      case SweepRow => record.Sweep(state.now);
      case Transfer(capability, leaseSeconds) =>
        var _ := record.ClaimTransfer(state.now, capability, leaseSeconds, state.counter);
      case Publish(obj) =>
        if obj in state.confirmed {
          var _ := record.Commit(state.now, obj);
        }
      case ClaimJob(leaseMillis) =>
        var _ := record.ClaimCleanup(state.now, state.counter, leaseMillis);
      case _ =>
    }

    /** The transaction behind a cleanup worker's step. */
    method UpdateByWorker(t: nat, answered: bool, applied: bool, pick: nat, delay: nat)
      requires Valid()
      modifies record
      ensures record.Valid() && record.View() == WorkStep(state, t, answered, applied, pick, delay).row
    {
      hide WorkStep, Inv, DelegatedRow.RecordSession, DelegatedRow.RecordVersion, DelegatedRow.Finish,
           DelegatedRow.Reschedule;
      WorkersUpdate(state, t, answered, applied, pick, delay);
      if t in state.workers {
        match state.workers[t].phase
        case Recording(id, _) =>
          var _ := record.RecordSession(t, state.now, id);
        case Versioning(seen) =>
          var _ := record.RecordVersion(t, state.now, seen);
        case Finishing =>
          var _ := record.Finish(t, state.now);
        case Deferred =>
          record.Reschedule(t, state.now, delay);
        case _ =>
      }
    }

    /** One step of the protocol. */
    method Take(step: Step)
      requires Valid()
      modifies this`state, this`steps, record
      ensures Valid() && state == Next(old(state), step) && steps == old(steps) + [step]
    {
      if step.Work? {
        UpdateByWorker(step.worker, step.answered, step.applied, step.pick, step.delay);
      } else if step.Validate? || step.RecordId? || step.Stage? || step.Fail? {
        UpdateByWriter(step);
      } else {
        UpdateRow(step);
      }
      Note(step);
    }

    /** Writers, sweepers, other workers, the provider and the clock go on. */
    method Others(t: nat, job: Row, phase: WorkerPhase)
      requires Phase(t, job, phase)
      modifies this`state, this`steps, this`quiet, record
      ensures Phase(t, job, phase)
      ensures quiet ==> old(quiet) && state == old(state)
    {
      var count: nat :| count >= 0;
      for i := 0 to count
        invariant Phase(t, job, phase)
        invariant quiet ==> old(quiet) && state == old(state)
      {
        var step: Step := *;
        if !(step.Work? && step.worker == t) {
          quiet := false;
          OthersLeaveWorker(state, step, t);
          Take(step);
        }
      }
    }

    /** Whether the next call is answered. */
    method Hear() returns (heard: bool)
      modifies this`answered
      ensures answered == (old(answered) && heard)
    {
      heard := *;
      answered := answered && heard;
    }

    /** Takes a due quarantined row that nobody holds. Unanswered, it may have. */
    method Claim(leaseMillis: nat) returns (claimed: Result<Option<(nat, Row)>, ()>)
      requires Valid()
      modifies this`state, this`steps, this`answered, record
      ensures Valid() && (claimed.Err? ==> !answered) && (answered ==> old(answered))
      ensures claimed.Ok? ==>
                match ClaimCleanup(old(state.row), old(state.now), old(state.counter), leaseMillis)
                case None => claimed.value == None && state == old(state)
                case Some(job) =>
                  && claimed.value == Some((old(state.counter), job))
                  && Phase(old(state.counter), job, Starting) && state == Next(old(state), ClaimJob(leaseMillis))
    {
      var heard := Hear();
      var reached: bool := *;
      if !heard && !reached {
        return Err(());
      }
      var t := state.counter;
      var found := record.ClaimCleanup(state.now, t, leaseMillis);
      Note(ClaimJob(leaseMillis));
      return if !heard then Err(()) else Ok(if found then Some((t, record.View())) else None);
    }

    /** Whether the claim is still live; `None` when the database does not answer. */
    method OwnsClaim(t: nat, job: Row, phase: WorkerPhase, pick: nat) returns (owns: Option<bool>)
      requires Phase(t, job, phase)
      requires phase.Starting? || phase.Checking? || (phase.NextAbort? && pick in phase.todo)
      modifies this, record
      ensures owns != Some(true) ==> Phase(t, job, WorkerPhase.Deferred)
      ensures owns == Some(true) ==>
                Phase(t, job, match phase
                              case Starting => if MustList(job) then Listing else Checking(false)
                              case Checking(known) => Heading(known)
                              case NextAbort(todo, known) => Aborting(pick, todo, known)
                              case _ => phase)
      ensures owns.None? ==> !answered
      ensures quiet && owns.Some? ==>
                && old(quiet) && owns.value == DelegatedRow.OwnsClaim(old(state.row), t, old(state.now))
                && state == Undisturbed(old(state), t, pick)
    {
      hide Inv, RowInv, Next, Head, MustList, JobIds, EvidenceKnown, DelegatedRow.RecordSession,
           DelegatedRow.RecordVersion, DelegatedRow.Finish;
      Others(t, job, phase);
      var heard := Hear();
      var live := DelegatedRow.OwnsClaim(record.View(), t, state.now);
      StepLeads(state, t, heard, true, pick, 0);
      Take(Work(t, heard, true, pick, 0));
      return if heard then Some(live) else None;
    }

    /** All sessions of the key, and the first of them. */
    method ListSessions(t: nat, job: Row) returns (sessions: Option<set<nat>>, first: nat)
      requires Phase(t, job, Listing)
      modifies this, record
      ensures sessions.None? ==> Phase(t, job, WorkerPhase.Deferred) && !answered
      ensures sessions.Some? ==>
                && (sessions.value != {} ==> first in sessions.value)
                && Phase(t, job,
                         if job.sessionId.None? && sessions.value != {} then Recording(first, sessions.value)
                         else NextAbort(sessions.value + JobIds(job), job.sessionId.Some?))
      ensures quiet && sessions.Some? ==>
                && old(quiet) && sessions.value == old(state.provider.sessions)
                && state == Undisturbed(old(state), t, first)
    {
      hide Inv, RowInv, Next, PhaseAfter, JobIds;
      Others(t, job, Listing);
      var heard := Hear();
      var found := state.provider.sessions;
      first := 0;
      if found != {} {
        first :| first in found;
      }
      StepLeads(state, t, heard, true, first, 0);
      ListingLeads(state, t, heard, first);
      Take(Work(t, heard, true, first, 0));
      sessions := if heard then Some(found) else None;
    }

    /** Records a discovered session, if the claim is live and none was recorded. Unanswered, it may have. */
    method RecordSession(t: nat, job: Row, id: nat, todo: set<nat>) returns (recorded: Option<bool>)
      requires Phase(t, job, Recording(id, todo))
      modifies this, record
      ensures Valid() && (recorded.None? ==> !answered)
      ensures recorded == Some(true) ==> Phase(t, job, NextAbort(todo, true))
      ensures recorded == Some(false) ==> Phase(t, job, WorkerPhase.Deferred)
      ensures quiet && recorded.Some? ==>
                && old(quiet) && state == Undisturbed(old(state), t, 0)
                && (recorded.value <==> DelegatedRow.RecordSession(old(state.row), t, old(state.now), id).Some?)
    {
      hide Inv, RowInv, Next, Head, MustList, JobIds, EvidenceKnown, DelegatedRow.RecordSession,
           DelegatedRow.RecordVersion, DelegatedRow.Finish;
      Others(t, job, Recording(id, todo));
      var heard := Hear();
      var reached: bool := *;
      if !heard && !reached {
        return None;
      }
      var updated := DelegatedRow.RecordSession(record.View(), t, state.now, id).Some?;
      StepLeads(state, t, heard, true, 0, 0);
      Take(Work(t, heard, true, 0, 0));
      return if heard then Some(updated) else None;
    }

    method AbortSession(t: nat, job: Row, id: nat, todo: set<nat>, known: bool) returns (ok: bool)
      requires Phase(t, job, Aborting(id, todo, known))
      modifies this, record
      ensures Phase(t, job, if ok then Confirming(id, todo, known) else WorkerPhase.Deferred)
      ensures !ok ==> !answered
      ensures quiet && ok ==> old(quiet) && state == Undisturbed(old(state), t, 0)
    {
      hide Inv, RowInv, Next, Head, MustList, JobIds, EvidenceKnown, DelegatedRow.RecordSession,
           DelegatedRow.RecordVersion, DelegatedRow.Finish;
      Others(t, job, Aborting(id, todo, known));
      ok := Hear();
      var applied: bool := *;
      StepLeads(state, t, ok, ok || applied, 0, 0);
      Take(Work(t, ok, ok || applied, 0, 0));
    }

    method SessionIsEmpty(t: nat, job: Row, id: nat, todo: set<nat>, known: bool) returns (confirmed: bool)
      requires Phase(t, job, Confirming(id, todo, known))
      modifies this, record
      ensures Phase(t, job, if confirmed then NextAbort(todo - {id}, known) else WorkerPhase.Deferred)
      ensures quiet && answered ==>
                && old(quiet) && state == Undisturbed(old(state), t, 0)
                && (confirmed <==> id !in old(state.provider.parts))
      ensures quiet && confirmed ==> old(quiet) && state == Undisturbed(old(state), t, 0)
    {
      hide Inv, RowInv, Next, Head, MustList, JobIds, EvidenceKnown, DelegatedRow.RecordSession,
           DelegatedRow.RecordVersion, DelegatedRow.Finish;
      Others(t, job, Confirming(id, todo, known));
      var heard := Hear();
      confirmed := heard && id !in state.provider.parts;
      StepLeads(state, t, heard, true, 0, 0);
      Take(Work(t, heard, true, 0, 0));
    }

    /** The worker has no session left to abort. */
    method SessionsDone(t: nat, job: Row, known: bool)
      requires Phase(t, job, NextAbort({}, known))
      modifies this`state, this`steps, record
      ensures Phase(t, job, Checking(known)) && state == Undisturbed(old(state), t, 0)
    {
      hide Inv, RowInv, Next, Head, MustList, JobIds, EvidenceKnown, DelegatedRow.RecordSession,
           DelegatedRow.RecordVersion, DelegatedRow.Finish;
      StepLeads(state, t, true, true, 0, 0);
      Take(Work(t, true, true, 0, 0));
    }

    method HeadObject(t: nat, job: Row, known: bool) returns (r: Lookup)
      requires Phase(t, job, Heading(known))
      modifies this, record
      ensures Phase(t, job,
                    match r
                    case Found(o) => Versioning(o)
                    case NotFound =>
                      if EvidenceKnown(job) || (!job.completionStarted && known) then Finishing
                      else WorkerPhase.Deferred
                    case Unanswered => WorkerPhase.Deferred)
      ensures r.Unanswered? ==> !answered
      ensures quiet && !r.Unanswered? ==>
                && old(quiet) && state == Undisturbed(old(state), t, 0)
                && (r.Found? <==> Head(old(state.provider), job.version).Some?)
    {
      hide Inv, RowInv, Next, Head, MustList, JobIds, EvidenceKnown, DelegatedRow.RecordSession,
           DelegatedRow.RecordVersion, DelegatedRow.Finish;
      Others(t, job, Heading(known));
      var heard := Hear();
      var found := Head(state.provider, job.version);
      StepLeads(state, t, heard, true, 0, 0);
      Take(Work(t, heard, true, 0, 0));
      return if !heard then Unanswered else if found.Some? then Found(found.value) else NotFound;
    }

    method RecordVersion(t: nat, job: Row, seen: Object) returns (recorded: Option<bool>)
      requires Phase(t, job, Versioning(seen))
      modifies this, record
      ensures Valid() && (recorded.None? ==> !answered)
      ensures recorded == Some(true) ==> Phase(t, job, Deleting(Coalesce(seen.version, job.version)))
      ensures recorded == Some(false) ==> Phase(t, job, WorkerPhase.Deferred)
      ensures quiet && recorded.Some? ==>
                && old(quiet) && state == Undisturbed(old(state), t, 0)
                && (recorded.value <==> DelegatedRow.RecordVersion(old(state.row), t, old(state.now), seen).Some?)
    {
      hide Inv, RowInv, Next, Head, MustList, JobIds, EvidenceKnown, DelegatedRow.RecordSession,
           DelegatedRow.RecordVersion, DelegatedRow.Finish;
      Others(t, job, Versioning(seen));
      var heard := Hear();
      var reached: bool := *;
      if !heard && !reached {
        return None;
      }
      var updated := DelegatedRow.RecordVersion(record.View(), t, state.now, seen).Some?;
      StepLeads(state, t, heard, true, 0, 0);
      Take(Work(t, heard, true, 0, 0));
      return if heard then Some(updated) else None;
    }

    method DeleteObject(t: nat, job: Row, version: Option<nat>) returns (ok: bool)
      requires Phase(t, job, Deleting(version))
      modifies this, record
      ensures Phase(t, job, if ok then Verifying(version) else WorkerPhase.Deferred)
      ensures !ok ==> !answered
      ensures quiet && ok ==> old(quiet) && state == Undisturbed(old(state), t, 0)
    {
      hide Inv, RowInv, Next, Head, MustList, JobIds, EvidenceKnown, DelegatedRow.RecordSession,
           DelegatedRow.RecordVersion, DelegatedRow.Finish;
      Others(t, job, Deleting(version));
      ok := Hear();
      var applied: bool := *;
      StepLeads(state, t, ok, ok || applied, 0, 0);
      Take(Work(t, ok, ok || applied, 0, 0));
    }

    method HeadAgain(t: nat, job: Row, version: Option<nat>) returns (r: Lookup)
      requires Phase(t, job, Verifying(version))
      modifies this, record
      ensures Phase(t, job, if r.NotFound? then Finishing else WorkerPhase.Deferred)
      ensures r.Unanswered? ==> !answered
      ensures quiet && !r.Unanswered? ==>
                && old(quiet) && state == Undisturbed(old(state), t, 0)
                && (r.Found? <==> Head(old(state.provider), version).Some?)
    {
      hide Inv, RowInv, Next, Head, MustList, JobIds, EvidenceKnown, DelegatedRow.RecordSession,
           DelegatedRow.RecordVersion, DelegatedRow.Finish;
      Others(t, job, Verifying(version));
      var heard := Hear();
      var found := Head(state.provider, version);
      StepLeads(state, t, heard, true, 0, 0);
      Take(Work(t, heard, true, 0, 0));
      return if !heard then Unanswered else if found.Some? then Found(found.value) else NotFound;
    }

    /** Ends the quarantine, if the claim is live. An unanswered update may or may not have. */
    method FinishRow(t: nat, job: Row) returns (finished: Option<bool>)
      requires Phase(t, job, Finishing)
      modifies this, record
      ensures Valid() && (finished.None? ==> !answered)
      ensures finished == Some(true) ==> Finished(state.row.status) && Empty(state.provider)
      ensures finished == Some(false) ==> Phase(t, job, WorkerPhase.Deferred)
      ensures quiet && finished.Some? ==>
                old(quiet) && (finished.value <==> DelegatedRow.OwnsClaim(old(state.row), t, old(state.now)))
    {
      hide Inv, RowInv, Next, PhaseAfter, DelegatedRow.OwnsClaim, Run, Empty, Finished;
      Others(t, job, Finishing);
      var heard := Hear();
      var reached: bool := *;
      if !heard && !reached {
        return None;
      }
      var updated := DelegatedRow.OwnsClaim(record.View(), t, state.now);
      FinishStep(state, t);
      Take(Work(t, true, true, 0, 0));
      if updated {
        StateInv();
        FinishedIsEmpty(state, t);
      }
      return if heard then Some(updated) else None;
    }

    /**
     * Gives the claim back, if it is still this worker's, and has the row wait. The update is
     * the last step; unanswered, it may not have been made.
     */
    method RescheduleRow(t: nat, job: Row, delay: nat) returns (heard: bool)
      requires Phase(t, job, WorkerPhase.Deferred)
      modifies this, record
      ensures Valid() && (!heard ==> !answered) && (quiet ==> old(quiet)) && (answered ==> old(answered))
      ensures heard ==> Phase(t, job, Ended) && Rescheduled(t, delay)
    {
      hide Inv, RowInv, Next, Run, Head, MustList, JobIds, EvidenceKnown, DelegatedRow.RecordSession,
           DelegatedRow.RecordVersion, DelegatedRow.Finish;
      Others(t, job, WorkerPhase.Deferred);
      heard := Hear();
      var reached: bool := *;
      if !heard && !reached {
        return;
      }
      ghost var before := state;
      ClaimMeansPending(record.View());
      StepLeads(state, t, true, true, 0, delay);
      RescheduleStep(state, t, delay);
      ghost var earlier := steps;
      Take(Work(t, true, true, 0, delay));
      assert steps[..|steps| - 1] == earlier && before == Run(origin, earlier);
    }

    /**
     * Worker `t` has given up its claim: it holds none, and if it held one until now, nobody
     * does, no lease runs, and the row may be claimed again when the delay is over.
     */
    ghost predicate Rescheduled(t: nat, delay: nat)
      reads this
    {
      && state.row.cleanupToken != Some(t)
      && |steps| > 0
      && var before := Run(origin, steps[..|steps| - 1]);
         if before.row.status.CleanupPending? && before.row.cleanupToken == Some(t)
         then state.row == before.row.(cleanupToken := None, cleanupLeaseExpiresAt := None,
                                       cleanupAfter := Some(before.now + delay))
         else state.row == before.row
    }
  }

  lemma ListingLeads(s: State, t: nat, answered: bool, first: nat)
    requires t in s.workers && s.workers[t].phase.Listing?
    requires s.provider.sessions != {} ==> first in s.provider.sessions
    ensures var job, found := s.workers[t].job, s.provider.sessions;
            PhaseAfter(s, t, answered, first) ==
            if !answered then WorkerPhase.Deferred
            else if job.sessionId.None? && found != {} then Recording(first, found)
            else NextAbort(found + JobIds(job), job.sessionId.Some?)
  {
  }

  lemma FinishStep(s: State, t: nat)
    requires t in s.workers && s.workers[t].phase.Finishing?
    ensures var n, owns := Next(s, Work(t, true, true, 0, 0)), DelegatedRow.OwnsClaim(s.row, t, s.now);
            && n.counter == s.counter && t in n.workers
            && n.workers[t] == Worker(if owns then Ended else WorkerPhase.Deferred, s.workers[t].job)
            && (owns ==> Finished(n.row.status))
  {
    hide WorkStep;
    WorkersUpdate(s, t, true, true, 0, 0);
    StepLeads(s, t, true, true, 0, 0);
  }

  lemma RescheduleStep(s: State, t: nat, delay: nat)
    requires t in s.workers && s.workers[t].phase.Deferred?
    ensures Next(s, Work(t, true, true, 0, delay)).row == Reschedule(s.row, t, s.now, delay)
  {
    hide WorkStep;
    WorkersUpdate(s, t, true, true, 0, delay);
  }

  lemma ClaimMeansPending(r: Row)
    requires RowInv(r)
    ensures r.cleanupToken.Some? ==> r.status.CleanupPending?
  {
  }

  lemma FinishedIsEmpty(s: State, t: nat)
    requires Inv(s) && Finished(s.row.status) && t in s.workers
    ensures Empty(s.provider)
  {
    hide RowInv, InvHistory, InvCalls, InvProvider, InvEvidence, InvWriters, InvWorkers;
    assert s.workers != map[];
  }

  // ---- why a row is kept ---------------------------------------------------

  /** Nobody else has acted, and the worker's claim is live. */
  ghost predicate Calm(world: World, t: nat)
    reads world, world.record
  {
    world.quiet ==> Working(world.state, t)
  }

  /** What a sessions-and-object step leaves alone while nobody else acts. */
  predicate SameObjects(before: State, after: State) {
    before.provider.objects == after.provider.objects
  }

  /** An upload of more than 100 MiB, or one with a recorded session. */
  predicate MayHaveSessions(job: Row) {
    job.size > 104_857_600 || job.sessionId.Some?
  }

  /**
   * Every outcome but success has its cause: a call without an answer, somebody else's
   * doing, or, when neither is to blame, a provider that proves nothing.
   */
  ghost predicate Explained(outcome: Outcome, job: Row, start: State, quiet: bool, answered: bool) {
    match outcome
    case Cleaned => true
    case DatabaseError => !answered
    case Kept(CleanupLeaseLost) => !quiet
    case Kept(MultipartDiscoveryUnavailable) => !answered && MayHaveSessions(job)
    case Kept(MultipartAbortUnavailable) => !answered && MayHaveSessions(job)
    case Kept(MultipartPartsUnconfirmed) => !(quiet && answered) && MayHaveSessions(job)
    case Kept(ObjectDeletionUnconfirmed) => !quiet
    case Kept(ProviderOutcomeUnknown) =>
      && !EvidenceKnown(job) && (job.completionStarted || job.sessionId.None?)
      && (quiet ==> !Resolved(start, job, WillKnow(start, job)))
    case Kept(_) => !answered
  }

  /** A step of the calm worker keeps it calm. */
  lemma StaysCalm(s: State, t: nat, pick: nat)
    requires Working(s, t) && !s.workers[t].phase.Finishing? && !s.workers[t].phase.Deferred?
    ensures Working(Undisturbed(s, t, pick), t)
  {
    StepWorks(s, t, pick);
  }

  /** Until it deletes, the worker leaves the object and the marks alone. */
  lemma LooksOnly(s: State, t: nat, pick: nat)
    requires t in s.workers
    requires !s.workers[t].phase.Deleting?
    ensures SameObjects(s, Undisturbed(s, t, pick))
  {
    hide Head, EvidenceKnown, MustList, JobIds, Delete, RecordSession, RecordVersion, Finish, Reschedule,
         DelegatedRow.OwnsClaim;
  }

  /** What may go wrong while sessions are aborted. */
  ghost predicate AbortExplained(outcome: Outcome, quiet: bool, answered: bool) {
    match outcome
    case DatabaseError => !answered
    case Kept(CleanupLeaseLost) => !quiet
    case Kept(MultipartAbortUnavailable) => !answered
    case Kept(MultipartPartsUnconfirmed) => !(quiet && answered)
    case _ => false
  }

  /** Under a live claim, aborts one session and confirms that nothing of it is left. */
  method AbortOne(world: World, t: nat, job: Row, id: nat, todo: set<nat>, known: bool) returns (r: Result<(), Outcome>)
    requires world.Phase(t, job, NextAbort(todo, known)) && id in todo && Calm(world, t)
    modifies world, world.record
    ensures r.Ok? ==> world.Phase(t, job, NextAbort(todo - {id}, known))
    ensures r.Ok? && world.quiet ==>
              old(world.quiet) && Working(world.state, t) && SameObjects(old(world.state), world.state)
    ensures r.Err? ==> world.Valid() && AbortExplained(r.error, world.quiet, world.answered)
    ensures r.Err? && r.error.Kept? ==> world.Phase(t, job, WorkerPhase.Deferred)
  {
    hide Inv, Working, Undisturbed, Empty;
    ghost var s0 := world.state;
    if world.quiet {
      WorkingOwns(s0, t);
      StaysCalm(s0, t, id);
      LooksOnly(s0, t, id);
    }
    var owns := world.OwnsClaim(t, job, NextAbort(todo, known), id);
    if owns.None? {
      return Err(DatabaseError);
    }
    if !owns.value {
      return Err(Kept(CleanupLeaseLost));
    }
    ghost var s1 := world.state;
    if world.quiet {
      StaysCalm(s1, t, 0);
      LooksOnly(s1, t, 0);
      AbortedHasNoParts(s1, t);
    }
    var aborted := world.AbortSession(t, job, id, todo, known);
    if !aborted {
      return Err(Kept(MultipartAbortUnavailable));
    }
    ghost var s2 := world.state;
    if world.quiet {
      StaysCalm(s2, t, 0);
      LooksOnly(s2, t, 0);
    }
    var empty := world.SessionIsEmpty(t, job, id, todo, known);
    return if empty then Ok(()) else Err(Kept(MultipartPartsUnconfirmed));
  }

  /** Aborts every listed session and confirms that nothing of it is left. */
  method AbortSessions(world: World, t: nat, job: Row, sessions: set<nat>, known: bool) returns (r: Result<(), Outcome>)
    requires world.Phase(t, job, NextAbort(sessions, known)) && Calm(world, t)
    modifies world, world.record
    ensures r.Ok? ==> world.Phase(t, job, Checking(known))
    ensures r.Ok? && world.quiet ==>
              old(world.quiet) && Working(world.state, t) && SameObjects(old(world.state), world.state)
    ensures r.Err? ==> world.Valid() && AbortExplained(r.error, world.quiet, world.answered)
    ensures r.Err? && r.error.Kept? ==> world.Phase(t, job, WorkerPhase.Deferred)
  {
    hide Inv, Working, Undisturbed, Empty, AbortExplained;
    var todo := sessions;
    while todo != {}
      invariant world.Phase(t, job, NextAbort(todo, known)) && Calm(world, t)
      invariant world.quiet ==> old(world.quiet) && SameObjects(old(world.state), world.state)
      decreases |todo|
    {
      var id :| id in todo;
      r := AbortOne(world, t, job, id, todo, known);
      if r.Err? {
        return;
      }
      todo := todo - {id};
    }
    ghost var s := world.state;
    if world.quiet {
      StaysCalm(s, t, 0);
      LooksOnly(s, t, 0);
    }
    world.SessionsDone(t, job, known);
    return Ok(());
  }

  lemma WorkingOwns(s: State, t: nat)
    requires Working(s, t)
    ensures DelegatedRow.OwnsClaim(s.row, t, s.now)
  {
  }

  lemma AbortedHasNoParts(s: State, t: nat)
    requires t in s.workers && s.workers[t].phase.Aborting?
    ensures s.workers[t].phase.id !in Undisturbed(s, t, 0).provider.parts
  {
  }

  /** Deletes the object a lookup found, its version recorded first, and looks again. */
  method RemoveObject(world: World, t: nat, job: Row, seen: Object) returns (r: Result<(), Outcome>)
    requires world.Phase(t, job, Versioning(seen)) && Calm(world, t)
    modifies world, world.record
    ensures r.Ok? ==> world.Phase(t, job, Finishing)
    ensures world.Valid() && (r.Err? ==> !r.error.Cleaned?)
    ensures r.Err? && r.error.Kept? ==> world.Phase(t, job, WorkerPhase.Deferred)
    ensures r.Ok? && world.quiet ==> old(world.quiet) && Working(world.state, t)
    ensures r.Err? ==>
              match r.error
              case DatabaseError => !world.answered
              case Kept(CleanupLeaseLost) => !world.quiet
              case Kept(ObjectDeleteUnavailable) => !world.answered
              case Kept(ObjectHeadUnavailable) => !world.answered
              case Kept(ObjectDeletionUnconfirmed) => !world.quiet
              case _ => false
  {
    hide Inv, Working, Undisturbed, Empty, Head, Delete;
    ghost var s0 := world.state;
    if world.quiet { VersionIsRecorded(s0, t); StaysCalm(s0, t, 0); }
    var recorded := world.RecordVersion(t, job, seen);
    if recorded.None? {
      return Err(DatabaseError);
    }
    if !recorded.value {
      return Err(Kept(CleanupLeaseLost));
    }
    var version := Coalesce(seen.version, job.version);
    ghost var s1 := world.state;
    if world.quiet { StaysCalm(s1, t, 0); DeletionIsSeen(s1, t); }
    var deleted := world.DeleteObject(t, job, version);
    if !deleted {
      return Err(Kept(ObjectDeleteUnavailable));
    }
    ghost var s2 := world.state;
    if world.quiet { StaysCalm(s2, t, 0); }
    var again := world.HeadAgain(t, job, version);
    match again
    case NotFound => return Ok(());
    case Found(_) => return Err(Kept(ObjectDeletionUnconfirmed));
    case Unanswered => return Err(Kept(ObjectHeadUnavailable));
  }

  lemma DeletionIsSeen(s: State, t: nat)
    requires Working(s, t) && s.workers[t].phase.Deleting?
    ensures Head(Undisturbed(s, t, 0).provider, s.workers[t].phase.version).None?
  {
    hide Inv, Delete, Head;
    DeletedIsGone(s, t);
    HeadOfNothing(Delete(s.provider, s.workers[t].phase.version), s.workers[t].phase.version);
  }

  /** Finds, records and aborts the sessions of an upload that may have some. */
  method CleanSessions(world: World, t: nat, job: Row) returns (r: Result<bool, Outcome>)
    requires world.Phase(t, job, Listing) && Calm(world, t)
    requires world.quiet ==> world.state.row.sessionId == job.sessionId
    modifies world, world.record
    ensures r.Ok? ==> world.Phase(t, job, Checking(r.value)) && (job.sessionId.Some? ==> r.value)
    ensures r.Ok? && world.quiet ==>
              && old(world.quiet) && Working(world.state, t) && SameObjects(old(world.state), world.state)
              && r.value == WillKnow(old(world.state), job)
    ensures r.Err? ==>
              && world.Valid()
              && if r.error == Kept(MultipartDiscoveryUnavailable) then !world.answered
                 else AbortExplained(r.error, world.quiet, world.answered)
    ensures r.Err? && r.error.Kept? ==> world.Phase(t, job, WorkerPhase.Deferred)
  {
    hide Inv, Working, Undisturbed, Empty, EvidenceKnown;
    var known := job.sessionId.Some?;
    ghost var s0 := world.state;
    var sessions, first := world.ListSessions(t, job);
    if sessions.None? {
      return Err(Kept(MultipartDiscoveryUnavailable));
    }
    if world.quiet {
      StaysCalm(s0, t, first);
      LooksOnly(s0, t, first);
      ListingLeavesRow(s0, t, first);
    }
    var all := sessions.value;
    if !known && all != {} {
      ghost var s1 := world.state;
      if world.quiet { WorkingOwns(s1, t); StaysCalm(s1, t, 0); LooksOnly(s1, t, 0); }
      var recorded := world.RecordSession(t, job, first, all);
      if recorded.None? {
        return Err(DatabaseError);
      }
      if !recorded.value {
        return Err(Kept(CleanupLeaseLost));
      }
      known := true;
    }
    if job.sessionId.Some? {
      all := all + {job.sessionId.value};
    }
    assert all == sessions.value + JobIds(job);
    var aborted := AbortSessions(world, t, job, all, known);
    if aborted.Err? {
      return Err(aborted.error);
    }
    return Ok(known);
  }

  lemma ListingLeavesRow(s: State, t: nat, pick: nat)
    requires t in s.workers && (s.workers[t].phase.Starting? || s.workers[t].phase.Listing?)
    ensures Undisturbed(s, t, pick).row == s.row && Undisturbed(s, t, pick).provider == s.provider
  {
  }

  /** Looks for the object, and removes it when it is there. */
  method ConfirmGone(world: World, t: nat, job: Row, known: bool) returns (r: Result<(), Outcome>)
    requires world.Phase(t, job, Heading(known)) && Calm(world, t)
    modifies world, world.record
    ensures r.Ok? ==> world.Phase(t, job, Finishing)
    ensures world.Valid() && (r.Err? ==> !r.error.Cleaned?)
    ensures r.Err? && r.error.Kept? ==> world.Phase(t, job, WorkerPhase.Deferred)
    ensures r.Ok? && world.quiet ==> old(world.quiet) && Working(world.state, t)
    ensures r.Err? ==>
              match r.error
              case DatabaseError => !world.answered
              case Kept(CleanupLeaseLost) => !world.quiet
              case Kept(ObjectDeleteUnavailable) => !world.answered
              case Kept(ObjectHeadUnavailable) => !world.answered
              case Kept(ObjectDeletionUnconfirmed) => !world.quiet
              case Kept(ProviderOutcomeUnknown) =>
                && !EvidenceKnown(job) && (job.completionStarted || !known)
                && (world.quiet ==> old(world.quiet) && old(world.state.provider.objects) == [])
              case _ => false
  {
    hide Inv, EvidenceKnown, Working, Undisturbed, Empty, Head;
    var evidenceKnown := EvidenceKnown(job);
    ghost var s0 := world.state;
    if world.quiet {
      StaysCalm(s0, t, 0);
      LookupFinds(s0, t);
    }
    var found := world.HeadObject(t, job, known);
    match found {
      case Found(seen) =>
        r := RemoveObject(world, t, job, seen);
      case NotFound =>
        if !(evidenceKnown || (!job.completionStarted && known)) {
          return Err(Kept(ProviderOutcomeUnknown));
        }
        return Ok(());
      case Unanswered =>
        return Err(Kept(ObjectHeadUnavailable));
    }
  }

  /** Under a live claim, makes sure the object is gone and ends the row. */
  method CleanObject(world: World, t: nat, job: Row, known: bool) returns (outcome: Outcome)
    requires world.Phase(t, job, Checking(known)) && Calm(world, t)
    modifies world, world.record
    ensures world.Valid()
    ensures outcome.Cleaned? ==> Finished(world.state.row.status) && Empty(world.state.provider)
    ensures outcome.Kept? ==> world.Phase(t, job, WorkerPhase.Deferred)
    ensures match outcome
            case Cleaned => true
            case DatabaseError => !world.answered
            case Kept(CleanupLeaseLost) => !world.quiet
            case Kept(ObjectDeleteUnavailable) => !world.answered
            case Kept(ObjectHeadUnavailable) => !world.answered
            case Kept(ObjectDeletionUnconfirmed) => !world.quiet
            case Kept(ProviderOutcomeUnknown) =>
              && !EvidenceKnown(job) && (job.completionStarted || !known)
              && (world.quiet ==> old(world.quiet) && old(world.state.provider.objects) == [])
            case _ => false
  {
    hide Inv, EvidenceKnown, Working, Undisturbed, Empty;
    ghost var s0 := world.state;
    if world.quiet {
      WorkingOwns(s0, t);
      StaysCalm(s0, t, 0);
      LooksOnly(s0, t, 0);
    }
    var owns := world.OwnsClaim(t, job, Checking(known), 0);
    if owns.None? {
      return DatabaseError;
    }
    if !owns.value {
      return Kept(CleanupLeaseLost);
    }
    var gone := ConfirmGone(world, t, job, known);
    if gone.Err? {
      return gone.error;
    }
    ghost var s1 := world.state;
    if world.quiet {
      WorkingOwns(s1, t);
    }
    var finished := world.FinishRow(t, job);
    if finished.None? {
      return DatabaseError;
    }
    return if finished.value then Cleaned else Kept(CleanupLeaseLost);
  }

  lemma LookupFinds(s: State, t: nat)
    requires Working(s, t)
    ensures s.provider.objects != [] ==> Head(s.provider, s.workers[t].job.version).Some?
  {
    hide Inv, Head;
    if s.provider.objects != [] {
      HeadFindsObject(s, t);
    }
  }

  /**
   * Cleans one claimed row. When it reports success, the row has ended and the provider
   * holds nothing for its key, whatever everyone else did between its calls. When it does
   * not, `Explained` says why.
   */
  method Clean(world: World, t: nat, job: Row) returns (outcome: Outcome)
    requires world.Phase(t, job, Starting) && Calm(world, t)
    requires world.quiet ==> world.state.row.sessionId == job.sessionId
    modifies world, world.record
    ensures world.Valid()
    ensures outcome.Cleaned? ==> Finished(world.state.row.status) && Empty(world.state.provider)
    ensures outcome.Kept? ==> world.Phase(t, job, WorkerPhase.Deferred)
    ensures Explained(outcome, job, old(world.state), world.quiet, world.answered)
  {
    hide Inv, MustList, EvidenceKnown, Working, Undisturbed, Empty;
    ghost var start := world.state;
    if world.quiet {
      WorkingOwns(start, t);
      StaysCalm(start, t, 0);
      LooksOnly(start, t, 0);
      ListingLeavesRow(start, t, 0);
    }
    var owns := world.OwnsClaim(t, job, Starting, 0);
    if owns.None? {
      return DatabaseError;
    }
    if !owns.value {
      return Kept(CleanupLeaseLost);
    }
    var known := job.sessionId.Some?;
    if MustList(job) {
      LargeJob(job);
      var cleaned := CleanSessions(world, t, job);
      if cleaned.Err? {
        return cleaned.error;
      }
      known := cleaned.value;
    } else {
      SmallJob(job);
      if world.quiet {
        QuietSmallJob(start, t);
      }
    }
    outcome := CleanObject(world, t, job, known);
  }

  lemma LargeJob(job: Row)
    requires MustList(job)
    ensures MayHaveSessions(job)
  {
  }

  lemma SmallJob(job: Row)
    requires !MustList(job)
    ensures job.sessionId.None?
  {
  }

  lemma QuietSmallJob(s: State, t: nat)
    requires Working(s, t) && !MustList(s.workers[t].job)
    ensures !WillKnow(s, s.workers[t].job)
  {
    SmallHasNoSession(s, t);
  }

  /** Something shows what became of the upload. */
  predicate Resolvable(s: State) {
    Resolved(s, s.row, WillKnow(s, s.row))
  }

  /** The claim copies the row and nothing else, so what is known stays known. */
  lemma ClaimKeepsResolvable(s: State, leaseMillis: nat)
    requires Inv(s) && leaseMillis > 0 && ClaimCleanup(s.row, s.now, s.counter, leaseMillis).Some?
    ensures var n, t := Next(s, ClaimJob(leaseMillis)), s.counter;
            && t in n.workers && Working(n, t) && n.row == n.workers[t].job
            && (Resolvable(s) ==> Resolved(n, n.row, WillKnow(n, n.row)))
  {
    hide Inv;
    NextInv(s, ClaimJob(leaseMillis));
  }

  /**
   * One row of a batch: claim it, clean it, and give the claim back when that did not succeed.
   * While nobody else acts and every call is answered, the row ends whenever something
   * shows what became of the upload.
   */
  method ProcessOne(world: World, leaseMillis: nat, delay: nat) returns (outcome: Option<Outcome>)
    requires world.Valid() && leaseMillis > 0
    modifies world, world.record
    ensures world.Valid() && Inv(world.state)
    ensures outcome.None? ==> ClaimCleanup(old(world.state.row), old(world.state.now), 0, leaseMillis).None?
    ensures outcome == Some(Cleaned) ==> Finished(world.state.row.status) && Empty(world.state.provider)
    ensures outcome == Some(DatabaseError) ==> !world.answered
    ensures outcome.Some? && outcome.value.Kept? ==>
              var t := old(world.state.counter);
              && t in world.state.workers && world.state.workers[t].phase.Ended?
              && world.Rescheduled(t, delay)
    ensures outcome.Some? && world.quiet && world.answered ==>
              || outcome == Some(Cleaned)
              || (outcome == Some(Kept(ProviderOutcomeUnknown)) && !Resolvable(old(world.state)))
  {
    hide Inv, Working, Resolved, WillKnow, Resolvable, ClaimJobStep, Empty;
    world.quiet, world.answered := true, true;
    world.StateInv();
    ghost var start := world.state;
    var claimed := world.Claim(leaseMillis);
    if claimed.Err? {
      world.StateInv();
      return Some(DatabaseError);
    }
    if claimed.value.None? {
      return None;
    }
    ClaimKeepsResolvable(start, leaseMillis);
    var (t, job) := claimed.value.value;
    var result := Clean(world, t, job);
    world.StateInv();
    if result.Kept? {
      var heard := world.RescheduleRow(t, job, delay);
      world.StateInv();
      if !heard {
        return Some(DatabaseError);
      }
    }
    return Some(result);
  }
}
