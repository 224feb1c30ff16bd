/**
 * Several attempts at one restore. An attempt that does not give its reservation back
 * leaves its destination key to whoever finds the lease over and claims the reservation
 * again, while cleanups of the first attempt may still be at work at that key.
 *
 * Everything stored at a key is a copy of one source version, so a copy is named by the
 * provider's version of it alone, `None` where the bucket keeps no versions.
 */
module RestoreAttempts {
  import opened Wrappers
  import P = ContentPublication

  type Version = Option<nat>

  /** The idempotency record: claimed, it reserves a destination key and is locked until its lease ends. */
  datatype Record = Free | Claimed(key: nat, until: int) | Completed

  datatype Phase =
    | Copying                       // the destination is looked up, or the copy runs
    | Stored(version: Version)      // the copy came back; the publication guard knows its version
    | Failing(version: Version)     // compensating; the reservation is given back last
    | Ended

  /** `until` is the lease as this attempt last set it. */
  datatype Attempt = Attempt(key: nat, until: int, phase: Phase)

  datatype Work = Looking | Deleting(version: Version) | Over

  /**
   * A guard's cleanup, awaited or spawned: it looks up a version it does not know, then
   * deletes it. It is over only when that deletion can no longer take effect.
   */
  datatype Cleanup = Cleanup(key: nat, until: int, work: Work)

  datatype State = State(
    now: int,
    record: Record,
    attempts: map<nat, Attempt>,
    cleanups: map<nat, Cleanup>,
    contents: map<nat, set<Version>>,
    published: Option<(nat, Version)>,
    counter: nat)

  function Init(now: int): State {
    State(now, Free, map[], map[], map[], None, 0)
  }

  function At(s: State, key: nat): set<Version> {
    if key in s.contents then s.contents[key] else {}
  }

  predicate OnRecord(s: State, key: nat) {
    s.record.Claimed? && s.record.key == key
  }

  // ---- steps -------------------------------------------------------------

  datatype CommitReply = Accepted | Refused | Unanswered(applied: bool)

  datatype Step =
    | Tick(elapsed: nat)
    | Claim
    | Purge
    | Renew(attempt: nat)
    | Adopt(attempt: nat, version: Version)      // a matching copy is already there
    | Discard(attempt: nat, version: Version)    // one that does not match is deleted first
    | Write(attempt: nat, version: Version)
    | LandLate(key: nat, version: Version)       // a write that was never answered
    | Fail(attempt: nat)                         // the copy failed, or was given up
    | Cancel(attempt: nat)
    | Commit(attempt: nat, reply: CommitReply)
    | CancelCommit(attempt: nat, applied: bool)
    | Release(attempt: nat, applied: bool)
    | Stop(attempt: nat)                         // the process ended
    | StopCleanup(cleanup: nat)
    | Look(cleanup: nat, version: Version)
    | Remove(cleanup: nat, applied: bool)

  function SetPhase(s: State, a: nat, phase: Phase): State
    requires a in s.attempts
  {
    s.(attempts := s.attempts[a := s.attempts[a].(phase := phase)])
  }

  function SetWork(s: State, c: nat, work: Work): State
    requires c in s.cleanups
  {
    s.(cleanups := s.cleanups[c := s.cleanups[c].(work := work)])
  }

  function WorkFor(version: Version): Work {
    if version.Some? then Deleting(version) else Looking
  }

  /** A guard of attempt `a` starts to clean up. */
  function Spawn(s: State, a: nat, version: Version): State
    requires a in s.attempts
  {
    s.(counter := s.counter + 1,
       cleanups := s.cleanups[s.counter := Cleanup(s.attempts[a].key, s.attempts[a].until, WorkFor(version))])
  }

  function Add(s: State, key: nat, version: Version): State {
    s.(contents := s.contents[key := At(s, key) + {version}])
  }

  function Take(s: State, key: nat, version: Version): State {
    s.(contents := s.contents[key := At(s, key) - {version}])
  }

  /** A free record gets a fresh key; a lapsed one passes its key on. */
  function ClaimStep(s: State): State {
    var until := s.now + P.RESTORE_LEASE;
    match s.record
    case Completed => s
    case Free =>
      s.(record := Claimed(s.counter, until), counter := s.counter + 2,
         attempts := s.attempts[s.counter + 1 := Attempt(s.counter, until, Copying)])
    case Claimed(key, lease) =>
      if lease > s.now then s
      else
        s.(record := Claimed(key, until), counter := s.counter + 1,
           attempts := s.attempts[s.counter := Attempt(key, until, Copying)])
  }

  /** Whoever holds the record now, a renewal extends it. */
  function RenewStep(s: State, a: nat): State {
    if a !in s.attempts || !s.attempts[a].phase.Copying? || !s.record.Claimed? then s
    else
      var until := s.now + P.RESTORE_LEASE;
      s.(record := s.record.(until := until), attempts := s.attempts[a := s.attempts[a].(until := until)])
  }

  function CopyStep(s: State, step: Step): State
    requires step.Adopt? || step.Discard? || step.Write?
  {
    var a, v := step.attempt, step.version;
    if a !in s.attempts || !s.attempts[a].phase.Copying? then s
    else if step.Write? then SetPhase(Add(s, s.attempts[a].key, v), a, Stored(v))
    else if v !in At(s, s.attempts[a].key) then s
    else if step.Adopt? then SetPhase(s, a, Stored(v))
    else Take(s, s.attempts[a].key, v)
  }

  /** The publication guard and the guard of the dropped copy each clean up. */
  function FailStep(s: State, a: nat): State {
    if a !in s.attempts || !s.attempts[a].phase.Copying? then s
    else SetPhase(Spawn(Spawn(s, a, None), a, None), a, Failing(None))
  }

  function CancelStep(s: State, a: nat): State {
    if a !in s.attempts then s
    else
      match s.attempts[a].phase
      case Copying => SetPhase(Spawn(Spawn(s, a, None), a, None), a, Ended)
      case Stored(v) => SetPhase(Spawn(s, a, v), a, Ended)
      case Failing(v) => SetPhase(Spawn(s, a, v), a, Ended)
      case Ended => s
  }

  /** The transaction tests only that the record is in progress, not for whom. */
  function Published(s: State, a: nat, version: Version, applied: bool): State
    requires a in s.attempts
  {
    if applied && s.record.Claimed?
    then s.(record := Completed, published := Some((s.attempts[a].key, version))) else s
  }

  function CommitStep(s: State, a: nat, reply: CommitReply): State {
    if a !in s.attempts || !s.attempts[a].phase.Stored? then s
    else
      var v := s.attempts[a].phase.version;
      if reply.Refused? || (reply.Accepted? && !s.record.Claimed?) then SetPhase(Spawn(s, a, v), a, Failing(v))
      else SetPhase(Published(s, a, v, reply.Accepted? || reply.applied), a, Ended)
  }

  /** The request is cancelled while its commit is unanswered: its guard is still armed. */
  function CancelCommitStep(s: State, a: nat, applied: bool): State {
    if a !in s.attempts || !s.attempts[a].phase.Stored? then s
    else
      var v := s.attempts[a].phase.version;
      SetPhase(Spawn(Published(s, a, v, applied), a, v), a, Ended)
  }

  /** Deletes whatever claim the record holds. */
  function ReleaseStep(s: State, a: nat, applied: bool): State {
    if a !in s.attempts || !s.attempts[a].phase.Failing? then s
    else SetPhase(if applied && s.record.Claimed? then s.(record := Free) else s, a, Ended)
  }

  function LookStep(s: State, c: nat, version: Version): State {
    if c !in s.cleanups || !s.cleanups[c].work.Looking? then s
    else SetWork(s, c, if version in At(s, s.cleanups[c].key) then Deleting(version) else Over)
  }

  function RemoveStep(s: State, c: nat, applied: bool): State {
    if c !in s.cleanups || !s.cleanups[c].work.Deleting? then s
    else SetWork(if applied then Take(s, s.cleanups[c].key, s.cleanups[c].work.version) else s, c, Over)
  }

  function Next(s: State, step: Step): State {
    match step
    case Tick(elapsed) => s.(now := s.now + elapsed)
    case Claim => ClaimStep(s)
    case Purge => if s.record.Claimed? && s.record.until <= s.now then s.(record := Free) else s
    case Renew(a) => RenewStep(s, a)
    case Adopt(_, _) => CopyStep(s, step)
    case Discard(_, _) => CopyStep(s, step)
    case Write(_, _) => CopyStep(s, step)
    case LandLate(key, v) => if key < s.counter then Add(s, key, v) else s
    case Fail(a) => FailStep(s, a)
    case Cancel(a) => CancelStep(s, a)
    case Commit(a, reply) => CommitStep(s, a, reply)
    case CancelCommit(a, applied) => CancelCommitStep(s, a, applied)
    case Release(a, applied) => ReleaseStep(s, a, applied)
    case Stop(a) => if a in s.attempts then SetPhase(s, a, Ended) else s
    case StopCleanup(c) => if c in s.cleanups then SetWork(s, c, Over) else s
    case Look(c, v) => LookStep(s, c, v)
    case Remove(c, applied) => RemoveStep(s, c, applied)
  }

  function Run(s: State, steps: seq<Step>): State
    decreases |steps|
  {
    if steps == [] then s else Run(Next(s, steps[0]), steps[1..])
  }

  // ---- runs in time ------------------------------------------------------

  /** Whatever an attempt still does at a reserved key, it does within its lease. */
  ghost predicate Prompt(s: State) {
    && (forall a <- s.attempts ::
          !s.attempts[a].phase.Ended? && OnRecord(s, s.attempts[a].key) ==> s.now < s.attempts[a].until)
    && (forall c <- s.cleanups ::
          !s.cleanups[c].work.Over? && OnRecord(s, s.cleanups[c].key) ==> s.now < s.cleanups[c].until)
  }

  /** A request cancelled during its recorded, unanswered commit takes its own object away. */
  predicate Strands(s: State, step: Step) {
    step.CancelCommit? && step.applied && s.record.Claimed?
  }

  ghost predicate InTime(s: State, steps: seq<Step>)
    decreases |steps|
  {
    steps != [] ==> Prompt(s) && !Strands(s, steps[0]) && InTime(Next(s, steps[0]), steps[1..])
  }

  // ---- what runs in time keep --------------------------------------------

  ghost predicate Quiet(s: State, key: nat) {
    forall c <- s.cleanups :: s.cleanups[c].key == key ==> s.cleanups[c].work.Over?
  }

  /** One attempt at a time holds the reservation, and nothing cleans up behind one that may publish. */
  ghost predicate InvAttempts(s: State) {
    && (forall a <- s.attempts :: !s.attempts[a].phase.Ended? ==>
          OnRecord(s, s.attempts[a].key) && s.attempts[a].until <= s.record.until)
    && (forall a <- s.attempts, b <- s.attempts ::
          !s.attempts[a].phase.Ended? && !s.attempts[b].phase.Ended? ==> a == b)
    && (forall a <- s.attempts :: s.attempts[a].phase.Copying? || s.attempts[a].phase.Stored? ==>
          Quiet(s, s.attempts[a].key))
    && (forall a <- s.attempts :: s.attempts[a].phase.Stored? ==>
          s.attempts[a].phase.version in At(s, s.attempts[a].key))
  }

  ghost predicate InvCleanups(s: State) {
    forall c <- s.cleanups ::
      && c < s.counter && s.cleanups[c].key < s.counter
      && (!s.cleanups[c].work.Over? && OnRecord(s, s.cleanups[c].key) ==> s.cleanups[c].until <= s.record.until)
  }

  /** The published object is there, and no cleanup is at work at its key. */
  ghost predicate InvPublished(s: State) {
    && (s.published.Some? <==> s.record.Completed?)
    && (s.published.Some? ==> Quiet(s, s.published.value.0) && s.published.value.1 in At(s, s.published.value.0))
  }

  ghost predicate Inv(s: State) {
    && (s.record.Claimed? ==> s.record.key < s.counter)
    && (forall a <- s.attempts :: a < s.counter)
    && InvAttempts(s) && InvCleanups(s) && InvPublished(s)
  }

  lemma InitInv(now: int)
    ensures Inv(Init(now))
  {
  }

  lemma TickInv(s: State, elapsed: nat)
    requires Inv(s)
    ensures Inv(s.(now := s.now + elapsed))
  {
  }

  /** A lapsed lease means that whoever held it has nothing left to do at its key. */
  lemma ClaimInv(s: State)
    requires Inv(s) && Prompt(s)
    ensures Inv(ClaimStep(s))
  {
  }

  lemma RenewInv(s: State, a: nat)
    requires Inv(s)
    ensures Inv(RenewStep(s, a))
  {
  }

  lemma CopyInv(s: State, step: Step)
    requires Inv(s) && (step.Adopt? || step.Discard? || step.Write?)
    ensures Inv(CopyStep(s, step))
  {
  }

  /** An attempt that no longer publishes may clean up. */
  lemma SpawnInv(s: State, a: nat, version: Version, phase: Phase)
    requires Inv(s) && a in s.attempts && !s.attempts[a].phase.Ended? && (phase.Failing? || phase.Ended?)
    ensures Inv(SetPhase(Spawn(s, a, version), a, phase))
  {
  }

  lemma FailInv(s: State, a: nat)
    requires Inv(s)
    ensures Inv(FailStep(s, a))
  {
    if a in s.attempts && s.attempts[a].phase.Copying? {
      SpawnInv(s, a, None, Failing(None));
      var s1 := SetPhase(Spawn(s, a, None), a, Failing(None));
      SpawnInv(s1, a, None, Failing(None));
      assert SetPhase(Spawn(s1, a, None), a, Failing(None)) == FailStep(s, a);
    }
  }

  lemma CancelInv(s: State, a: nat)
    requires Inv(s)
    ensures Inv(CancelStep(s, a))
  {
    if a in s.attempts {
      match s.attempts[a].phase
      case Copying =>
        SpawnInv(s, a, None, Failing(None));
        var s1 := SetPhase(Spawn(s, a, None), a, Failing(None));
        SpawnInv(s1, a, None, Ended);
        assert SetPhase(Spawn(s1, a, None), a, Ended) == CancelStep(s, a);
      case Stored(v) => SpawnInv(s, a, v, Ended);
      case Failing(v) => SpawnInv(s, a, v, Ended);
      case Ended =>
    }
  }

  lemma EndInv(s: State, a: nat)
    requires Inv(s) && a in s.attempts
    ensures Inv(SetPhase(s, a, Ended))
  {
  }

  /** The one attempt that may publish does, and nothing is at work at its key. */
  lemma PublishInv(s: State, a: nat)
    requires Inv(s) && a in s.attempts && s.attempts[a].phase.Stored?
    ensures Inv(SetPhase(Published(s, a, s.attempts[a].phase.version, true), a, Ended))
  {
  }

  lemma CommitInv(s: State, a: nat, reply: CommitReply)
    requires Inv(s)
    ensures Inv(CommitStep(s, a, reply))
  {
    hide Inv, Spawn;
    if a in s.attempts && s.attempts[a].phase.Stored? {
      var v := s.attempts[a].phase.version;
      SpawnInv(s, a, v, Failing(v));
      PublishInv(s, a);
      EndInv(s, a);
    }
  }

  lemma CancelCommitInv(s: State, a: nat, applied: bool)
    requires Inv(s) && !(applied && s.record.Claimed?)
    ensures Inv(CancelCommitStep(s, a, applied))
  {
    hide Inv, Spawn;
    if a in s.attempts && s.attempts[a].phase.Stored? {
      SpawnInv(s, a, s.attempts[a].phase.version, Ended);
    }
  }

  lemma ReleaseInv(s: State, a: nat, applied: bool)
    requires Inv(s)
    ensures Inv(ReleaseStep(s, a, applied))
  {
  }

  lemma PurgeInv(s: State)
    requires Inv(s) && Prompt(s)
    ensures Inv(Next(s, Purge))
  {
  }

  /** A cleanup at work is at a key that nobody publishes or has published. */
  lemma RemoveInv(s: State, c: nat, applied: bool)
    requires Inv(s)
    ensures Inv(RemoveStep(s, c, applied))
  {
  }

  /** A write that lands late removes nothing. */
  lemma LandLateInv(s: State, key: nat, version: Version)
    requires Inv(s)
    ensures Inv(Add(s, key, version))
  {
  }

  /** A cleanup that looks, or just stops, does no harm. */
  lemma WorkInv(s: State, c: nat, work: Work)
    requires Inv(s) && c in s.cleanups && (s.cleanups[c].work.Over? ==> work.Over?)
    ensures Inv(SetWork(s, c, work))
  {
  }

  lemma NextInv(s: State, step: Step)
    requires Inv(s) && Prompt(s) && !Strands(s, step)
    ensures Inv(Next(s, step))
  {
    hide Inv, ClaimStep, RenewStep, CopyStep, FailStep, CancelStep, CommitStep, CancelCommitStep, ReleaseStep,
         RemoveStep, Prompt;
    match step
    case Claim => ClaimInv(s);
    case Purge => PurgeInv(s);
    case Renew(a) => RenewInv(s, a);
    case Adopt(_, _) => CopyInv(s, step);
    case Discard(_, _) => CopyInv(s, step);
    case Write(_, _) => CopyInv(s, step);
    case Fail(a) => FailInv(s, a);
    case Cancel(a) => CancelInv(s, a);
    case Commit(a, reply) => CommitInv(s, a, reply);
    case CancelCommit(a, applied) => CancelCommitInv(s, a, applied);
    case Release(a, applied) => ReleaseInv(s, a, applied);
    case Remove(c, applied) => RemoveInv(s, c, applied);
    case Stop(a) =>
      if a in s.attempts {
        EndInv(s, a);
      }
    case LandLate(key, v) => LandLateInv(s, key, v);
    case StopCleanup(c) =>
      if c in s.cleanups {
        WorkInv(s, c, Over);
      }
    case Look(c, v) =>
      if c in s.cleanups && s.cleanups[c].work.Looking? {
        WorkInv(s, c, if v in At(s, s.cleanups[c].key) then Deleting(v) else Over);
      }
    case Tick(elapsed) => TickInv(s, elapsed);
  }

  lemma {:induction false} RunInv(s: State, steps: seq<Step>)
    requires Inv(s) && InTime(s, steps)
    ensures Inv(Run(s, steps))
    decreases |steps|
  {
    hide Inv, Next, Prompt, Strands;
    if steps != [] {
      NextInv(s, steps[0]);
      RunInv(Next(s, steps[0]), steps[1..]);
    }
  }

  // ---- exactly when a published object is in danger ------------------------

  ghost predicate Kept(s: State)
    requires s.published.Some?
  {
    s.published.value.1 in At(s, s.published.value.0)
  }

  /** A cleanup that has, or can find, the published version. */
  predicate Aims(work: Work, version: Version) {
    work.Looking? || work == Deleting(version)
  }

  /** An attempt whose guard would be such a cleanup. */
  predicate GuardAims(phase: Phase, version: Version) {
    match phase
    case Copying => true
    case Stored(v) => Aims(WorkFor(v), version)
    case Failing(v) => Aims(WorkFor(v), version)
    case Ended => false
  }

  /** Some attempt or cleanup that is not over can still reach the published object. */
  ghost predicate Threatened(s: State)
    requires s.published.Some?
  {
    var (key, version) := s.published.value;
    || (exists a <- s.attempts :: s.attempts[a].key == key && GuardAims(s.attempts[a].phase, version))
    || (exists c <- s.cleanups :: s.cleanups[c].key == key && Aims(s.cleanups[c].work, version))
  }

  /** After publication the record is completed for good. */
  lemma CompletedStays(s: State, step: Step)
    requires s.record.Completed?
    ensures Next(s, step).record.Completed? && Next(s, step).published == s.published
  {
  }

  lemma UnthreatenedStep(s: State, step: Step)
    requires s.record.Completed? && s.published.Some? && Kept(s) && !Threatened(s)
    ensures s.published == Next(s, step).published && Kept(Next(s, step)) && !Threatened(Next(s, step))
  {
    CompletedStays(s, step);
  }

  lemma {:induction false} UnthreatenedStays(s: State, steps: seq<Step>)
    requires s.record.Completed? && s.published.Some? && Kept(s) && !Threatened(s)
    ensures Run(s, steps).published == s.published && Kept(Run(s, steps))
    decreases |steps|
  {
    hide Kept, Threatened, Next;
    if steps != [] {
      CompletedStays(s, steps[0]);
      UnthreatenedStep(s, steps[0]);
      UnthreatenedStays(Next(s, steps[0]), steps[1..]);
    }
  }

  /** No request is cancelled while its commit is unanswered. */
  predicate Uncancelled(steps: seq<Step>) {
    forall i :: 0 <= i < |steps| ==> !steps[i].CancelCommit?
  }

  /** Some continuation loses the published object. */
  ghost predicate CanLose(s: State)
    requires s.published.Some?
  {
    exists steps: seq<Step> ::
      Uncancelled(steps) && Run(s, steps).published == s.published && !Kept(Run(s, steps))
  }

  lemma LosesNow(s: State)
    requires s.published.Some? && !Kept(s)
    ensures CanLose(s)
  {
    hide Kept;
    assert Run(s, []) == s && Uncancelled([]);
  }

  lemma LosesLater(s: State, step: Step)
    requires s.record.Completed? && s.published.Some? && !step.CancelCommit?
    requires Next(s, step).published.Some? && CanLose(Next(s, step))
    ensures CanLose(s)
  {
    hide Kept, Next;
    CompletedStays(s, step);
    var n := Next(s, step);
    var steps: seq<Step> :| Uncancelled(steps) && Run(n, steps).published == n.published && !Kept(Run(n, steps));
    assert ([step] + steps)[1..] == steps;
    assert Run(s, [step] + steps) == Run(n, steps);
  }

  /** The cleanup takes it away. */
  lemma CleanupLoses(s: State, c: nat)
    requires s.record.Completed? && s.published.Some? && Kept(s)
    requires c in s.cleanups && s.cleanups[c].key == s.published.value.0
    requires Aims(s.cleanups[c].work, s.published.value.1)
    ensures CanLose(s)
  {
    hide CanLose;
    var version := s.published.value.1;
    if s.cleanups[c].work.Looking? {
      var n := Next(s, Look(c, version));
      LosesNow(Next(n, Remove(c, true)));
      LosesLater(n, Remove(c, true));
      LosesLater(s, Look(c, version));
    } else {
      LosesNow(Next(s, Remove(c, true)));
      LosesLater(s, Remove(c, true));
    }
  }

  /** A cancelled request's guard starts such a cleanup. */
  lemma AttemptLoses(s: State, a: nat)
    requires s.record.Completed? && s.published.Some? && Kept(s)
    requires a in s.attempts && s.attempts[a].key == s.published.value.0
    requires GuardAims(s.attempts[a].phase, s.published.value.1)
    ensures CanLose(s)
  {
    hide CanLose;
    var n := Next(s, Cancel(a));
    CleanupLoses(n, s.counter);
    LosesLater(s, Cancel(a));
  }

  /**
   * A published version keeps its object in every continuation exactly when no attempt
   * and no cleanup that could reach it is still at work at its key.
   */
  lemma CanLoseIff(s: State)
    requires s.record.Completed? && s.published.Some? && Kept(s)
    ensures CanLose(s) <==> Threatened(s)
  {
    hide Kept;
    if Threatened(s) {
      var (key, version) := s.published.value;
      if a :| a in s.attempts && s.attempts[a].key == key && GuardAims(s.attempts[a].phase, version) {
        AttemptLoses(s, a);
      } else {
        var c :| c in s.cleanups && s.cleanups[c].key == key && Aims(s.cleanups[c].work, version);
        CleanupLoses(s, c);
      }
    } else {
      forall steps: seq<Step>
        ensures Run(s, steps).published == s.published && Kept(Run(s, steps))
      {
        UnthreatenedStays(s, steps);
      }
    }
  }

  // ---- theorems ----------------------------------------------------------

  /**
   * If up to its publication every attempt and every cleanup did its work within its lease,
   * and the commit was not stranded, then the version keeps its object whatever happens later.
   */
  lemma PublishedInTimeIsKept(now: int, steps: seq<Step>, later: seq<Step>)
    requires InTime(Init(now), steps) && Run(Init(now), steps).published.Some?
    ensures var s := Run(Init(now), steps);
            Run(s, later).published == s.published && Kept(Run(s, later))
  {
    hide Init, Next, InTime;
    var s := Run(Init(now), steps);
    InitInv(now);
    RunInv(Init(now), steps);
    InvIsUnthreatened(s);
    UnthreatenedStays(s, later);
  }

  lemma InvIsUnthreatened(s: State)
    requires Inv(s) && s.published.Some?
    ensures s.record.Completed? && Kept(s) && !Threatened(s)
  {
  }

  /** In time, a reservation is in the hands of one attempt at most. */
  lemma OneAttemptAtATime(now: int, steps: seq<Step>, a: nat, b: nat)
    requires InTime(Init(now), steps)
    requires var s := Run(Init(now), steps);
             a in s.attempts && b in s.attempts && !s.attempts[a].phase.Ended? && !s.attempts[b].phase.Ended?
    ensures a == b
  {
    hide Init, Run, InTime;
    InitInv(now);
    RunInv(Init(now), steps);
  }

  lemma InTimeBefore(s: State, step: Step, steps: seq<Step>)
    requires Prompt(s) && !Strands(s, step) && InTime(Next(s, step), steps)
    ensures InTime(s, [step] + steps) && Run(s, [step] + steps) == Run(Next(s, step), steps)
  {
    hide Next, Prompt, Strands;
    assert ([step] + steps)[1..] == steps;
  }

  /** A restore that simply copies and commits is in time. */
  lemma PlainRestoreIsInTime(now: int, version: Version)
    ensures var steps := [Claim] + [Write(1, version)] + [Commit(1, Accepted)];
            InTime(Init(now), steps) && Run(Init(now), steps).published == Some((0, version))
  {
    hide InTime, Run;
    var s1 := Next(Init(now), Claim);
    var s2 := Next(s1, Write(1, version));
    var s3 := Next(s2, Commit(1, Accepted));
    assert InTime(s3, []) && Run(s3, []) == s3 by {
      NothingIsInTime(s3);
    }
    var commit, write := [Commit(1, Accepted)], [Write(1, version)];
    assert commit + [] == commit && [Claim] + (write + commit) == [Claim] + write + commit;
    InTimeBefore(s2, Commit(1, Accepted), []);
    InTimeBefore(s1, Write(1, version), commit);
    InTimeBefore(Init(now), Claim, write + commit);
  }

  lemma NothingIsInTime(s: State)
    ensures InTime(s, []) && Run(s, []) == s
  {
  }

  // ---- out of time -------------------------------------------------------

  /** The first attempt fails, its reservation is not given back, and its cleanups are slow. */
  lemma SlowCleanup() returns (s: State)
    ensures s == Run(Init(0), [Claim, Fail(1), Release(1, false), Tick(P.RESTORE_LEASE)])
    ensures s.record == Claimed(0, P.RESTORE_LEASE) && s.now == P.RESTORE_LEASE && s.counter == 4
    ensures 2 in s.cleanups && s.cleanups[2] == Cleanup(0, P.RESTORE_LEASE, Looking)
  {
    var s1 := Next(Init(0), Claim);
    var s2 := Next(s1, Fail(1));
    var s3 := Next(s2, Release(1, false));
    s := Next(s3, Tick(P.RESTORE_LEASE));
    RunFour(Init(0), Claim, Fail(1), Release(1, false), Tick(P.RESTORE_LEASE));
  }

  lemma RunFour(s: State, a: Step, b: Step, c: Step, d: Step)
    ensures Run(s, [a, b, c, d]) == Next(Next(Next(Next(s, a), b), c), d)
  {
    hide Next;
    assert [a, b, c, d][1..] == [b, c, d] && [b, c, d][1..] == [c, d] && [c, d][1..] == [d] && [d][1..] == [];
    assert Run(s, [a, b, c, d]) == Run(Next(s, a), [b, c, d]);
    assert Run(Next(s, a), [b, c, d]) == Run(Next(Next(s, a), b), [c, d]);
    assert Run(Next(Next(s, a), b), [c, d]) == Run(Next(Next(Next(s, a), b), c), [d]);
  }

  /** The lease is over: a second attempt claims the key, copies and publishes. */
  lemma SecondAttempt(s0: State) returns (s: State)
    requires s0.record == Claimed(0, P.RESTORE_LEASE) && s0.now == P.RESTORE_LEASE && s0.counter == 4
    requires 2 in s0.cleanups && s0.cleanups[2] == Cleanup(0, P.RESTORE_LEASE, Looking)
    ensures s == Run(s0, [Claim, Write(4, None), Commit(4, Accepted), StopCleanup(3)])
    ensures s.record.Completed? && s.published == Some((0, None)) && Kept(s)
    ensures 2 in s.cleanups && s.cleanups[2] == s0.cleanups[2]
  {
    hide Run;
    RunFour(s0, Claim, Write(4, None), Commit(4, Accepted), StopCleanup(3));
    s := Run(s0, [Claim, Write(4, None), Commit(4, Accepted), StopCleanup(3)]);
  }

  /** And the first one's cleanup can take the published object away, though no request was cancelled. */
  lemma SlowCleanupLoses()
    ensures exists steps: seq<Step> ::
              var s := Run(Init(0), steps);
              Uncancelled(steps) && s.published.Some? && Kept(s) && CanLose(s)
  {
    hide Init, Run, CanLose, Kept;
    var first := [Claim, Fail(1), Release(1, false), Tick(P.RESTORE_LEASE)];
    var second := [Claim, Write(4, None), Commit(4, Accepted), StopCleanup(3)];
    var s0 := SlowCleanup();
    var s := SecondAttempt(s0);
    RunTwice(Init(0), first, second);
    CleanupLoses(s, 2);
    assert Uncancelled(first + second) && s == Run(Init(0), first + second);
  }

  lemma {:induction false} RunTwice(s: State, first: seq<Step>, second: seq<Step>)
    ensures Run(s, first + second) == Run(Run(s, first), second)
    decreases |first|
  {
    hide Next;
    if first == [] {
      assert first + second == second;
    } else {
      assert (first + second)[1..] == first[1..] + second;
      RunTwice(Next(s, first[0]), first[1..], second);
    }
  }
}
