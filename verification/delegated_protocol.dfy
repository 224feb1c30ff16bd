/**
 * The delegated-upload protocol as a state machine: one row, the provider's
 * contents for its key, provider calls in flight, writers, cleanup workers and
 * a clock. A run is any list of steps; a step that is not enabled does nothing.
 *
 * A crash, a dropped future or a worker that never returns is a run in which no
 * further step of that party occurs, so those need no steps of their own.
 */
module DelegatedProtocol {
  import opened Wrappers
  import opened Multipart
  import opened DelegatedRow

  // ---- provider ----------------------------------------------------------

  /**
   * The provider's contents for the row's key. `objects` holds every retained
   * version, newest last; `marker` is a delete marker on top of them. A part
   * upload that lands after an abort leaves a part with no listed session.
   */
  datatype Provider = Provider(sessions: set<nat>, parts: set<nat>, objects: seq<Object>, marker: bool)

  predicate Empty(p: Provider) {
    p.sessions == {} && p.parts == {} && p.objects == []
  }

  function FindVersion(objects: seq<Object>, version: nat): Option<Object> {
    if objects == [] then None
    else if objects[|objects| - 1].version == Some(version) then Some(objects[|objects| - 1])
    else FindVersion(objects[..|objects| - 1], version)
  }

  /** HEAD: the exact version when one is named, the current object otherwise. */
  function Head(p: Provider, version: Option<nat>): Option<Object> {
    match version
    case Some(v) => FindVersion(p.objects, v)
    case None => if p.marker || p.objects == [] then None else Some(p.objects[|p.objects| - 1])
  }

  function WithoutVersion(objects: seq<Object>, version: nat): seq<Object> {
    if objects == [] then []
    else
      var rest := WithoutVersion(objects[..|objects| - 1], version);
      if objects[|objects| - 1].version == Some(version) then rest else rest + [objects[|objects| - 1]]
  }

  /** DELETE: an exact version is removed; otherwise an unversioned object is, and a versioned one is only hidden. */
  function Delete(p: Provider, version: Option<nat>): Provider {
    match version
    case Some(v) => p.(objects := WithoutVersion(p.objects, v))
    case None =>
      if p.objects == [] then p
      else if p.objects[|p.objects| - 1].version.None? then p.(objects := p.objects[..|p.objects| - 1])
      else p.(marker := true)
  }

  function Abort(p: Provider, id: nat): Provider {
    p.(sessions := p.sessions - {id}, parts := p.parts - {id})
  }

  // ---- calls, writers and workers ---------------------------------------

  datatype Kind = Create | Part | Put | Complete

  /** A PUT or an assembly is what may publish an object. */
  predicate Publishes(kind: Kind) {
    kind.Put? || kind.Complete?
  }

  /** A provider call whose effect has not happened yet. `deadline` is when the client gives up. */
  datatype Call = Call(kind: Kind, writer: nat, session: nat, deadline: int)

  datatype WriterPhase =
    | Ready                                  // nothing sent to the provider yet
    | Validating(kind: Kind, start: int)     // budget running, compare-and-set sent
    | Cleared(kind: Kind, start: int)        // compare-and-set acknowledged
    | Awaiting(kind: Kind)                   // provider call unanswered
    | Created(id: nat)                       // session created, not yet recorded
    | Uploading(id: nat)                     // session recorded
    | Reconciling                            // PUT or assembly unanswered
    | Stored(obj: Object)                 // evidence held, not yet recorded
    | Dropped                                // failed or cancelled; the guard may still run
    | Closed

  datatype Writer = Writer(
    phase: WriterPhase, leaseExpiresAt: int, session: Option<nat>, stored: Option<Object>)

  datatype WorkerPhase =
    | Starting
    | Listing
    | Recording(id: nat, todo: set<nat>)
    | NextAbort(todo: set<nat>, known: bool)
    | Aborting(id: nat, todo: set<nat>, known: bool)
    | Confirming(id: nat, todo: set<nat>, known: bool)
    | Checking(known: bool)
    | Heading(known: bool)
    | Versioning(seen: Object)
    | Deleting(version: Option<nat>)
    | Verifying(version: Option<nat>)
    | Finishing
    | Deferred
    | Ended

  /** An abort or a delete that was never answered: it may still take effect at any later time. */
  datatype Removal = OfSession(id: nat) | OfObject(version: Option<nat>)

  /** A worker works on the row as its claim returned it. */
  datatype Worker = Worker(phase: WorkerPhase, job: Row)

  /**
   * `wrote`, `created` and `landed` only remember: which writer first passed a
   * compare-and-set, the session ever created, and the object ever stored.
   */
  datatype State = State(
    now: int,
    timeout: nat,
    row: Row,
    provider: Provider,
    calls: set<Call>,
    removals: set<Removal>,
    writers: map<nat, Writer>,
    workers: map<nat, Worker>,
    counter: nat,
    confirmed: set<Object>,
    wrote: Option<nat>,
    created: Option<nat>,
    landed: Option<Object>
  )

  function Init(now: int, timeout: nat, size: nat, capability: nat, expiresAt: int): State {
    State(now, timeout, NewRow(size, capability, expiresAt), Provider({}, {}, [], false),
          {}, {}, map[], map[], 0, {}, None, None, None)
  }

  // ---- steps -------------------------------------------------------------

  datatype Step =
    | Tick(elapsed: nat)
    | Reserve(capability: nat)
    | Query                                        // status, or any transaction that expires in passing
    | CancelRow
    | SweepRow
    | Transfer(capability: nat, leaseSeconds: int)
    | Begin(writer: nat, kind: Kind)
    | Validate(writer: nat, replied: bool)
    | Issue(writer: nat)
    | Land(call: Call, obj: Object, replied: bool)
    | Lose(call: Call)
    | LandRemoval(removal: Removal)
    | GiveUp(writer: nat)
    | Reconcile(writer: nat)
    | RecordId(writer: nat, replied: bool)
    | Stage(writer: nat, applied: bool, disarmed: bool)
    | Abandon(writer: nat)
    | Fail(writer: nat)
    | HeadForCommit
    | Publish(obj: Object)
    | ClaimJob(leaseMillis: nat)
    | Work(worker: nat, answered: bool, applied: bool, pick: nat, delay: nat)

  function SetWriter(s: State, t: nat, w: Writer): State {
    s.(writers := s.writers[t := w])
  }

  function SetPhase(s: State, t: nat, phase: WriterPhase): State
    requires t in s.writers
  {
    SetWriter(s, t, s.writers[t].(phase := phase))
  }

  function ClaimStep(s: State, capability: nat, leaseSeconds: int): State {
    match ClaimTransfer(s.row, s.now, capability, leaseSeconds, s.counter)
    case None => s
    case Some(r) =>
      s.(row := r, counter := s.counter + 1,
         writers := s.writers[s.counter := Writer(Ready, s.now + leaseSeconds * 1_000, None, None)])
  }

  /** The order of mutations: one PUT up to 100 MiB, otherwise create, parts, assembly. */
  predicate MayBegin(size: nat, phase: WriterPhase, kind: Kind) {
    || (phase.Ready? && size <= SINGLE_UPLOAD_MAX_BYTES && kind.Put?)
    || (phase.Ready? && size > SINGLE_UPLOAD_MAX_BYTES && kind.Create?)
    || (phase.Uploading? && (kind.Part? || kind.Complete?))
  }

  function BeginStep(s: State, t: nat, kind: Kind): State {
    if t in s.writers && MayBegin(s.row.size, s.writers[t].phase, kind)
    then SetPhase(s, t, Validating(kind, s.now))
    else s
  }

  /** The compare-and-set commits strictly later than its budget started; its reply may be lost. */
  function ValidateStep(s: State, t: nat, replied: bool): State {
    if t !in s.writers || !s.writers[t].phase.Validating? || s.writers[t].phase.start >= s.now then s
    else
      var w := s.writers[t];
      match BeforeMutation(s.row, t, w.leaseExpiresAt, s.now, s.timeout, Publishes(w.phase.kind))
      case None => SetPhase(s, t, Dropped)
      case Some(r) =>
        SetPhase(s, t, if replied then Cleared(w.phase.kind, w.phase.start) else Dropped)
        .(row := r, wrote := if s.wrote.None? then Some(t) else s.wrote)
  }

  /** The call is made only while the budget that began before the compare-and-set lasts. */
  function IssueStep(s: State, t: nat): State {
    if t !in s.writers || !s.writers[t].phase.Cleared? || s.now > s.writers[t].phase.start + s.timeout then s
    else
      var w := s.writers[t];
      SetPhase(s, t, Awaiting(w.phase.kind))
      .(calls := s.calls + {Call(w.phase.kind, t, w.session.GetOr(0), w.phase.start + s.timeout)})
  }

  /** Sessions and parts may appear until the fence; a PUT or an assembly may land at any later time. */
  predicate MayLand(s: State, c: Call) {
    && c in s.calls
    && (!Publishes(c.kind) ==> s.now <= c.deadline + FENCE)
    && (c.kind.Complete? ==> c.session in s.provider.sessions)
  }

  function Effect(p: Provider, c: Call, obj: Object, id: nat): Provider {
    match c.kind
    case Create => p.(sessions := p.sessions + {id})
    case Part => p.(parts := p.parts + {c.session})
    case Put => p.(objects := p.objects + [obj], marker := false)
    case Complete => Abort(p, c.session).(objects := p.objects + [obj], marker := false)
  }

  function Answered(c: Call, obj: Object, id: nat): WriterPhase {
    match c.kind
    case Create => Created(id)
    case Part => Uploading(c.session)
    case Put => Stored(obj)
    case Complete => Stored(obj)
  }

  function LandStep(s: State, c: Call, obj: Object, replied: bool): State {
    if !MayLand(s, c) then s
    else
      var s1 := s.(
        provider := Effect(s.provider, c, obj, s.counter),
        calls := s.calls - {c},
        counter := if c.kind.Create? then s.counter + 1 else s.counter,
        created := if c.kind.Create? then Some(s.counter) else s.created,
        landed := if Publishes(c.kind) then Some(obj) else s.landed);
      if replied && c.writer in s.writers && s.writers[c.writer].phase == Awaiting(c.kind) then
        var w := s.writers[c.writer];
        SetWriter(s1, c.writer,
          w.(phase := Answered(c, obj, s.counter), session := if c.kind.Create? then Some(s.counter) else w.session))
      else s1
  }

  /** An unanswered create or part fails the transfer; an unanswered PUT or assembly is looked up once. */
  function GiveUpStep(s: State, t: nat): State {
    if t !in s.writers || !s.writers[t].phase.Awaiting? then s
    else SetPhase(s, t, if Publishes(s.writers[t].phase.kind) then Reconciling else Dropped)
  }

  function ReconcileStep(s: State, t: nat): State {
    if t !in s.writers || !s.writers[t].phase.Reconciling? then s
    else
      match Head(s.provider, None)
      case Some(o) => SetPhase(s, t, Stored(o))
      case None => SetPhase(s, t, Dropped)
  }

  function RecordIdStep(s: State, t: nat, replied: bool): State {
    if t !in s.writers || !s.writers[t].phase.Created? then s
    else
      var w := s.writers[t];
      match RecordMultipart(s.row, t, w.leaseExpiresAt, s.now, w.phase.id)
      case None => SetPhase(s, t, Dropped)
      case Some(r) => SetPhase(s, t, if replied then Uploading(w.phase.id) else Dropped).(row := r)
  }

  /**
   * Success or an unknown outcome disarms the guard. A refusal, a definite database failure or
   * a cancellation drops it with the evidence, whatever the row has become.
   */
  function StageStep(s: State, t: nat, applied: bool, disarmed: bool): State {
    if t !in s.writers || !s.writers[t].phase.Stored? then s
    else
      var w := s.writers[t];
      match CompleteTransfer(s.row, t, w.leaseExpiresAt, s.now, w.phase.obj)
      case None => SetWriter(s, t, w.(phase := Dropped, stored := Some(w.phase.obj)))
      case Some(r) =>
        SetWriter(s, t, if disarmed then w.(phase := WriterPhase.Closed)
                        else w.(phase := Dropped, stored := Some(w.phase.obj)))
        .(row := if applied then r else s.row)
  }

  /** A cancelled writer drops its guard, with the evidence when it has any. */
  function AbandonStep(s: State, t: nat): State {
    if t !in s.writers || s.writers[t].phase.Closed? then s
    else
      var w := s.writers[t];
      SetWriter(s, t, w.(phase := Dropped, stored := if w.phase.Stored? then Some(w.phase.obj) else w.stored))
  }

  /** The dropped lease records its failure, once, if it gets to run at all. */
  function FailStep(s: State, t: nat): State {
    if t !in s.writers || !s.writers[t].phase.Dropped? then s
    else
      var w := s.writers[t];
      SetPhase(s, t, WriterPhase.Closed)
      .(row := FailTransfer(s.row, t, s.now, s.timeout, w.session, w.stored).GetOr(s.row))
  }

  function HeadForCommitStep(s: State): State {
    if !s.row.status.Staged? then s
    else
      match Head(s.provider, s.row.version)
      case Some(o) =>
        if o.version == s.row.version && o.checksum == s.row.checksum && o.checksum.Some?
        then s.(confirmed := s.confirmed + {StoredObject(s.row)})
        else s
      case None => s
  }

  function PublishStep(s: State, obj: Object): State {
    if obj !in s.confirmed then s else s.(row := Commit(s.row, s.now, obj).GetOr(s.row))
  }

  function ClaimJobStep(s: State, leaseMillis: nat): State {
    match ClaimCleanup(s.row, s.now, s.counter, leaseMillis)
    case None => s
    case Some(r) => s.(row := r, counter := s.counter + 1, workers := s.workers[s.counter := Worker(Starting, r)])
  }

  /** A removal that was never answered takes effect. */
  function LandRemovalStep(s: State, removal: Removal): State {
    if removal !in s.removals then s
    else
      s.(removals := s.removals - {removal},
         provider := match removal
                     case OfSession(id) => Abort(s.provider, id)
                     case OfObject(version) => Delete(s.provider, version))
  }

  // ---- the worker's steps ------------------------------------------------

  function SetWork(s: State, t: nat, phase: WorkerPhase): State
    requires t in s.workers
  {
    s.(workers := s.workers[t := s.workers[t].(phase := phase)])
  }

  predicate MustList(job: Row) {
    job.size > SINGLE_UPLOAD_MAX_BYTES || job.sessionId.Some?
  }

  predicate EvidenceKnown(job: Row) {
    job.version.Some? || job.etag.Some? || job.checksum.Some?
  }

  function JobIds(job: Row): set<nat> {
    if job.sessionId.Some? then {job.sessionId.value} else {}
  }

  /** `answered`: the database or provider replied. `applied`: an unanswered provider change took effect. */
  function WorkStep(s: State, t: nat, answered: bool, applied: bool, pick: nat, delay: nat): State {
    if t !in s.workers then s
    else
      var job := s.workers[t].job;
      var owns := answered && OwnsClaim(s.row, t, s.now);
      match s.workers[t].phase
      case Starting =>
        SetWork(s, t, if !owns then Deferred else if MustList(job) then Listing else Checking(false))
      case Listing =>
        SetWork(s, t,
          if !answered then Deferred
          else if job.sessionId.None? && pick in s.provider.sessions then Recording(pick, s.provider.sessions)
          else if job.sessionId.None? && s.provider.sessions != {} then Listing
          else NextAbort(s.provider.sessions + JobIds(job), job.sessionId.Some?))
      case Recording(id, todo) =>
        (match RecordSession(s.row, t, s.now, id)
         case None => SetWork(s, t, Deferred)
         case Some(r) => SetWork(s, t, if answered then NextAbort(todo, true) else Deferred).(row := r))
      case NextAbort(todo, known) =>
        SetWork(s, t,
          if todo == {} then Checking(known)
          else if !owns then Deferred
          else if pick in todo then Aborting(pick, todo, known)
          else NextAbort(todo, known))
      case Aborting(id, todo, known) =>
        SetWork(s, t, if answered then Confirming(id, todo, known) else Deferred)
        .(provider := if answered || applied then Abort(s.provider, id) else s.provider,
          removals := if answered then s.removals else s.removals + {OfSession(id)})
      case Confirming(id, todo, known) =>
        SetWork(s, t, if answered && id !in s.provider.parts then NextAbort(todo - {id}, known) else Deferred)
      case Checking(known) =>
        SetWork(s, t, if owns then Heading(known) else Deferred)
      case Heading(known) =>
        SetWork(s, t,
          if !answered then Deferred
          else
            match Head(s.provider, job.version)
            case Some(o) => Versioning(o)
            case None =>
              if EvidenceKnown(job) || (!job.completionStarted && known) then Finishing else Deferred)
      case Versioning(o) =>
        (match RecordVersion(s.row, t, s.now, o)
         case None => SetWork(s, t, Deferred)
         case Some(r) =>
           SetWork(s, t, if answered then Deleting(Coalesce(o.version, job.version)) else Deferred).(row := r))
      case Deleting(v) =>
        SetWork(s, t, if answered then Verifying(v) else Deferred)
        .(provider := if answered || applied then Delete(s.provider, v) else s.provider,
          removals := if answered then s.removals else s.removals + {OfObject(v)})
      case Verifying(v) =>
        SetWork(s, t, if answered && Head(s.provider, v).None? then Finishing else Deferred)
      case Finishing =>
        (match Finish(s.row, t, s.now)
         case None => SetWork(s, t, Deferred)
         case Some(r) => SetWork(s, t, Ended).(row := r))
      case Deferred =>
        SetWork(s, t, Ended).(row := Reschedule(s.row, t, s.now, delay))
      case Ended => s
  }

  // ---- runs --------------------------------------------------------------

  function Next(s: State, step: Step): State {
    match step
    case Tick(elapsed) => s.(now := s.now + elapsed)
    case Reserve(capability) => s.(row := RotateCapability(s.row, s.now, capability))
    case Query => s.(row := Expire(s.row, s.now))
    case CancelRow => s.(row := Cancel(s.row, s.now))
    case SweepRow => s.(row := Sweep(s.row, s.now))
    case Transfer(capability, leaseSeconds) => ClaimStep(s, capability, leaseSeconds)
    case Begin(t, kind) => BeginStep(s, t, kind)
    case Validate(t, replied) => ValidateStep(s, t, replied)
    case Issue(t) => IssueStep(s, t)
    case Land(c, obj, replied) => LandStep(s, c, obj, replied)
    case Lose(c) => s.(calls := s.calls - {c})
    case GiveUp(t) => GiveUpStep(s, t)
    case Reconcile(t) => ReconcileStep(s, t)
    case RecordId(t, replied) => RecordIdStep(s, t, replied)
    case LandRemoval(removal) => LandRemovalStep(s, removal)
    case Stage(t, applied, disarmed) => StageStep(s, t, applied, disarmed)
    case Abandon(t) => AbandonStep(s, t)
    case Fail(t) => FailStep(s, t)
    case HeadForCommit => HeadForCommitStep(s)
    case Publish(obj) => PublishStep(s, obj)
    case ClaimJob(leaseMillis) => ClaimJobStep(s, leaseMillis)
    case Work(t, answered, applied, pick, delay) => WorkStep(s, t, answered, applied, pick, delay)
  }

  function Run(s: State, steps: seq<Step>): State
    decreases |steps|
  {
    if steps == [] then s else Run(Next(s, steps[0]), steps[1..])
  }
}
