/**
 * Publishing an object and its version: an object write, paired with a database commit and
 * compensated by an armed guard. A script says how every call ends and where, if anywhere,
 * the caller's request is cancelled; a cancelled request drops the guard.
 */
module ContentPublication {
  import opened Wrappers
  import opened Text
  import opened Multipart

  /** How long a renewal keeps a restore's reservation from being claimed again, in milliseconds. */
  const RESTORE_LEASE := 10 * 60 * 1_000

  datatype Object = Object(data: seq<byte>, version: Option<string>)

  /**
   * What is stored at the reserved key and which multipart session is open there, what is
   * published and which session is recorded, and until when the reservation is locked.
   */
  datatype World = World(
    contents: Option<Object>, session: Option<string>, published: Option<Object>, recorded: Option<string>,
    reserved: bool, lockedUntil: int)

  // ---- how calls end -----------------------------------------------------

  /** A reply that is lost may hide an applied effect. */
  datatype Reply = Answered | Lost(applied: bool)

  datatype CleanupScript = CleanupScript(abort: Reply, headAnswered: bool, delete: Reply)

  /** A stored object holds the bytes sent. A failed write may have landed, and may still land after the cleanup. */
  datatype WriteReply = Stored(version: Option<string>) | Failed(landed: Option<Object>, late: Option<Object>)

  datatype CommitReply = Committed | Refused | Unknown(recorded: bool)

  datatype Await = Write | Commit | Cleanup | Release

  datatype Script = Script(
    write: WriteReply, commit: CommitReply, cleanup: CleanupScript, release: Reply,
    cancelled: Option<Await>, dropped: CleanupScript)

  datatype Outcome = Published | WriteFailed | CommitRefused | CommitUnknown | Cancelled | Invalid

  predicate Applies(r: Reply) {
    r.Answered? || r.applied
  }

  predicate Records(c: CommitReply) {
    c.Committed? || (c.Unknown? && c.recorded)
  }

  // ---- single steps ------------------------------------------------------

  function Delete(w: World, version: Option<string>, reply: Reply): World {
    if Applies(reply) && w.contents.Some? && version == w.contents.value.version
    then w.(contents := None) else w
  }

  function Abort(w: World, session: string, reply: Reply): World {
    if Applies(reply) && w.session == Some(session) then w.(session := None) else w
  }

  /** Removes the exact version, or the one a lookup finds. */
  function RemoveObject(w: World, version: Option<string>, s: CleanupScript): World {
    if version.Some? then Delete(w, version, s.delete)
    else if !s.headAnswered || w.contents.None? then w
    else Delete(w, w.contents.value.version, s.delete)
  }

  /** Aborts the session, if there is one to abort, then removes the object. */
  function CleanUp(w: World, session: Option<string>, version: Option<string>, s: CleanupScript): World {
    RemoveObject(if session.Some? then Abort(w, session.value, s.abort) else w, version, s)
  }

  function Landed(w: World, contents: Option<Object>): World {
    if contents.Some? then w.(contents := contents) else w
  }

  function Written(w: World, file: seq<byte>, reply: WriteReply): World {
    match reply
    case Stored(version) => w.(contents := Some(Object(file, version)))
    case Failed(landed, _) => Landed(w, landed)
  }

  function CommitEffect(w: World, stored: Object, reply: CommitReply): World {
    if Records(reply) then w.(published := Some(stored), reserved := false) else w
  }

  function Released(w: World, reply: Reply): World {
    if Applies(reply) then w.(reserved := false) else w
  }

  // ---- specifications ----------------------------------------------------

  function Late(w: World, write: WriteReply): World {
    if write.Failed? then Landed(w, write.late) else w
  }

  /** The write failed: clean up, then give the reservation back. */
  function AbandonSpec(w: World, s: Script): (World, Outcome) {
    var cleaned := CleanUp(w, None, None, s.cleanup);
    if s.cancelled == Some(Cleanup) then (Late(CleanUp(cleaned, None, None, s.dropped), s.write), Cancelled)
    else
      (Late(Released(cleaned, s.release), s.write), if s.cancelled == Some(Release) then Cancelled else WriteFailed)
  }

  /** The object is stored: commit its publication, and compensate a definite refusal. */
  function PublishSpec(w: World, stored: Object, s: Script, releases: bool): (World, Outcome) {
    var committed := CommitEffect(w, stored, s.commit);
    if s.cancelled == Some(Commit) then (CleanUp(committed, None, stored.version, s.dropped), Cancelled)
    else
      match s.commit
      case Committed => (committed, Published)
      case Unknown(_) => (committed, CommitUnknown)
      case Refused =>
        var cleaned := CleanUp(committed, None, stored.version, s.cleanup);
        if s.cancelled == Some(Cleanup) then (CleanUp(cleaned, None, stored.version, s.dropped), Cancelled)
        else if !releases then (cleaned, CommitRefused)
        else (Released(cleaned, s.release), if s.cancelled == Some(Release) then Cancelled else CommitRefused)
  }

  function UploadSpec(w: World, file: seq<byte>, s: Script): (World, Outcome) {
    var written := Written(w, file, s.write);
    if s.cancelled == Some(Write) then (Late(CleanUp(written, None, None, s.dropped), s.write), Cancelled)
    else
      match s.write
      case Failed(_, _) => AbandonSpec(written, s)
      case Stored(version) => PublishSpec(written, Object(file, version), s, true)
  }

  /** While a version is copied, its lease is renewed; a failed renewal gives the copy up. */
  datatype RestoreEvent = Renewed(at: int) | RenewalFailed(at: int) | CopyEnded(at: int)

  predicate CopyEnds(events: seq<RestoreEvent>) {
    events != [] && (events[0].CopyEnded? || (events[0].Renewed? && CopyEnds(events[1..])))
  }

  predicate GivenUp(events: seq<RestoreEvent>) {
    events != [] && (events[0].RenewalFailed? || (events[0].Renewed? && GivenUp(events[1..])))
  }

  /** A renewal locks the reservation anew. */
  function Renew(w: World, at: int): World {
    w.(lockedUntil := at + RESTORE_LEASE)
  }

  function Renewals(w: World, events: seq<RestoreEvent>): World
    decreases |events|
  {
    if events == [] || !events[0].Renewed? then w else Renewals(Renew(w, events[0].at), events[1..])
  }

  /** What the write comes to: a copy that is given up has failed, though it may have stored its object. */
  function RestoreWrite(events: seq<RestoreEvent>, file: seq<byte>, write: WriteReply): WriteReply {
    if CopyEnds(events) then write
    else match write case Stored(version) => Failed(Some(Object(file, version)), None) case Failed(_, _) => write
  }

  /** A copy that is dropped before it ends: the multipart session it may have open, and how its own cleanup ends. */
  datatype Copy = Copy(session: Option<string>, dropped: CleanupScript)

  function CopyStarted(w: World, copy: Copy): World {
    if copy.session.Some? then w.(session := copy.session) else w
  }

  /** A dropped copy with an open session cleans up once more, after everything else. */
  function CopyDropped(w: World, copy: Copy): World {
    if copy.session.Some? then CleanUp(w, copy.session, None, copy.dropped) else w
  }

  function WithoutLate(write: WriteReply): WriteReply {
    if write.Failed? then write.(late := None) else write
  }

  /** The copy does not get to its end: it is given up, or dropped with the cancelled request. */
  function DropCopySpec(w: World, file: seq<byte>, events: seq<RestoreEvent>, copy: Copy, s: Script): (World, Outcome) {
    var write := RestoreWrite(events, file, s.write);
    var script := s.(write := WithoutLate(write), cancelled := if GivenUp(events) then s.cancelled else Some(Write));
    var (end, outcome) := UploadSpec(CopyStarted(w, copy), file, script);
    (Late(CopyDropped(end, copy), write), outcome)
  }

  function RestoreSpec(w: World, file: seq<byte>, events: seq<RestoreEvent>, copy: Copy, s: Script): (World, Outcome) {
    var renewed := Renewals(w, events);
    if CopyEnds(events) && s.cancelled != Some(Write) then UploadSpec(renewed, file, s)
    else DropCopySpec(renewed, file, events, copy, s)
  }

  /** What a lookup reports after a lost reply: nothing, or the part count of a composite checksum. */
  datatype Lookup = NoAnswer | Found(composite: Option<nat>)

  /** The assembled object is taken for found when its size and its part count are the planned ones. */
  predicate Reconciles(w: World, plan: Plan, lookup: Lookup) {
    && lookup.Found? && w.contents.Some?
    && |w.contents.value.data| == plan.fileSize && lookup.composite == Some(plan.partCount)
  }

  /** Assembling the parts uses the session up. */
  function Assembled(w: World, file: seq<byte>, reply: WriteReply): World {
    var written := Written(w, file, reply);
    if reply.Stored? || reply.landed.Some? then written.(session := None) else written
  }

  ghost function CompleteSpec(
    w: World, plan: Plan, parts: seq<CompletedPart>, file: seq<byte>, lookup: Lookup, s: Script): (World, Outcome)
  {
    if !ExactParts(plan, parts) then (w, Invalid)
    else
      var written := Assembled(w, file, s.write);
      if s.cancelled == Some(Write) then (Late(written, s.write), Cancelled)
      else
        match s.write
        case Stored(version) => PublishSpec(written, Object(file, version), s, false)
        case Failed(_, _) =>
          if Reconciles(written, plan, lookup) then PublishSpec(written, written.contents.value, s, false)
          else (Late(written, s.write), WriteFailed)
  }

  /** Opening a session: the reply names it, or is lost with or without one. */
  datatype CreateReply = Opened(id: string) | NotOpened(orphan: Option<string>)

  function Created(w: World, reply: CreateReply): World {
    match reply
    case Opened(id) => w.(session := Some(id))
    case NotOpened(orphan) => if orphan.Some? then w.(session := orphan) else w
  }

  function RecordEffect(w: World, id: string, reply: CommitReply): World {
    if Records(reply) then w.(recorded := Some(id), reserved := false) else w
  }

  /** A session is opened, and its record committed or the session aborted. */
  function InitiateSpec(w: World, create: CreateReply, s: Script): (World, Outcome) {
    var created := Created(w, create);
    match create
    case NotOpened(_) =>
      if s.cancelled == Some(Write) then (created, Cancelled)
      else (Released(created, s.release), if s.cancelled == Some(Release) then Cancelled else WriteFailed)
    case Opened(id) =>
      if s.cancelled == Some(Write) then (created, Cancelled)
      else
        var committed := RecordEffect(created, id, s.commit);
        if s.cancelled == Some(Commit) then (CleanUp(committed, Some(id), None, s.dropped), Cancelled)
        else
          match s.commit
          case Committed => (committed, Published)
          case Unknown(_) => (committed, CommitUnknown)
          case Refused =>
            var cleaned := CleanUp(committed, Some(id), None, s.cleanup);
            if s.cancelled == Some(Cleanup) then (CleanUp(cleaned, Some(id), None, s.dropped), Cancelled)
            else (Released(cleaned, s.release), if s.cancelled == Some(Release) then Cancelled else CommitRefused)
  }

  // ---- the services ------------------------------------------------------

  class Backend {
    var contents: Option<Object>
    var session: Option<string>
    var published: Option<Object>
    var recorded: Option<string>
    var reserved: bool
    var lockedUntil: int

    constructor (w: World)
      ensures View() == w
    {
      contents, session, published, recorded := w.contents, w.session, w.published, w.recorded;
      reserved, lockedUntil := w.reserved, w.lockedUntil;
    }

    function View(): World
      reads this
    {
      World(contents, session, published, recorded, reserved, lockedUntil)
    }

    method Write(file: seq<byte>, reply: WriteReply) returns (r: Result<Object, ()>)
      modifies this`contents
      ensures View() == Written(old(View()), file, reply)
      ensures r == if reply.Stored? then Ok(Object(file, reply.version)) else Err(())
    {
      match reply
      case Stored(version) =>
        contents := Some(Object(file, version));
        return Ok(Object(file, version));
      case Failed(landed, _) =>
        if landed.Some? {
          contents := landed;
        }
        return Err(());
    }

    method LandLate(reply: WriteReply)
      modifies this`contents
      ensures View() == Late(old(View()), reply)
    {
      if reply.Failed? && reply.late.Some? {
        contents := reply.late;
      }
    }

    method CommitPublication(stored: Object, reply: CommitReply)
      modifies this`published, this`reserved
      ensures View() == CommitEffect(old(View()), stored, reply)
    {
      if Records(reply) {
        published, reserved := Some(stored), false;
      }
    }

    method ReleaseOperation(reply: Reply)
      modifies this`reserved
      ensures View() == Released(old(View()), reply)
    {
      if Applies(reply) {
        reserved := false;
      }
    }

    method RenewLease(at: int)
      modifies this`lockedUntil
      ensures View() == Renew(old(View()), at)
    {
      lockedUntil := at + RESTORE_LEASE;
    }

    method StartCopy(copy: Copy)
      modifies this`session
      ensures View() == CopyStarted(old(View()), copy)
    {
      if copy.session.Some? {
        session := copy.session;
      }
    }

    method Complete(file: seq<byte>, reply: WriteReply) returns (r: Result<Object, ()>)
      modifies this`contents, this`session
      ensures View() == Assembled(old(View()), file, reply)
      ensures r == if reply.Stored? then Ok(Object(file, reply.version)) else Err(())
    {
      if reply.Stored? || reply.landed.Some? {
        session := None;
      }
      r := Write(file, reply);
    }

    method Create(reply: CreateReply) returns (r: Result<string, ()>)
      modifies this`session
      ensures View() == Created(old(View()), reply)
      ensures r == if reply.Opened? then Ok(reply.id) else Err(())
    {
      match reply
      case Opened(id) =>
        session := Some(id);
        return Ok(id);
      case NotOpened(orphan) =>
        if orphan.Some? {
          session := orphan;
        }
        return Err(());
    }

    method CommitInitialization(id: string, reply: CommitReply)
      modifies this`recorded, this`reserved
      ensures View() == RecordEffect(old(View()), id, reply)
    {
      if Records(reply) {
        recorded, reserved := Some(id), false;
      }
    }

    /** Best effort: aborts the session, finds the version if it is not known, then deletes it. */
    method CleanupUnpublishedObject(open: Option<string>, version: Option<string>, s: CleanupScript)
      modifies this`contents, this`session
      ensures View() == CleanUp(old(View()), open, version, s)
    {
      if open.Some? && Applies(s.abort) && session == open {
        session := None;
      }
      var exact := version;
      if version.None? {
        if !s.headAnswered || contents.None? {
          return;
        }
        exact := contents.value.version;
      }
      if Applies(s.delete) && contents.Some? && exact == contents.value.version {
        contents := None;
      }
    }
  }

  class UnpublishedObjectGuard {
    const backend: Backend
    const session: Option<string>
    var version: Option<string>
    var armed: bool

    constructor Destination(backend: Backend)
      ensures this.backend == backend && session == None && version == None && armed
    {
      this.backend, session := backend, None;
      version, armed := None, true;
    }

    constructor Multipart(backend: Backend, id: string)
      ensures this.backend == backend && session == Some(id) && version == None && armed
    {
      this.backend, session := backend, Some(id);
      version, armed := None, true;
    }

    method RecordStoredObject(stored: Object)
      modifies this`version
      ensures version == stored.version
    {
      version := stored.version;
    }

    method Disarm()
      modifies this`armed
      ensures !armed
    {
      armed := false;
    }

    method CleanupNow(s: CleanupScript)
      modifies this`armed, backend`contents, backend`session
      ensures backend.View() == CleanUp(old(backend.View()), session, version, s) && !armed
    {
      backend.CleanupUnpublishedObject(session, version, s);
      armed := false;
    }

    /** A cleanup that is interrupted leaves the guard armed. */
    method InterruptedCleanup(s: CleanupScript)
      modifies backend`contents, backend`session
      ensures backend.View() == CleanUp(old(backend.View()), session, version, s)
    {
      backend.CleanupUnpublishedObject(session, version, s);
    }

    method Drop(s: CleanupScript)
      modifies backend`contents, backend`session
      ensures backend.View() == if armed then CleanUp(old(backend.View()), session, version, s) else old(backend.View())
    {
      if !armed {
        return;
      }
      backend.CleanupUnpublishedObject(session, version, s);
    }
  }

  /** The common end of every publication, from the commit on. */
  method FinishPublication(backend: Backend, guard: UnpublishedObjectGuard, stored: Object, s: Script, releases: bool)
    returns (outcome: Outcome)
    requires guard.backend == backend && guard.armed && guard.session == None && guard.version == stored.version
    modifies backend, guard
    ensures (backend.View(), outcome) == PublishSpec(old(backend.View()), stored, s, releases)
  {
    backend.CommitPublication(stored, s.commit);
    if s.cancelled == Some(Commit) {
      guard.Drop(s.dropped);
      return Cancelled;
    }
    match s.commit
    case Committed =>
      guard.Disarm();
      guard.Drop(s.dropped);
      return Published;
    case Unknown(_) =>
      guard.Disarm();
      guard.Drop(s.dropped);
      return CommitUnknown;
    case Refused =>
      if s.cancelled == Some(Cleanup) {
        guard.InterruptedCleanup(s.cleanup);
        guard.Drop(s.dropped);
        return Cancelled;
      }
      guard.CleanupNow(s.cleanup);
      if releases {
        backend.ReleaseOperation(s.release);
      }
      guard.Drop(s.dropped);
      return if releases && s.cancelled == Some(Release) then Cancelled else CommitRefused;
  }

  method AbandonWrite(backend: Backend, guard: UnpublishedObjectGuard, s: Script) returns (outcome: Outcome)
    requires guard.backend == backend && guard.armed && guard.session == None && guard.version == None
    modifies backend, guard
    ensures (backend.View(), outcome) == AbandonSpec(old(backend.View()), s)
  {
    if s.cancelled == Some(Cleanup) {
      guard.InterruptedCleanup(s.cleanup);
      guard.Drop(s.dropped);
      backend.LandLate(s.write);
      return Cancelled;
    }
    guard.CleanupNow(s.cleanup);
    backend.ReleaseOperation(s.release);
    guard.Drop(s.dropped);
    backend.LandLate(s.write);
    return if s.cancelled == Some(Release) then Cancelled else WriteFailed;
  }

  /** Stores a staged file with one request and publishes it. */
  method UploadSmall(backend: Backend, file: seq<byte>, s: Script) returns (outcome: Outcome)
    modifies backend
    ensures (backend.View(), outcome) == UploadSpec(old(backend.View()), file, s)
  {
    var guard := new UnpublishedObjectGuard.Destination(backend);
    var stored := backend.Write(file, s.write);
    if s.cancelled == Some(Write) {
      guard.Drop(s.dropped);
      backend.LandLate(s.write);
      return Cancelled;
    }
    if stored.Err? {
      outcome := AbandonWrite(backend, guard, s);
      return;
    }
    guard.RecordStoredObject(stored.value);
    outcome := FinishPublication(backend, guard, stored.value, s, true);
  }

  /** Copies a version and publishes the copy, renewing the lease while the copy runs. */
  method RestoreVersion(backend: Backend, file: seq<byte>, events: seq<RestoreEvent>, copy: Copy, s: Script)
    returns (outcome: Outcome)
    modifies backend
    ensures (backend.View(), outcome) == RestoreSpec(old(backend.View()), file, events, copy, s)
  {
    var guard := new UnpublishedObjectGuard.Destination(backend);
    var at := 0;
    ghost var start := backend.View();
    assert events[0..] == events;
    while at < |events| && events[at].Renewed?
      invariant at <= |events|
      invariant CopyEnds(events) == CopyEnds(events[at..]) && GivenUp(events) == GivenUp(events[at..])
      invariant Renewals(start, events) == Renewals(backend.View(), events[at..])
      modifies backend
    {
      assert events[at..][1..] == events[at + 1..];
      backend.RenewLease(events[at].at);
      at := at + 1;
    }
    assert Renewals(start, events) == backend.View();
    if at == |events| || events[at].RenewalFailed? || s.cancelled == Some(Write) {
      outcome := DropCopy(backend, guard, file, events, copy, s);
      return;
    }
    var stored := backend.Write(file, s.write);
    if stored.Err? {
      outcome := AbandonWrite(backend, guard, s);
      return;
    }
    guard.RecordStoredObject(stored.value);
    outcome := FinishPublication(backend, guard, stored.value, s, true);
  }

  lemma {:induction false} OneEnd(events: seq<RestoreEvent>)
    ensures !CopyEnds(events) || !GivenUp(events)
    decreases |events|
  {
    if events != [] {
      OneEnd(events[1..]);
    }
  }

  /** Compensates a copy that does not get to its end: its own guard cleans up after everything else. */
  method DropCopy(
    backend: Backend, guard: UnpublishedObjectGuard, file: seq<byte>, events: seq<RestoreEvent>, copy: Copy, s: Script)
    returns (outcome: Outcome)
    requires guard.backend == backend && guard.armed && guard.session == None && guard.version == None
    modifies backend, guard
    ensures (backend.View(), outcome) == DropCopySpec(old(backend.View()), file, events, copy, s)
  {
    OneEnd(events);
    var write := RestoreWrite(events, file, s.write);
    var script := s.(write := WithoutLate(write), cancelled := if GivenUp(events) then s.cancelled else Some(Write));
    backend.StartCopy(copy);
    var stored := backend.Write(file, script.write);
    if script.cancelled == Some(Write) {
      guard.Drop(s.dropped);
      outcome := Cancelled;
    } else {
      outcome := AbandonWrite(backend, guard, script);
    }
    if copy.session.Some? {
      var inner := new UnpublishedObjectGuard.Multipart(backend, copy.session.value);
      inner.Drop(copy.dropped);
    }
    backend.LandLate(write);
  }

  /** Assembles a verified part set and publishes the object. The session itself is not compensated here. */
  method CompleteMultipart(
    backend: Backend, plan: Plan, parts: seq<CompletedPart>, file: seq<byte>, lookup: Lookup, s: Script)
    returns (outcome: Outcome)
    requires WellFormed(plan)
    modifies backend
    ensures (backend.View(), outcome) == CompleteSpec(old(backend.View()), plan, parts, file, lookup, s)
  {
    hide WellFormed, ExactParts;
    var valid := ValidateCompletion(plan, parts);
    if valid.Err? {
      return Invalid;
    }
    var completed := backend.Complete(file, s.write);
    if s.cancelled == Some(Write) {
      backend.LandLate(s.write);
      return Cancelled;
    }
    var stored: Object;
    if completed.Ok? {
      stored := completed.value;
    } else if Reconciles(backend.View(), plan, lookup) {
      stored := backend.contents.value;
    } else {
      backend.LandLate(s.write);
      return WriteFailed;
    }
    var guard := new UnpublishedObjectGuard.Destination(backend);
    guard.RecordStoredObject(stored);
    outcome := FinishPublication(backend, guard, stored, s, false);
  }

  /** Opens a multipart session and records it. */
  method InitiateMultipart(backend: Backend, create: CreateReply, s: Script) returns (outcome: Outcome)
    modifies backend
    ensures (backend.View(), outcome) == InitiateSpec(old(backend.View()), create, s)
  {
    var created := backend.Create(create);
    if s.cancelled == Some(Write) {
      return Cancelled;
    }
    if created.Err? {
      backend.ReleaseOperation(s.release);
      return if s.cancelled == Some(Release) then Cancelled else WriteFailed;
    }
    var guard := new UnpublishedObjectGuard.Multipart(backend, created.value);
    backend.CommitInitialization(created.value, s.commit);
    if s.cancelled == Some(Commit) {
      guard.Drop(s.dropped);
      return Cancelled;
    }
    match s.commit
    case Committed =>
      guard.Disarm();
      guard.Drop(s.dropped);
      return Published;
    case Unknown(_) =>
      guard.Disarm();
      guard.Drop(s.dropped);
      return CommitUnknown;
    case Refused =>
      if s.cancelled == Some(Cleanup) {
        guard.InterruptedCleanup(s.cleanup);
        guard.Drop(s.dropped);
        return Cancelled;
      }
      guard.CleanupNow(s.cleanup);
      backend.ReleaseOperation(s.release);
      guard.Drop(s.dropped);
      return if s.cancelled == Some(Release) then Cancelled else CommitRefused;
  }

  // ---- theorems ----------------------------------------------------------

  predicate AllAnswered(s: CleanupScript) {
    s.abort.Answered? && s.headAnswered && s.delete.Answered?
  }

  /** The dropped guard's cleanup finds and removes the stored object. */
  predicate Removes(stored: Object, s: CleanupScript) {
    (stored.version.Some? || s.headAnswered) && Applies(s.delete)
  }

  /** The one run that publishes a version without its object: cancelled while a recorded commit is unanswered. */
  predicate Strands(stored: Object, s: Script) {
    s.cancelled == Some(Commit) && Records(s.commit) && Removes(stored, s.dropped)
  }

  /** The commit was refused and its compensation ran to the release. */
  predicate Compensated(s: Script) {
    s.commit.Refused? && s.cancelled != Some(Commit) && s.cancelled != Some(Cleanup)
  }

  /** What holds at the end of every run that stored an object. */
  predicate PublicationKept(start: World, end: World, outcome: Outcome, stored: Object, s: Script, releases: bool) {
    // A published version has its object, exactly unless the run strands it.
    && (end.published.Some? ==> end.published == Some(stored))
    && ((end.published.Some? && end.contents != end.published) <==> Strands(stored, s))
    && (outcome.Published? ==> end.published == end.contents == Some(stored) && !end.reserved)
    // A definite refusal leaves nothing behind when the cleanup calls are answered.
    && (outcome.CommitRefused? ==> end.published.None?)
    && (outcome.CommitRefused? && AllAnswered(s.cleanup) ==> end.contents.None?)
    && (outcome.CommitRefused? && releases && Applies(s.release) ==> !end.reserved)
    // So does a cancellation that is not too late.
    && (outcome.Cancelled? && AllAnswered(s.cleanup) && AllAnswered(s.dropped) && end.published.None? ==>
          end.contents.None?)
    // An unknown outcome changes nothing at the provider.
    && (outcome.CommitUnknown? ==> end.contents == Some(stored))
    // The reservation ends with a recorded publication or a release after a refusal, and in no other way.
    && (start.reserved ==>
          (!end.reserved <==> end.published.Some? || (releases && Compensated(s) && Applies(s.release))))
    && (!start.reserved ==> !end.reserved)
  }

  /** What holds at the end of every run whose write failed or was given up. */
  predicate NothingPublished(end: World, outcome: Outcome) {
    && end.published.None?
    && (outcome.WriteFailed? || outcome.Cancelled?)
  }

  /** A cancelled request leaves no unpublished object when its cleanups are answered and nothing lands late. */
  predicate CancellationCleans(end: World, outcome: Outcome, write: WriteReply, s: Script) {
    outcome.Cancelled? && AllAnswered(s.cleanup) && AllAnswered(s.dropped) && end.published.None?
    && (write.Failed? ==> write.late.None?) ==>
      end.contents.None?
  }

  lemma PublishKeeps(w: World, stored: Object, s: Script, releases: bool)
    requires w.contents == Some(stored) && w.published.None?
    ensures var (end, outcome) := PublishSpec(w, stored, s, releases);
            PublicationKept(w, end, outcome, stored, s, releases) && !outcome.WriteFailed?
  {
  }

  /** Small uploads, over every way their calls can end and every point of cancellation. */
  lemma UploadKeepsPublication(w: World, file: seq<byte>, s: Script)
    requires w.published.None?
    ensures var (end, outcome) := UploadSpec(w, file, s);
            && (s.write.Stored? && s.cancelled != Some(Write) ==>
                  PublicationKept(w, end, outcome, Object(file, s.write.version), s, true))
            && (s.write.Failed? || s.cancelled == Some(Write) ==> NothingPublished(end, outcome))
            && (outcome.WriteFailed? && AllAnswered(s.cleanup) && s.write.late.None? ==> end.contents.None?)
            && (outcome.WriteFailed? && Applies(s.release) ==> !end.reserved)
            && CancellationCleans(end, outcome, s.write, s)
  {
    hide PublishSpec;
    if s.write.Stored? && s.cancelled != Some(Write) {
      PublishKeeps(Written(w, file, s.write), Object(file, s.write.version), s, true);
    }
  }

  /**
   * Restores: the same guarantees when the copy ends, fails, is given up, or is cancelled.
   * A dropped copy also takes its session with it when its own abort is answered.
   */
  lemma RestoreKeepsPublication(w: World, file: seq<byte>, events: seq<RestoreEvent>, copy: Copy, s: Script)
    requires w.published.None?
    ensures var (end, outcome) := RestoreSpec(w, file, events, copy, s);
            var write := RestoreWrite(events, file, s.write);
            && (CopyEnds(events) && s.write.Stored? && s.cancelled != Some(Write) ==>
                  PublicationKept(w, end, outcome, Object(file, s.write.version), s, true))
            && (!CopyEnds(events) || s.write.Failed? || s.cancelled == Some(Write) ==> NothingPublished(end, outcome))
            && (outcome.WriteFailed? && AllAnswered(s.cleanup) && write.late.None? ==> end.contents.None?)
            && (outcome.WriteFailed? && Applies(s.release) ==> !end.reserved)
            && CancellationCleans(end, outcome, write, s)
            && (!CopyEnds(events) && copy.session.Some? && copy.dropped.abort.Answered? ==> end.session.None?)
  {
    hide PublishSpec, UploadSpec;
    var start := Renewals(w, events);
    RenewalsOnlyLock(w, events);
    if CopyEnds(events) && s.cancelled != Some(Write) {
      UploadKeepsPublication(start, file, s);
      WriteFailedNeedsFailure(start, file, s);
    } else {
      var write := WithoutLate(RestoreWrite(events, file, s.write));
      var script := s.(write := write, cancelled := if GivenUp(events) then s.cancelled else Some(Write));
      UploadKeepsPublication(CopyStarted(start, copy), file, script);
      WriteFailedNeedsFailure(CopyStarted(start, copy), file, script);
      UploadLeavesSession(CopyStarted(start, copy), file, script);
    }
  }

  /** A renewal that fails gives the copy up: it is cleaned up and the reservation goes back, as after any failure. */
  lemma FailedRenewalGivesUp(w: World, file: seq<byte>, events: seq<RestoreEvent>, k: nat, copy: Copy, s: Script)
    requires w.published.None? && k < |events| && s.cancelled.None?
    requires (forall i :: 0 <= i < k ==> events[i].Renewed?) && events[k].RenewalFailed?
    ensures var (end, outcome) := RestoreSpec(w, file, events, copy, s);
            && outcome == WriteFailed && end.published.None?
            && (Applies(s.release) ==> !end.reserved)
            && (AllAnswered(s.cleanup) && RestoreWrite(events, file, s.write).late.None? ==> end.contents.None?)
  {
    hide UploadSpec;
    GivenUpAt(events, k);
    OneEnd(events);
    RestoreKeepsPublication(w, file, events, copy, s);
    var write := WithoutLate(RestoreWrite(events, file, s.write));
    AbandonedFails(CopyStarted(Renewals(w, events), copy), file, s.(write := write));
  }

  lemma {:induction false} GivenUpAt(events: seq<RestoreEvent>, k: nat)
    requires k < |events| && (forall i :: 0 <= i < k ==> events[i].Renewed?) && events[k].RenewalFailed?
    ensures GivenUp(events)
    decreases k
  {
    if k > 0 {
      GivenUpAt(events[1..], k - 1);
    }
  }

  lemma AbandonedFails(w: World, file: seq<byte>, s: Script)
    requires s.write.Failed? && s.cancelled.None?
    ensures UploadSpec(w, file, s).1 == WriteFailed
  {
  }

  lemma UploadLeavesSession(w: World, file: seq<byte>, s: Script)
    ensures UploadSpec(w, file, s).0.session == w.session
  {
  }

  lemma WriteFailedNeedsFailure(w: World, file: seq<byte>, s: Script)
    ensures UploadSpec(w, file, s).1.WriteFailed? ==> s.write.Failed?
  {
  }

  lemma {:induction false} RenewalsOnlyLock(w: World, events: seq<RestoreEvent>)
    ensures Renewals(w, events) == w.(lockedUntil := Renewals(w, events).lockedUntil)
    decreases |events|
  {
    if events != [] && events[0].Renewed? {
      RenewalsOnlyLock(Renew(w, events[0].at), events[1..]);
    }
  }

  /** Every event comes less than a lease after the one before it. */
  predicate Timely(events: seq<RestoreEvent>, last: int) {
    events != [] ==>
      last <= events[0].at < last + 600_000 && (events[0].Renewed? ==> Timely(events[1..], events[0].at))
  }

  /** When the copy ended. */
  function EndOfCopy(events: seq<RestoreEvent>): int
    requires CopyEnds(events)
  {
    if events[0].CopyEnded? then events[0].at else EndOfCopy(events[1..])
  }

  /** The world at an instant: the renewals up to then have been made. */
  function WorldAt(w: World, events: seq<RestoreEvent>, now: int): World
    decreases |events|
  {
    if events != [] && events[0].Renewed? && events[0].at <= now
    then WorldAt(Renew(w, events[0].at), events[1..], now) else w
  }

  /**
   * What renewals are for: while they come in time, no other attempt can claim the
   * reservation before the copy ends.
   */
  lemma {:induction false} RenewalsKeepTheReservation(w: World, events: seq<RestoreEvent>, last: int, now: int)
    requires w.reserved && w.lockedUntil == last + 600_000
    requires CopyEnds(events) && Timely(events, last) && last <= now <= EndOfCopy(events)
    ensures WorldAt(w, events, now).reserved && now < WorldAt(w, events, now).lockedUntil
    decreases |events|
  {
    if events[0].Renewed? && events[0].at <= now {
      RenewalsKeepTheReservation(Renew(w, events[0].at), events[1..], events[0].at, now);
    }
  }

  /** Completions: the same guarantees for a verified part set; any other changes nothing. */
  lemma CompleteKeepsPublication(
    w: World, plan: Plan, parts: seq<CompletedPart>, file: seq<byte>, lookup: Lookup, s: Script)
    requires w.published.None?
    ensures var (end, outcome) := CompleteSpec(w, plan, parts, file, lookup, s);
            var written := Assembled(w, file, s.write);
            && (!ExactParts(plan, parts) ==> end == w && outcome == Invalid)
            && (ExactParts(plan, parts) && s.write.Stored? && s.cancelled != Some(Write) ==>
                  PublicationKept(w, end, outcome, Object(file, s.write.version), s, false))
            // After a lost reply the lookup decides: the planned size and number of parts, or nothing.
            && (ExactParts(plan, parts) && s.write.Failed? && s.cancelled != Some(Write) ==>
                  if written.contents.Some? && |written.contents.value.data| == plan.fileSize
                     && lookup == Found(Some(plan.partCount))
                  then PublicationKept(w, end, outcome, written.contents.value, s, false) && !outcome.WriteFailed?
                  else outcome.WriteFailed? && end == Late(written, s.write))
            && (ExactParts(plan, parts) && (s.cancelled == Some(Write) || outcome.WriteFailed?) ==>
                  NothingPublished(end, outcome))
            // Only a request cancelled during the assembly or its lookup, before there is a guard, leaves an object.
            && (outcome.Cancelled? && AllAnswered(s.cleanup) && AllAnswered(s.dropped) && end.published.None? ==>
                  (end.contents.Some? <==> s.cancelled == Some(Write) && Late(written, s.write).contents.Some?))
  {
    hide PublishSpec, ExactParts;
    var written := Assembled(w, file, s.write);
    if ExactParts(plan, parts) && s.cancelled != Some(Write) {
      if s.write.Stored? {
        PublishKeeps(written, Object(file, s.write.version), s, false);
      } else if Reconciles(written, plan, lookup) {
        PublishKeeps(written, written.contents.value, s, false);
      }
    }
  }

  /** Opening a session is compensated in the same way: a recorded session is open, a refused one is gone. */
  lemma InitiateKeepsSession(w: World, id: string, s: Script)
    requires w.recorded.None? && s.cancelled != Some(Write)
    ensures var (end, outcome) := InitiateSpec(w, Opened(id), s);
            && (end.recorded.Some? ==> end.recorded == Some(id))
            && ((end.recorded.Some? && end.session != end.recorded) <==>
                  s.cancelled == Some(Commit) && Records(s.commit) && Applies(s.dropped.abort))
            && (outcome.CommitRefused? ==> end.recorded.None?)
            && (outcome.CommitRefused? && s.cleanup.abort.Answered? ==> end.session.None?)
            && (outcome.CommitRefused? && Applies(s.release) ==> !end.reserved)
            && (outcome.CommitUnknown? ==> end.session == Some(id) && end.contents == w.contents)
  {
  }

  /**
   * The guard stays armed across the commit: a request cancelled there, whose commit was
   * recorded, loses the published object. Every other run keeps it.
   */
  lemma PublishedHasItsObjectIff(w: World, file: seq<byte>, s: Script)
    requires w.published.None? && s.write.Stored?
    ensures var end := UploadSpec(w, file, s).0;
            (end.published.Some? ==> end.contents == end.published) <==> !Strands(Object(file, s.write.version), s)
  {
    hide PublishSpec;
    UploadKeepsPublication(w, file, s);
  }

  /** Such a run exists. */
  lemma StrandedRun(stored: Object) returns (s: Script)
    ensures var end := UploadSpec(World(None, None, None, None, true, 0), stored.data, s).0;
            end.published == Some(stored) && end.contents == None
  {
    var answered := CleanupScript(Answered, true, Answered);
    s := Script(Stored(stored.version), Committed, answered, Answered, Some(Commit), answered);
  }
}
