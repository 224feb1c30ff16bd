/** Storing a received file under its reservation, and publishing it after fresh evidence. */
module DelegatedStore {
  import opened Wrappers
  import opened Text
  import opened Multipart
  import opened Digests
  import opened ObjectStore
  import opened Staging

  /** The frozen manifest of one reservation. */
  datatype Transfer = Transfer(key: Key, size: u64, sha256: Digest)

  const MISMATCH := Validation("delegated_upload_manifest_mismatch")
  const INTEGRITY := DependencyUnavailable("object_storage_integrity")

  /** What a failed writer leaves for cleanup: the session it opened and the evidence it holds. */
  datatype Failure = Failure(session: Option<string>, stored: Option<StoredObject>)

  /**
   * The reservation's row as far as storing and publishing go. Any transaction may be
   * refused, or its outcome may stay unknown: `refusals` counts how often.
   */
  class Ledger {
    var session: Option<string>
    var staged: Option<StoredObject>
    var published: Option<StoredObject>
    var failed: Option<Failure>
    var refusals: nat
    /** How many compare-and-sets passed, and how many of them announced a PUT or an assembly. */
    var marks: nat
    var completionMarks: nat

    constructor ()
      ensures session == None && staged == None && published == None && failed == None
      ensures refusals == marks == completionMarks == 0
    {
      session, staged, published, failed := None, None, None, None;
      refusals, marks, completionMarks := 0, 0, 0;
    }

    method Refuse() returns (e: AppError)
      modifies this`refusals
      ensures refusals > old(refusals)
    {
      refusals := refusals + 1;
      e := *;
    }

    /** The writer's compare-and-set before a provider call. */
    method BeforeProviderCall(completing: bool) returns (r: Result<(), AppError>)
      modifies this`refusals, this`marks, this`completionMarks
      ensures r.Ok? <==> refusals == old(refusals)
      ensures refusals >= old(refusals)
      ensures marks == old(marks) + (if r.Ok? then 1 else 0)
      ensures completionMarks == old(completionMarks) + (if r.Ok? && completing then 1 else 0)
    {
      if * {
        var e := Refuse();
        return Err(e);
      }
      marks := marks + 1;
      if completing {
        completionMarks := completionMarks + 1;
      }
      return Ok(());
    }

    /** Records the session before any part is sent. */
    method RecordMultipart(id: string) returns (r: Result<(), AppError>)
      modifies this`session, this`refusals
      ensures (r.Ok? <==> refusals == old(refusals)) && refusals >= old(refusals)
      ensures r.Ok? ==> session == Some(id)
    {
      if * {
        session := Some(id);
        return Ok(());
      }
      var e := Refuse();
      return Err(e);
    }

    method CompleteTransfer(stored: StoredObject) returns (r: Result<(), AppError>)
      modifies this`staged, this`refusals
      ensures (r.Ok? <==> refusals == old(refusals)) && refusals >= old(refusals)
      ensures staged == old(staged) || staged == Some(stored)
      ensures r.Ok? ==> staged == Some(stored)
      ensures r.Err? && !r.error.DatabaseCommitOutcomeUnknown? ==> staged == old(staged)
    {
      if * {
        staged := Some(stored);
        return Ok(());
      }
      var e := Refuse();
      if * {
        return Err(Refused);
      }
      if * {
        staged := Some(stored);
      }
      return Err(DatabaseCommitOutcomeUnknown);
    }

    method FailTransfer(session: Option<string>, stored: Option<StoredObject>)
      modifies this`failed, this`refusals
      ensures refusals >= old(refusals)
      ensures failed == Some(Failure(session, stored)) || (failed == old(failed) && refusals > old(refusals))
    {
      if * {
        var e := Refuse();
        return;
      }
      failed := Some(Failure(session, stored));
    }

    /** The staged evidence to verify, unless the publication already happened or is refused. */
    method PrepareCommit() returns (r: Result<Option<StoredObject>, AppError>)
      modifies this`refusals
      ensures refusals >= old(refusals)
      ensures r.Ok? && r.value.Some? ==> staged == r.value
      ensures r.Ok? && r.value.None? ==> published.Some?
      ensures refusals == old(refusals) ==>
                r == if published.Some? then Ok(None) else if staged.Some? then Ok(staged) else Err(Refused)
    {
      if * {
        var e := Refuse();
        return Err(e);
      }
      if published.Some? {
        return Ok(None);
      }
      if staged.None? {
        return Err(Refused);
      }
      return Ok(staged);
    }

    method Publish(stored: StoredObject) returns (r: Result<(), AppError>)
      modifies this`published, this`refusals
      ensures (r.Ok? <==> refusals == old(refusals)) && refusals >= old(refusals)
      ensures published == old(published) || published == Some(stored)
      ensures r.Ok? ==> published == Some(stored)
    {
      if * {
        published := Some(stored);
        return Ok(());
      }
      if * {
        published := Some(stored);
      }
      var e := Refuse();
      return Err(e);
    }
  }

  /** Ownership of one receiving lease: dropping it while armed records a failure. */
  class Lease {
    const transfer: Transfer
    const ledger: Ledger
    var session: Option<string>
    var stored: Option<StoredObject>
    var armed: bool

    constructor (transfer: Transfer, ledger: Ledger)
      ensures this.transfer == transfer && this.ledger == ledger && armed && session == None && stored == None
    {
      this.transfer, this.ledger := transfer, ledger;
      session, stored, armed := None, None, true;
    }

    method Drop()
      modifies ledger`failed, ledger`refusals
      ensures ledger.refusals >= old(ledger.refusals)
      ensures !armed ==> ledger.failed == old(ledger.failed) && ledger.refusals == old(ledger.refusals)
      ensures armed ==>
                || ledger.failed == Some(Failure(session, stored))
                || (ledger.failed == old(ledger.failed) && ledger.refusals > old(ledger.refusals))
    {
      if !armed {
        return;
      }
      ledger.FailTransfer(session, stored);
    }
  }

  // ---- what must be stored -----------------------------------------------

  /** The checksum a correct object has, computed from the local file alone. */
  function Expected(transfer: Transfer, file: seq<byte>): Option<Checksum> {
    if transfer.size <= SINGLE_UPLOAD_MAX_BYTES then Some(FullObject(transfer.sha256))
    else if PlanFor(transfer.size).Ok? && transfer.size <= |file| then
      var plan := PlanFor(transfer.size).value;
      PlanIsTotal(transfer.size);
      Some(Composite(PartDigests(plan, file[..transfer.size], plan.partCount)))
    else None
  }

  /** Evidence that matches the frozen manifest. */
  predicate Matches(stored: StoredObject, transfer: Transfer, checksum: Option<Checksum>) {
    stored.key == transfer.key && stored.size == transfer.size && checksum.Some? && stored.checksum == checksum
  }

  /** Matching evidence names exactly the received bytes, when the manifest names their digest. */
  lemma EvidenceNamesTheBytes(transfer: Transfer, file: seq<byte>, contents: seq<byte>)
    requires |file| == transfer.size && transfer.sha256 == Sha256(file)
    requires Expected(transfer, file).Some? && Describes(Expected(transfer, file).value, contents)
    ensures contents == file
  {
    if transfer.size > SINGLE_UPLOAD_MAX_BYTES {
      var plan := PlanFor(transfer.size).value;
      PlanIsTotal(transfer.size);
      assert file[..transfer.size] == file;
      PartsJoin(plan, file, plan.partCount);
    }
  }

  // ---- storing -----------------------------------------------------------

  /** The digest of one planned range of a file. */
  ghost predicate DigestOfPart(plan: Plan, file: seq<byte>, number: nat, digest: Digest)
    requires number >= 1
  {
    var offset, end := PartOffset(plan, number), PartEnd(plan, number);
    0 <= offset <= end <= |file| && digest == Sha256(file[offset..end])
  }

  lemma DigestOfRange(plan: Plan, file: seq<byte>, number: u32, digest: Digest)
    requires WellFormed(plan) && 1 <= number <= plan.partCount
    requires var size := ExpectedPartSize(plan, number);
             size.Some? && PartOffset(plan, number) >= 0
             && PartOffset(plan, number) + size.value <= |file|
             && digest == Sha256(file[PartOffset(plan, number)..PartOffset(plan, number) + size.value])
    ensures DigestOfPart(plan, file, number, digest)
  {
    PartsTile(plan, number);
  }

  lemma DigestIsPiece(plan: Plan, file: seq<byte>, number: u32, digest: Digest)
    requires WellFormed(plan) && 1 <= number <= plan.partCount && plan.fileSize <= |file|
    requires DigestOfPart(plan, file, number, digest)
    ensures digest == Sha256(Piece(plan, file[..plan.fileSize], number))
  {
    PartsTile(plan, number);
    var offset, end := PartOffset(plan, number), PartEnd(plan, number);
    assert file[..plan.fileSize][offset..end] == file[offset..end];
  }

  lemma LastPartEnds(plan: Plan, file: seq<byte>, digest: Digest)
    requires WellFormed(plan) && DigestOfPart(plan, file, plan.partCount, digest)
    ensures plan.fileSize <= |file|
  {
  }

  /** Digests every part before anything is sent. */
  method PrepareParts(file: seq<byte>, plan: Plan) returns (r: Result<(seq<StoredPart>, Checksum), AppError>)
    requires WellFormed(plan)
    ensures r.Ok? ==> plan.fileSize <= |file|
    ensures r.Err? ==> r.error == TEMPORARY || (r.error == TRUNCATED && plan.fileSize > |file|)
    ensures r.Ok? ==>
              var (parts, expected) := r.value;
              var digests := PartDigests(plan, file[..plan.fileSize], plan.partCount);
              && expected == Composite(digests) && |parts| == |digests|
              && forall i :: 0 <= i < |parts| ==> parts[i].number == i + 1 && parts[i].digest == digests[i]
  {
    hide ExpectedPartSize, PartOffset, DigestOfPart;
    assert plan.partCount >= 1;
    hide WellFormed;
    var parts: seq<StoredPart> := [];
    var composite: seq<Digest> := [];
    for number := 1 to plan.partCount + 1
      invariant |parts| == number - 1 == |composite|
      invariant forall i :: 0 <= i < |parts| ==> parts[i].number == i + 1 && parts[i].digest == composite[i]
      invariant forall i :: 0 <= i < |composite| ==> DigestOfPart(plan, file, i + 1, composite[i])
    {
      PartsTile(plan, number);
      var offset := PartOffset(plan, number);
      var size := ExpectedPartSize(plan, number).value;
      var digest := Sha256FileRange(file, offset, size);
      if digest.Err? {
        return Err(digest.error);
      }
      DigestOfRange(plan, file, number, digest.value);
      composite := composite + [digest.value];
      parts := parts + [StoredPart(number, "", digest.value)];
    }
    LastPartEnds(plan, file, composite[plan.partCount - 1]);
    ghost var data := file[..plan.fileSize];
    forall i | 0 <= i < |composite|
      ensures composite[i] == Sha256(Piece(plan, data, i + 1))
    {
      DigestIsPiece(plan, file, i + 1, composite[i]);
    }
    assert composite == PartDigests(plan, data, plan.partCount);
    return Ok((parts, Composite(composite)));
  }

  /** Accepts a write only on exact evidence, from the reply or, after a lost one, from a lookup. */
  method ReconcileWrite(
    transfer: Transfer, result: Result<StoredObject, StoreError>, expected: Checksum, store: KeyStore)
    returns (r: Result<StoredObject, AppError>)
    requires store.key == transfer.key && store.Valid()
    requires result.Ok? && result.value.key == store.key ==>
               Truthful(result.value.size, result.value.checksum, store.contents)
    modifies store`troubles
    ensures store.troubles >= old(store.troubles)
    ensures r.Ok? ==> Matches(r.value, transfer, Some(expected))
    ensures r.Ok? ==> store.contents.Some? && |store.contents.value| == transfer.size
                      && Describes(expected, store.contents.value)
    ensures result.Ok? ==>
              r == if Matches(result.value, transfer, Some(expected)) then Ok(result.value) else Err(INTEGRITY)
    ensures result.Err? && store.troubles == old(store.troubles) ==>
              r == if store.contents.None? then Err(MapObjectError(result.error))
                   else if Matches(store.Reply(), transfer, Some(expected)) then Ok(store.Reply())
                   else Err(INTEGRITY)
    ensures r.Err? ==> r.error == INTEGRITY || (result.Err? && r.error == MapObjectError(result.error))
  {
    var stored: StoredObject;
    if result.Ok? {
      stored := result.value;
    } else {
      var metadata := store.Head();
      if metadata.Err? {
        return Err(MapObjectError(result.error));
      }
      var m := metadata.value;
      stored := StoredObject(transfer.key, m.etag, m.version, m.size, m.checksum);
    }
    if stored.key != transfer.key || stored.size != transfer.size || stored.checksum != Some(expected) {
      return Err(INTEGRITY);
    }
    return Ok(stored);
  }

  /** Every change asked of the provider was announced by a compare-and-set of its own, a publishing one as such. */
  twostate predicate Announced(store: KeyStore, ledger: Ledger)
    reads store, ledger
  {
    && store.mutations - old(store.mutations) <= ledger.marks - old(ledger.marks)
    && store.publications - old(store.publications) <= ledger.completionMarks - old(ledger.completionMarks)
    && store.troubles >= old(store.troubles) && ledger.refusals >= old(ledger.refusals)
  }

  /** No call went wrong and no transaction was refused. */
  twostate predicate Smooth(store: KeyStore, ledger: Ledger)
    reads store, ledger
  {
    store.troubles == old(store.troubles) && ledger.refusals == old(ledger.refusals)
  }

  method StoreSingle(transfer: Transfer, file: seq<byte>, store: KeyStore, ledger: Ledger)
    returns (r: Result<StoredObject, AppError>)
    requires store.key == transfer.key && store.Valid()
    modifies store, ledger`refusals, ledger`marks, ledger`completionMarks
    ensures store.Valid() && Announced(store, ledger)
    ensures r.Ok? ==> Matches(r.value, transfer, Some(FullObject(transfer.sha256)))
    ensures r.Ok? ==> store.contents.Some? && Describes(FullObject(transfer.sha256), store.contents.value)
    ensures Smooth(store, ledger) && |file| == transfer.size && Sha256(file) == transfer.sha256 ==>
              r == Ok(store.Reply())
  {
    var allowed := ledger.BeforeProviderCall(true);
    if allowed.Err? {
      return Err(allowed.error);
    }
    var result := store.PutFile(file, transfer.size, transfer.sha256);
    r := ReconcileWrite(transfer, result, FullObject(transfer.sha256), store);
  }

  /** What `PrepareParts` leaves to send. */
  ghost predicate ReadyParts(parts: seq<StoredPart>, plan: Plan, data: seq<byte>)
    requires WellFormed(plan) && |data| == plan.fileSize
  {
    |parts| == plan.partCount
    && forall i :: 0 <= i < |parts| ==> parts[i].number == i + 1 && parts[i].digest == Sha256(Piece(plan, data, i + 1))
  }

  /** Sends one planned range of the file. */
  method SendPart(part: StoredPart, session: string, file: seq<byte>, plan: Plan, store: KeyStore, ledger: Ledger)
    returns (r: Result<string, AppError>)
    requires WellFormed(plan) && plan.fileSize <= |file| && 1 <= part.number <= plan.partCount
    requires part.digest == Sha256(Piece(plan, file[..plan.fileSize], part.number))
    modifies store`parts, store`etags, store`troubles, store`mutations
    modifies ledger`refusals, ledger`marks, ledger`completionMarks
    ensures Announced(store, ledger) && (Smooth(store, ledger) ==> r.Ok?)
    ensures |store.parts| == |old(store.parts)| || |store.parts| == |old(store.parts)| + 1
    ensures r.Ok? ==> store.etags == old(store.etags)[(session, part.number) := r.value]
    ensures r.Ok? ==> store.parts != [] && store.parts == old(store.parts) + [store.parts[|store.parts| - 1]]
                      && SendsPart(store.parts[|store.parts| - 1], session, plan, file[..plan.fileSize], part.number)
  {
    PartsTile(plan, part.number);
    var size := ExpectedPartSize(plan, part.number).value;
    var allowed := ledger.BeforeProviderCall(false);
    if allowed.Err? {
      return Err(allowed.error);
    }
    var offset := PartOffset(plan, part.number);
    assert file[offset..offset + size] == file[..plan.fileSize][offset..offset + size];
    var etag := store.UploadPart(session, part.number, file, offset, size, part.digest);
    return if etag.Ok? then Ok(etag.value) else Err(MapObjectError(etag.error));
  }

  method SendParts(
    prepared: seq<StoredPart>, session: string, file: seq<byte>, plan: Plan, store: KeyStore, ledger: Ledger)
    returns (r: Result<seq<StoredPart>, AppError>)
    requires WellFormed(plan) && plan.fileSize <= |file| && ReadyParts(prepared, plan, file[..plan.fileSize])
    modifies store`parts, store`etags, store`troubles, store`mutations
    modifies ledger`refusals, ledger`marks, ledger`completionMarks
    ensures Announced(store, ledger) && (Smooth(store, ledger) ==> r.Ok?)
    ensures r.Ok? ==> Tagged(store.etags, session, r.value, |r.value|)
    ensures r.Ok? ==> ReadyParts(r.value, plan, file[..plan.fileSize]) && |old(store.parts)| <= |store.parts|
                      && SendsParts(store.parts[|old(store.parts)|..], session, plan, file[..plan.fileSize])
  {
    hide SendsPart, Piece, WellFormed, Tagged;
    var parts := prepared;
    ghost var data, before, sent: seq<PartRequest> := file[..plan.fileSize], store.parts, [];
    NothingTagged(store.etags, session, parts);
    for i := 0 to |parts|
      invariant |parts| == plan.partCount && ReadyParts(parts, plan, data)
      invariant |sent| == i && store.parts == before + sent && Announced(store, ledger)
      invariant forall j :: 0 <= j < i ==> SendsPart(sent[j], session, plan, data, j + 1)
      invariant Numbered(parts) && Tagged(store.etags, session, parts, i)
    {
      ghost var etags := store.etags;
      var etag := SendPart(parts[i], session, file, plan, store, ledger);
      if etag.Err? {
        return Err(etag.error);
      }
      ghost var request := store.parts[|store.parts| - 1];
      assert before + sent + [request] == before + (sent + [request]);
      sent := sent + [request];
      TaggedAt(etags, session, parts, i, etag.value);
      parts := parts[i := parts[i].(etag := etag.value)];
    }
    assert store.parts[|before|..] == sent;
    return Ok(parts);
  }

  /** The sent parts can be assembled into the file. */
  lemma SentIsAssembled(
    plan: Plan, data: seq<byte>, parts: seq<StoredPart>, session: string, sent: seq<PartRequest>)
    requires WellFormed(plan) && |data| == plan.fileSize && ReadyParts(parts, plan, data)
    requires SendsParts(sent, session, plan, data)
    ensures DigestsOf(parts) == PartDigests(plan, data, plan.partCount) && Join(DigestsOf(parts)) == data
    ensures forall i :: 0 <= i < |parts| ==>
              PartRequest(session, parts[i].number, parts[i].digest.of, parts[i].digest) in sent
  {
    hide Piece, Join;
    PartsJoin(plan, data, plan.partCount);
    assert DigestsOf(parts) == PartDigests(plan, data, plan.partCount);
    forall i | 0 <= i < |parts|
      ensures PartRequest(session, parts[i].number, parts[i].digest.of, parts[i].digest) in sent
    {
      assert SendsPart(sent[i], session, plan, data, i + 1);
    }
  }

  /** Opens a session and records it before any part is sent. */
  method OpenSession(lease: Lease, store: KeyStore) returns (r: Result<string, AppError>)
    requires store.Valid()
    modifies store`sessions, store`troubles, store`mutations, lease`session
    modifies lease.ledger`session, lease.ledger`refusals, lease.ledger`marks, lease.ledger`completionMarks
    ensures Announced(store, lease.ledger) && (Smooth(store, lease.ledger) ==> r.Ok?)
    ensures r.Ok? ==> lease.session == Some(r.value) && lease.ledger.session == lease.session
    ensures store.sessions != old(store.sessions) ==>
              lease.session.Some? && store.sessions == old(store.sessions) + [lease.session.value]
  {
    var allowed := lease.ledger.BeforeProviderCall(false);
    if allowed.Err? {
      return Err(allowed.error);
    }
    var created := store.CreateMultipart();
    if created.Err? {
      return Err(MapObjectError(created.error));
    }
    lease.session := Some(created.value);
    var recorded := lease.ledger.RecordMultipart(created.value);
    if recorded.Err? {
      return Err(recorded.error);
    }
    return Ok(created.value);
  }

  /** Announces and asks for the assembly, and accepts only the expected object. */
  method AssembleParts(
    transfer: Transfer, parts: seq<StoredPart>, session: string, expected: Checksum, store: KeyStore, ledger: Ledger,
    ghost data: seq<byte>)
    returns (r: Result<StoredObject, AppError>)
    requires store.key == transfer.key && store.Valid() && |data| == transfer.size
    requires store.AllSent(session, parts) && Join(DigestsOf(parts)) == data && expected == Composite(DigestsOf(parts))
    modifies store`contents, store`held, store`completions, store`troubles, store`mutations, store`publications
    modifies ledger`refusals, ledger`marks, ledger`completionMarks
    ensures store.Valid() && Announced(store, ledger)
    ensures r.Ok? ==> Matches(r.value, transfer, Some(expected))
    ensures r.Ok? ==> store.contents.Some? && Describes(expected, store.contents.value)
    ensures Smooth(store, ledger) ==> r == Ok(store.Reply())
  {
    var allowed := ledger.BeforeProviderCall(true);
    if allowed.Err? {
      return Err(allowed.error);
    }
    var result := store.CompleteMultipart(session, parts, transfer.size);
    r := ReconcileWrite(transfer, result, expected, store);
  }

  method StoreMultipart(lease: Lease, file: seq<byte>, plan: Plan, store: KeyStore)
    returns (r: Result<StoredObject, AppError>)
    requires store.key == lease.transfer.key && store.Valid()
    requires WellFormed(plan) && plan.fileSize == lease.transfer.size
    modifies store, lease`session
    modifies lease.ledger`session, lease.ledger`refusals, lease.ledger`marks, lease.ledger`completionMarks
    ensures store.Valid() && Announced(store, lease.ledger)
    ensures r.Ok? ==> plan.fileSize <= |file|
    ensures r.Ok? ==>
              var data := file[..plan.fileSize];
              var expected := Composite(PartDigests(plan, data, plan.partCount));
              && Matches(r.value, lease.transfer, Some(expected))
              && store.contents.Some? && Describes(expected, store.contents.value)
              && lease.session.Some? && lease.ledger.session == lease.session
              && |old(store.parts)| <= |store.parts|
              && SendsParts(store.parts[|old(store.parts)|..], lease.session.value, plan, data)
    ensures store.sessions != old(store.sessions) ==>
              lease.session.Some? && store.sessions == old(store.sessions) + [lease.session.value]
    ensures Smooth(store, lease.ledger) && plan.fileSize <= |file| && r != Err(TEMPORARY) ==> r == Ok(store.Reply())
  {
    hide Describes, Piece, SendsParts, Join, WellFormed, Tagged;
    var prepared := PrepareParts(file, plan);
    if prepared.Err? {
      return Err(prepared.error);
    }
    var (parts, expected) := prepared.value;
    var session := OpenSession(lease, store);
    if session.Err? {
      return Err(session.error);
    }
    ghost var before := |store.parts|;
    var sent := SendParts(parts, session.value, file, plan, store, lease.ledger);
    if sent.Err? {
      return Err(sent.error);
    }
    ghost var data := file[..plan.fileSize];
    SentIsAssembled(plan, data, sent.value, session.value, store.parts[before..]);
    store.SentAndTagged(session.value, sent.value, store.parts[before..]);
    r := AssembleParts(lease.transfer, sent.value, session.value, expected, store, lease.ledger, data);
  }

  /** The staged file is what the manifest names. */
  predicate IsManifested(transfer: Transfer, file: seq<byte>, size: u64, sha256: Digest) {
    size == transfer.size == |file| && sha256 == transfer.sha256 == Sha256(file)
  }

  /** Stores by the route the size asks for. */
  method StoreByRoute(lease: Lease, file: seq<byte>, store: KeyStore) returns (r: Result<StoredObject, AppError>)
    requires store.key == lease.transfer.key && store.Valid()
    modifies store, lease`session
    modifies lease.ledger`session, lease.ledger`refusals, lease.ledger`marks, lease.ledger`completionMarks
    ensures store.Valid() && Announced(store, lease.ledger)
    ensures r.Ok? ==>
              && Matches(r.value, lease.transfer, Expected(lease.transfer, file))
              && store.contents.Some? && Describes(Expected(lease.transfer, file).value, store.contents.value)
    ensures lease.transfer.size > MAX_UPLOAD_BYTES ==>
              r == Err(PayloadTooLarge) && store.mutations == old(store.mutations)
    ensures Smooth(store, lease.ledger) && lease.transfer.size <= MAX_UPLOAD_BYTES && r != Err(TEMPORARY)
            && |file| == lease.transfer.size && Sha256(file) == lease.transfer.sha256 ==>
              r == Ok(store.Reply())
  {
    hide Describes, WellFormed, PlanFor, Piece;
    var strategy := StrategyFor(lease.transfer.size);
    PlanIsTotal(lease.transfer.size);
    match strategy {
      case Err(_) => return Err(PayloadTooLarge);
      case Ok(SingleRequest) => r := StoreSingle(lease.transfer, file, store, lease.ledger);
      case Ok(Chunked(plan)) => r := StoreMultipart(lease, file, plan, store);
    }
  }

  /**
   * Stages only an object whose key, size and locally computed checksum match the frozen
   * manifest. The lease is disarmed exactly when the staging committed or may have. When
   * nothing goes wrong, a manifested file of an accepted size is staged.
   */
  method Store(lease: Lease, file: seq<byte>, size: u64, sha256: Digest, store: KeyStore)
    returns (r: Result<(), AppError>)
    requires store.key == lease.transfer.key && store.Valid() && lease.armed && lease.stored.None?
    modifies store, lease
    modifies lease.ledger`staged, lease.ledger`session
    modifies lease.ledger`refusals, lease.ledger`marks, lease.ledger`completionMarks
    ensures store.Valid() && Announced(store, lease.ledger)
    ensures lease.ledger.staged != old(lease.ledger.staged) || r.Ok? ==>
              && size == lease.transfer.size && sha256 == lease.transfer.sha256
              && lease.ledger.staged.Some? && lease.ledger.staged == lease.stored
              && Matches(lease.ledger.staged.value, lease.transfer, Expected(lease.transfer, file))
              && store.contents.Some? && Describes(Expected(lease.transfer, file).value, store.contents.value)
    ensures lease.ledger.staged != old(lease.ledger.staged) ==> !lease.armed
    ensures !lease.armed <==> lease.stored.Some? && (r.Ok? || r.error.DatabaseCommitOutcomeUnknown?)
    ensures size != lease.transfer.size || sha256 != lease.transfer.sha256 ==>
              r == Err(MISMATCH) && store.mutations == old(store.mutations)
    ensures Smooth(store, lease.ledger) && IsManifested(lease.transfer, file, size, sha256) && r != Err(TEMPORARY) ==>
              if size <= MAX_UPLOAD_BYTES then r.Ok? && lease.stored == Some(store.Reply())
              else r == Err(PayloadTooLarge)
  {
    hide Expected, Describes, Matches;
    if size != lease.transfer.size || sha256 != lease.transfer.sha256 {
      return Err(MISMATCH);
    }
    var stored := StoreByRoute(lease, file, store);
    if stored.Err? {
      return Err(stored.error);
    }
    lease.stored := Some(stored.value);
    r := lease.ledger.CompleteTransfer(stored.value);
    if r.Ok? || r.error.DatabaseCommitOutcomeUnknown? {
      lease.armed := false;
    }
  }

  /**
   * The transfer route: whatever the chunk sizes and short reads, the bytes behind a staged
   * object are exactly the received stream, and their digest is the manifest's. A staging
   * that may have committed is never reported as failed, and any other failure is, with the
   * session and evidence there are. When nothing goes wrong, a stream is staged exactly when
   * it is what the manifest names.
   */
  method ReceiveTransfer(lease: Lease, stream: seq<Delivery>, length: u64, fault: bool, store: KeyStore)
    returns (r: Result<(), AppError>)
    requires store.key == lease.transfer.key && store.Valid() && lease.armed && lease.stored.None?
    modifies store, lease
    modifies lease.ledger`staged, lease.ledger`failed, lease.ledger`session
    modifies lease.ledger`refusals, lease.ledger`marks, lease.ledger`completionMarks
    ensures store.Valid() && Announced(store, lease.ledger)
    ensures lease.ledger.staged != old(lease.ledger.staged) || r.Ok? ==>
              && Faultless(stream) && |Received(stream)| == lease.transfer.size
              && Sha256(Received(stream)) == lease.transfer.sha256
              && store.contents == Some(Received(stream)) && lease.ledger.staged.Some?
              && Matches(lease.ledger.staged.value, lease.transfer, Expected(lease.transfer, Received(stream)))
    ensures r.Ok? || lease.ledger.staged != old(lease.ledger.staged) ==> lease.ledger.failed == old(lease.ledger.failed)
    ensures r.Err? && lease.armed && Smooth(store, lease.ledger) ==>
              lease.ledger.failed == Some(Failure(lease.session, lease.stored))
    ensures Smooth(store, lease.ledger) && Faultless(stream) && !fault && r != Err(TEMPORARY) ==>
              (r.Ok? <==> && length == lease.transfer.size == |Received(stream)| <= MAX_UPLOAD_BYTES
                          && Sha256(Received(stream)) == lease.transfer.sha256)
    ensures Smooth(store, lease.ledger) && Faultless(stream) && !fault && r.Ok? ==>
              lease.ledger.staged == Some(store.Reply())
  {
    hide Expected, Describes, Received, Faultless, Matches;
    if length != lease.transfer.size {
      lease.Drop();
      return Err(MISMATCH);
    }
    var staged := StageBody(stream, length, fault);
    if staged.Err? {
      lease.Drop();
      return Err(if staged.error == TooLarge then PayloadTooLarge else TEMPORARY);
    }
    var file := staged.value;
    r := Store(lease, file.contents, file.size, file.sha256, store);
    if lease.ledger.staged != old(lease.ledger.staged) || r.Ok? {
      StagedIsReceived(lease.transfer, file, lease.ledger.staged.value, store.contents);
    }
    lease.Drop();
  }

  lemma StagedIsReceived(transfer: Transfer, file: Staged, evidence: StoredObject, contents: Option<seq<byte>>)
    requires |file.contents| == transfer.size && transfer.sha256 == Sha256(file.contents)
    requires Matches(evidence, transfer, Expected(transfer, file.contents))
    requires contents.Some? && Describes(Expected(transfer, file.contents).value, contents.value)
    ensures contents == Some(file.contents)
  {
    hide Expected, Describes;
    EvidenceNamesTheBytes(transfer, file.contents, contents.value);
  }

  // ---- publishing --------------------------------------------------------

  /** What a fresh lookup must show before staged evidence is published. */
  predicate Confirms(m: Metadata, stored: StoredObject) {
    m.size == stored.size && m.checksum == stored.checksum && m.version == stored.version && m.checksum.Some?
  }

  /**
   * Publishes only staged evidence that a fresh lookup of the object confirms. When nothing
   * goes wrong, it publishes exactly that, or reports what is missing: a staged row, the
   * object, or its agreement with the evidence.
   */
  method Commit(ledger: Ledger, store: KeyStore) returns (r: Result<(), AppError>)
    requires store.Valid()
    modifies ledger`published, ledger`refusals, store`troubles
    ensures ledger.refusals >= old(ledger.refusals) && store.troubles >= old(store.troubles)
    ensures r.Ok? ==> ledger.published.Some?
    ensures ledger.published != old(ledger.published) ==>
              && ledger.published.Some? && ledger.published == ledger.staged
              && ledger.published.value.checksum.Some? && store.contents.Some?
              && Truthful(ledger.published.value.size, ledger.published.value.checksum, store.contents)
    ensures store.troubles == old(store.troubles) && ledger.refusals == old(ledger.refusals) ==>
              if old(ledger.published).Some? then r.Ok? && ledger.published == old(ledger.published)
              else if ledger.staged.None? then r == Err(Refused)
              else if store.contents.None? then r == Err(MapObjectError(NotFound))
              else if !Confirms(store.held, ledger.staged.value) then r == Err(INTEGRITY)
              else r.Ok? && ledger.published == ledger.staged
  {
    var prepared := ledger.PrepareCommit();
    if prepared.Err? {
      return Err(prepared.error);
    }
    if prepared.value.None? {
      return Ok(());
    }
    var stored := prepared.value.value;
    var metadata := store.Head();
    if metadata.Err? {
      return Err(MapObjectError(metadata.error));
    }
    var m := metadata.value;
    if m.size != stored.size || m.checksum != stored.checksum || m.version != stored.version || m.checksum.None? {
      return Err(INTEGRITY);
    }
    r := ledger.Publish(stored);
  }

  /** Confirmed evidence of a received file: the published bytes are the received bytes. */
  lemma PublishedBytesAreReceivedBytes(
    transfer: Transfer, received: seq<byte>, evidence: StoredObject, contents: Option<seq<byte>>)
    requires |received| == transfer.size && transfer.sha256 == Sha256(received)
    requires Matches(evidence, transfer, Expected(transfer, received))
    requires Truthful(evidence.size, evidence.checksum, contents)
    ensures contents == Some(received)
  {
    hide Expected, Describes;
    EvidenceNamesTheBytes(transfer, received, contents.value);
  }

  /**
   * Transfer and publication together, with the provider free to change in between: if the
   * upload is published, the object holds exactly the received stream. When nothing goes
   * wrong, what is received as the manifest names it is published.
   */
  method ReceiveAndPublish(lease: Lease, stream: seq<Delivery>, length: u64, fault: bool, store: KeyStore)
    returns (r: Result<(), AppError>, temporary: bool)
    requires store.key == lease.transfer.key && store.Valid() && lease.armed && lease.stored.None?
    requires lease.ledger.staged.None? && lease.ledger.published.None?
    modifies store, lease, lease.ledger
    ensures r.Ok? ==> lease.ledger.published.Some?
    ensures lease.ledger.published.Some? ==>
              && Faultless(stream) && |Received(stream)| == lease.transfer.size
              && Sha256(Received(stream)) == lease.transfer.sha256
              && store.contents == Some(Received(stream))
              && lease.ledger.published.value.key == lease.transfer.key
              && lease.ledger.published.value.size == lease.transfer.size
    ensures Smooth(store, lease.ledger) && Faultless(stream) && !fault && !temporary
            && length == lease.transfer.size == |Received(stream)| <= MAX_UPLOAD_BYTES
            && Sha256(Received(stream)) == lease.transfer.sha256 ==>
              r.Ok?
  {
    hide Expected, Describes, Received, Faultless;
    ghost var bytes := Received(stream);
    var received := ReceiveTransfer(lease, stream, length, fault, store);
    temporary := received == Err(TEMPORARY);
    store.Change();
    r := Commit(lease.ledger, store);
    if lease.ledger.published.Some? {
      PublishedBytesAreReceivedBytes(lease.transfer, bytes, lease.ledger.published.value, store.contents);
    }
  }
}
