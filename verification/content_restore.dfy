/** Moving large contents: restoring between storage targets, and multipart upload of a staged file. */
module ContentRestore {
  import opened Wrappers
  import opened Text
  import opened Multipart
  import opened Digests
  import opened ObjectStore

  /** What a restore must reproduce, and where. */
  datatype Preparation = Preparation(key: Key, size: u64, checksum: Checksum)

  const PLAN_ERROR := Internal("multipart_plan")
  const INVALID_PART_SIZE := Validation("invalid_part_size")
  const CHECKSUM_MISMATCH := Conflict("version_checksum_mismatch")

  /** The planned ranges of the first `count` parts. */
  function PlannedRanges(plan: Plan, count: nat): (ranges: seq<(nat, nat)>)
    requires WellFormed(plan) && count <= plan.partCount
    ensures |ranges| == count
  {
    if count == 0 then []
    else
      PartsTile(plan, count);
      PlannedRanges(plan, count - 1) + [(PartOffset(plan, count) as nat, ExpectedPartSize(plan, count).value)]
  }

  /** Ranges that begin where the previous one ended. */
  predicate Tiles(ranges: seq<(nat, nat)>, start: nat, end: nat) {
    if ranges == [] then start == end
    else ranges[|ranges| - 1].1 > 0 && ranges[|ranges| - 1].0 + ranges[|ranges| - 1].1 == end
         && Tiles(ranges[..|ranges| - 1], start, ranges[|ranges| - 1].0)
  }

  /** The planned ranges tile the file: in order, without gap or overlap, each non-empty. */
  lemma {:induction false} PlannedRangesTile(plan: Plan, count: nat)
    requires WellFormed(plan) && count <= plan.partCount
    ensures var end := if count == 0 then 0 else PartEnd(plan, count);
            end >= 0 && Tiles(PlannedRanges(plan, count), 0, end)
    ensures PartEnd(plan, plan.partCount) == plan.fileSize
  {
    hide WellFormed, ExpectedPartSize;
    if count > 0 {
      PlannedRangesTile(plan, count - 1);
      PartsTile(plan, count);
      PartsTile(plan, 1);
      if count > 1 {
        PartsTile(plan, count - 1);
      }
      var ranges := PlannedRanges(plan, count);
      assert ranges[..count - 1] == PlannedRanges(plan, count - 1);
    }
  }

  predicate SourceChecksumMatches(expected: Checksum, full: Checksum, composite: Checksum) {
    match expected
    case FullObject(_) => expected == full
    case Composite(_) => expected == composite
  }

  /** A recorded checksum that these bytes, cut as planned, reproduce: their digest or the digests of their parts. */
  ghost predicate Reproduces(expected: Checksum, plan: Plan, data: seq<byte>)
    requires WellFormed(plan) && |data| == plan.fileSize
  {
    match expected
    case FullObject(digest) => digest == Sha256(data)
    case Composite(parts) =>
      |parts| == plan.partCount && forall i :: 0 <= i < |parts| ==> parts[i] == Sha256(Piece(plan, data, i + 1))
  }

  /** The test accepts exactly the checksums that the bytes reproduce. */
  lemma MatchIsReproduction(expected: Checksum, plan: Plan, data: seq<byte>)
    requires WellFormed(plan) && |data| == plan.fileSize
    ensures SourceChecksumMatches(
              expected, FullObject(Sha256(data)), Composite(PartDigests(plan, data, plan.partCount)))
            <==> Reproduces(expected, plan, data)
  {
    if expected.Composite? && Reproduces(expected, plan, data) {
      assert expected.parts == PartDigests(plan, data, plan.partCount);
    }
  }

  /** Either kind of recorded checksum that matches describes the bytes that were read. */
  lemma MatchDescribes(expected: Checksum, plan: Plan, data: seq<byte>)
    requires WellFormed(plan) && |data| == plan.fileSize
    requires
      SourceChecksumMatches(expected, FullObject(Sha256(data)), Composite(PartDigests(plan, data, plan.partCount)))
    ensures Describes(expected, data)
  {
    PartsJoin(plan, data, plan.partCount);
  }

  // ---- one part ----------------------------------------------------------

  /**
   * Downloads one range, digests it alone and into the running digest, and sends it as a part.
   * The source may have changed since the range before, and nothing here relies on it.
   */
  method TransferPart(
    source: KeyStore, destination: KeyStore, session: string, number: nat, offset: nat, size: nat, running: seq<byte>)
    returns (r: Result<StoredPart, AppError>, fed: seq<byte>)
    requires source != destination && source.Valid()
    modifies source`contents, source`held, source`downloads, source`troubles
    modifies destination`parts, destination`etags, destination`troubles, destination`mutations
    ensures source.Valid() && source.troubles >= old(source.troubles)
    ensures destination.troubles >= old(destination.troubles)
    ensures source.troubles == old(source.troubles) ==>
              source.contents == old(source.contents) && source.held == old(source.held)
    ensures source.downloads == old(source.downloads) + [(offset, size)]
    ensures r.Ok? ==>
              && var piece := r.value.digest.of;
              && source.contents.Some? && offset + size <= |source.contents.value|
              && piece == source.contents.value[offset..offset + size]
              && fed == running + piece && r.value.number == number
              && destination.etags == old(destination.etags)[(session, number) := r.value.etag]
              && destination.parts == old(destination.parts) + [PartRequest(session, number, piece, Sha256(piece))]
    ensures r.Err? ==> r.error != PLAN_ERROR && r.error != CHECKSUM_MISMATCH
    ensures r.Err? ==>
              || r.error == TEMPORARY
              || source.troubles > old(source.troubles) || destination.troubles > old(destination.troubles)
              || source.contents.None? || offset + size > |source.contents.value|
  {
    fed := running;
    source.Change();
    var file := source.GetRange(offset, size);
    if file.Err? {
      return Err(MapObjectError(file.error)), fed;
    }
    var digest: Result<Digest, AppError>;
    digest, fed := Sha256FileAndUpdate(file.value, running);
    if digest.Err? {
      return Err(digest.error), fed;
    }
    assert file.value[0..size] == file.value;
    var etag := destination.UploadPart(session, number, file.value, 0, size, digest.value);
    if etag.Err? {
      return Err(MapObjectError(etag.error)), fed;
    }
    return Ok(StoredPart(number, etag.value, digest.value)), fed;
  }

  /** Assembles the parts once; a lost or failed reply is made good only by a lookup that finds them assembled. */
  method CompleteOrReconcile(
    destination: KeyStore, session: string, parts: seq<StoredPart>, p: Preparation, composite: Checksum)
    returns (r: Result<StoredObject, AppError>)
    requires destination.key == p.key && destination.Valid()
    modifies destination`contents, destination`held, destination`completions, destination`troubles
    modifies destination`mutations, destination`publications
    ensures destination.Valid() && destination.troubles >= old(destination.troubles)
    ensures destination.completions == old(destination.completions) + 1
    ensures r.Ok? && r.value.key == p.key ==> Truthful(r.value.size, r.value.checksum, destination.contents)
    ensures destination.troubles == old(destination.troubles) && destination.AllSent(session, parts)
            && |Join(DigestsOf(parts))| == p.size ==>
              r == Ok(destination.Reply()) && destination.held.checksum == Some(Composite(DigestsOf(parts)))
    ensures r.Err? ==> r.error != PLAN_ERROR && r.error != CHECKSUM_MISMATCH
  {
    var completed := destination.CompleteMultipart(session, parts, p.size);
    if completed.Ok? {
      return Ok(completed.value);
    }
    var metadata := destination.Head();
    if metadata.Ok? && metadata.value.size == p.size && metadata.value.checksum == Some(composite) {
      var m := metadata.value;
      return Ok(StoredObject(p.key, m.etag, m.version, m.size, m.checksum));
    }
    return Err(MapObjectError(completed.error));
  }

  function ValidateRestored(stored: StoredObject, p: Preparation, expected: Checksum): Result<(), AppError> {
    if stored.key != p.key || stored.size != p.size then Err(Conflict("restored_object_mismatch"))
    else if stored.checksum != Some(expected) then Err(Conflict("restored_object_checksum_mismatch"))
    else Ok(())
  }

  // ---- all parts ---------------------------------------------------------

  /** Everything that has happened after `count` parts were transferred, whatever each range returned. */
  ghost predicate Transferred(
    plan: Plan, session: string, count: nat,
    parts: seq<StoredPart>, running: seq<byte>, ranges: seq<(nat, nat)>, sent: seq<PartRequest>)
    requires WellFormed(plan) && count <= plan.partCount
  {
    && |parts| == count && |sent| == count && (forall i :: 0 <= i < count ==> parts[i].number == i + 1)
    && PlannedSizes(plan, DigestsOf(parts))
    && running == Join(DigestsOf(parts))
    && ranges == PlannedRanges(plan, count)
    && forall i :: 0 <= i < count ==> sent[i] == PartRequest(session, i + 1, parts[i].digest.of, parts[i].digest)
  }

  /** One more part: its range is the planned one, and it is sent and digested as it came. */
  lemma TransferredNext(
    plan: Plan, session: string, count: nat,
    parts: seq<StoredPart>, running: seq<byte>, ranges: seq<(nat, nat)>, sent: seq<PartRequest>,
    part: StoredPart, offset: nat, size: nat)
    requires WellFormed(plan) && count < plan.partCount
    requires Transferred(plan, session, count, parts, running, ranges, sent)
    requires offset == PartOffset(plan, count + 1) && Some(size) == ExpectedPartSize(plan, count + 1)
    requires |part.digest.of| == size && part.number == count + 1
    ensures Transferred(plan, session, count + 1, parts + [part], running + part.digest.of, ranges + [(offset, size)],
                        sent + [PartRequest(session, count + 1, part.digest.of, part.digest)])
    ensures offset + size == PartEnd(plan, count + 1)
  {
    hide WellFormed, Join;
    PartsTile(plan, count + 1);
    assert DigestsOf(parts + [part]) == DigestsOf(parts) + [part.digest];
    JoinNext(DigestsOf(parts), part.digest);
  }

  lemma NothingTransferred(plan: Plan, session: string)
    requires WellFormed(plan)
    ensures Transferred(plan, session, 0, [], [], [], [])
  {
  }

  /** All parts together are the planned parts of what came. */
  lemma TransferredIsPlanned(
    plan: Plan, session: string,
    parts: seq<StoredPart>, running: seq<byte>, ranges: seq<(nat, nat)>, sent: seq<PartRequest>)
    requires WellFormed(plan) && Transferred(plan, session, plan.partCount, parts, running, ranges, sent)
    ensures |running| == plan.fileSize && DigestsOf(parts) == PartDigests(plan, running, plan.partCount)
    ensures ranges == PlannedRanges(plan, plan.partCount) && SendsParts(sent, session, plan, running)
  {
    hide Join, Piece;
    PiecesAreParts(plan, DigestsOf(parts));
    forall i | 0 <= i < |sent|
      ensures SendsPart(sent[i], session, plan, running, i + 1)
    {
      assert DigestsOf(parts)[i] == Sha256(Piece(plan, running, i + 1));
    }
  }

  /** What was transferred is the beginning of what the source holds. */
  predicate Copies(running: seq<byte>, contents: Option<seq<byte>>) {
    contents.Some? && running <= contents.value
  }

  /** The parts of `data`, sent to the session from `before` on and ready to be assembled. */
  ghost predicate Ready(
    plan: Plan, session: string, data: seq<byte>, parts: seq<StoredPart>, before: nat, store: KeyStore)
    requires WellFormed(plan)
    reads store
  {
    && |data| == plan.fileSize && before <= |store.parts|
    && DigestsOf(parts) == PartDigests(plan, data, plan.partCount) && Join(DigestsOf(parts)) == data
    && SendsParts(store.parts[before..], session, plan, data) && store.AllSent(session, parts)
  }

  /** The loop over the parts: every planned range once, in order, whatever it returns. */
  method TransferParts(plan: Plan, source: KeyStore, destination: KeyStore, session: string)
    returns (r: Result<seq<StoredPart>, AppError>, running: seq<byte>, end: int)
    requires WellFormed(plan) && source != destination && source.Valid()
    modifies source`contents, source`held, source`downloads, source`troubles
    modifies destination`parts, destination`etags, destination`troubles, destination`mutations
    ensures source.Valid() && source.troubles >= old(source.troubles)
    ensures destination.troubles >= old(destination.troubles)
    ensures source.troubles == old(source.troubles) ==> source.contents == old(source.contents)
    ensures r.Err? ==> r.error != PLAN_ERROR && r.error != CHECKSUM_MISMATCH
    ensures r.Err? && old(source.contents).Some? && |old(source.contents).value| == plan.fileSize ==>
              || r.error == TEMPORARY
              || source.troubles > old(source.troubles) || destination.troubles > old(destination.troubles)
    ensures r.Ok? ==>
              && end == |running| && Ready(plan, session, running, r.value, |old(destination.parts)|, destination)
              && source.downloads == old(source.downloads) + PlannedRanges(plan, plan.partCount)
    ensures r.Ok? && source.troubles == old(source.troubles) && old(source.contents).Some?
            && |old(source.contents).value| == plan.fileSize ==>
              running == old(source.contents).value
  {
    hide Transferred, ExpectedPartSize, Join, SendsParts, Truthful, Tagged;
    var parts: seq<StoredPart> := [];
    running := [];
    var offset := 0;
    ghost var before, beforeDownloads := destination.parts, source.downloads;
    ghost var ranges: seq<(nat, nat)>, sent: seq<PartRequest> := [], [];
    NothingTransferred(plan, session);
    NothingTagged(destination.etags, session, parts);
    PartsTile(plan, 1);
    for number := 1 to plan.partCount + 1
      invariant offset == if number <= plan.partCount then PartOffset(plan, number) else plan.fileSize
      invariant |running| == offset
      invariant source.downloads == beforeDownloads + ranges && destination.parts == before + sent
      invariant source.Valid() && source.troubles >= old(source.troubles)
      invariant destination.troubles >= old(destination.troubles)
      invariant source.troubles == old(source.troubles) ==>
                  source.contents == old(source.contents) && (running != [] ==> Copies(running, source.contents))
      invariant |parts| == number - 1 && Numbered(parts) && Tagged(destination.etags, session, parts, |parts|)
      invariant Transferred(plan, session, number - 1, parts, running, ranges, sent)
    {
      PartsTile(plan, number);
      var size := ExpectedPartSize(plan, number).value;
      ghost var etags := destination.etags;
      var part, fed := TransferPart(source, destination, session, number, offset, size, running);
      if part.Err? {
        return Err(part.error), running, offset;
      }
      TransferredNext(plan, session, number - 1, parts, running, ranges, sent, part.value, offset, size);
      TaggedNext(etags, session, parts, part.value);
      ranges := ranges + [(offset, size)];
      sent := sent + [PartRequest(session, number, part.value.digest.of, part.value.digest)];
      parts := parts + [part.value];
      running := fed;
      if offset + size > U64_MAX {
        return Err(PLAN_ERROR), running, offset;
      }
      offset := offset + size;
    }
    TransferredIsPlanned(plan, session, parts, running, ranges, sent);
    TransferredIsSent(plan, session, parts, running, ranges, sent);
    assert destination.AllSent(session, parts) by {
      destination.SentAndTagged(session, parts, sent);
    }
    assert destination.parts[|before|..] == sent;
    return Ok(parts), running, offset;
  }

  /** Assembles what was sent, and accepts only an object with its size and checksum. */
  method Assemble(
    p: Preparation, plan: Plan, destination: KeyStore, session: string, parts: seq<StoredPart>, ghost data: seq<byte>)
    returns (r: Result<StoredObject, AppError>)
    requires WellFormed(plan) && plan.fileSize == p.size && destination.key == p.key && destination.Valid()
    requires |data| == p.size && DigestsOf(parts) == PartDigests(plan, data, plan.partCount)
    requires Join(DigestsOf(parts)) == data && destination.AllSent(session, parts)
    modifies destination`contents, destination`held, destination`completions, destination`troubles
    modifies destination`mutations, destination`publications
    ensures destination.Valid() && destination.troubles >= old(destination.troubles)
    ensures destination.completions == old(destination.completions) + 1
    ensures r.Err? ==> r.error != PLAN_ERROR && r.error != CHECKSUM_MISMATCH
    ensures destination.troubles == old(destination.troubles) ==> r.Ok?
    ensures r.Ok? ==>
              && destination.contents == Some(data) && r.value.key == p.key && r.value.size == p.size
              && r.value.checksum == Some(Composite(PartDigests(plan, data, plan.partCount)))
  {
    hide Join, Piece, WellFormed;
    var composite := Composite(DigestsOf(parts));
    var stored := CompleteOrReconcile(destination, session, parts, p, composite);
    if stored.Err? {
      return stored;
    }
    var valid := ValidateRestored(stored.value, p, composite);
    if valid.Err? {
      return Err(valid.error);
    }
    DescribedIsSent(plan, data, destination.contents.value);
    return stored;
  }

  /**
   * Transfers all parts in order. On success the downloaded ranges are the planned tiling,
   * every part was sent once, and the destination holds exactly the bytes that came, which
   * the recorded checksum describes, even if the source changed between two ranges. Nothing
   * is assembled before that checksum matches, and the offset errors cannot occur. When
   * nothing goes wrong, only a checksum that the bytes do not reproduce is refused.
   */
  method TransferLargeRestoreParts(p: Preparation, plan: Plan, source: KeyStore, destination: KeyStore, session: string)
    returns (r: Result<StoredObject, AppError>)
    requires WellFormed(plan) && plan.fileSize == p.size && destination.key == p.key && source != destination
    requires source.Valid() && destination.Valid()
    modifies source`contents, source`held, source`downloads, source`troubles
    modifies destination`parts, destination`etags, destination`contents, destination`held
    modifies destination`completions, destination`troubles
    modifies destination`mutations, destination`publications
    ensures source.Valid() && source.troubles >= old(source.troubles)
    ensures destination.Valid() && destination.troubles >= old(destination.troubles)
    ensures r.Err? ==> r.error != PLAN_ERROR
    ensures destination.completions == old(destination.completions) ==>
              destination.contents == old(destination.contents)
    ensures destination.completions != old(destination.completions) ==>
              Compared(p, plan, session, |old(destination.parts)|, destination.parts, true)
    ensures r == Err(CHECKSUM_MISMATCH) ==>
              && destination.completions == old(destination.completions)
              && Compared(p, plan, session, |old(destination.parts)|, destination.parts, false)
    ensures source.troubles == old(source.troubles) && destination.troubles == old(destination.troubles)
            && old(source.contents).Some? && |old(source.contents).value| == p.size && r != Err(TEMPORARY) ==>
              if Reproduces(p.checksum, plan, old(source.contents).value) then r.Ok? else r == Err(CHECKSUM_MISMATCH)
    ensures r == Err(CHECKSUM_MISMATCH) && source.troubles == old(source.troubles)
            && old(source.contents).Some? && |old(source.contents).value| == p.size ==>
              !Reproduces(p.checksum, plan, old(source.contents).value)
    ensures r.Ok? ==>
              && source.downloads == old(source.downloads) + PlannedRanges(plan, plan.partCount)
              && |old(destination.parts)| <= |destination.parts|
              && destination.contents.Some? && |destination.contents.value| == p.size
              && var data := destination.contents.value;
              && Describes(p.checksum, data) && Reproduces(p.checksum, plan, data)
              && SendsParts(destination.parts[|old(destination.parts)|..], session, plan, data)
              && r.value.key == p.key && r.value.size == p.size
              && r.value.checksum == Some(Composite(PartDigests(plan, data, plan.partCount)))
  {
    hide Join, SendsParts, Reproduces, Truthful, PlannedRanges, Piece, WellFormed;
    var transferred, running, end := TransferParts(plan, source, destination, session);
    if transferred.Err? {
      return Err(transferred.error);
    }
    var parts := transferred.value;
    if end != p.size {
      return Err(PLAN_ERROR);
    }
    var full := FullObject(Sha256(running));
    var composite := Composite(DigestsOf(parts));
    MatchIsReproduction(p.checksum, plan, running);
    if !SourceChecksumMatches(p.checksum, full, composite) {
      return Err(CHECKSUM_MISMATCH);
    }
    MatchDescribes(p.checksum, plan, running);
    assert destination.AllSent(session, parts);
    r := Assemble(p, plan, destination, session, parts, running);
  }

  /** The bytes that were sent do, or do not, reproduce the recorded checksum. */
  ghost predicate Compared(
    p: Preparation, plan: Plan, session: string, before: nat, requests: seq<PartRequest>, reproduced: bool)
    requires WellFormed(plan)
  {
    before <= |requests|
    && exists data: seq<byte> ::
         && |data| == plan.fileSize && SendsParts(requests[before..], session, plan, data)
         && (Reproduces(p.checksum, plan, data) <==> reproduced)
         && (reproduced ==> Describes(p.checksum, data))
  }

  /** Every part's request was among those sent, under its own number. */
  lemma TransferredIsSent(
    plan: Plan, session: string,
    parts: seq<StoredPart>, running: seq<byte>, ranges: seq<(nat, nat)>, sent: seq<PartRequest>)
    requires WellFormed(plan) && Transferred(plan, session, plan.partCount, parts, running, ranges, sent)
    ensures forall i :: 0 <= i < |parts| ==>
              PartRequest(session, parts[i].number, parts[i].digest.of, parts[i].digest) in sent
    ensures Join(DigestsOf(parts)) == running
  {
    forall i | 0 <= i < |parts|
      ensures PartRequest(session, parts[i].number, parts[i].digest.of, parts[i].digest) in sent
    {
      assert sent[i] == PartRequest(session, i + 1, parts[i].digest.of, parts[i].digest);
    }
  }

  lemma DescribedIsSent(plan: Plan, data: seq<byte>, contents: seq<byte>)
    requires WellFormed(plan) && |data| == plan.fileSize
    requires Describes(Composite(PartDigests(plan, data, plan.partCount)), contents)
    ensures contents == data
  {
    PartsJoin(plan, data, plan.partCount);
  }

  // ---- the whole copy ----------------------------------------------------

  /** Removes whatever an unpublished write may have left, as far as the provider answers. */
  method CleanupUnpublished(store: KeyStore, session: Option<string>, version: Option<string>)
    requires store.Valid()
    modifies store`contents, store`aborted, store`troubles
    ensures store.Valid() && store.troubles >= old(store.troubles)
    ensures store.contents == None || store.contents == old(store.contents)
    ensures store.aborted == old(store.aborted) + if session.Some? then [session.value] else []
    ensures store.troubles == old(store.troubles) && (version.None? || version == store.held.version) ==>
              store.contents == None
  {
    if session.Some? {
      var aborted := store.AbortMultipart(session.value);
    }
    var exact := version;
    if version.None? {
      var metadata := store.Head();
      if metadata.Err? {
        return;
      }
      exact := metadata.value.version;
    }
    var deleted := store.Delete(exact);
  }

  /** One checksum describes one content only. */
  lemma DescribesOne(c: Checksum, a: seq<byte>, b: seq<byte>)
    requires Describes(c, a) && Describes(c, b)
    ensures a == b
  {
  }

  /**
   * Copies a large version to another target: on success the destination holds the bytes the
   * source held when the copy began, whatever happened to the source meanwhile. A failed copy
   * aborts its session. When nothing goes wrong, the copy succeeds exactly for a source with
   * the recorded size and checksum, if its bytes, cut as planned, reproduce that checksum.
   */
  method CopyLargeBetweenTargets(p: Preparation, plan: Plan, source: KeyStore, destination: KeyStore)
    returns (r: Result<StoredObject, AppError>)
    requires PlanFor(p.size) == Ok(plan) && destination.key == p.key && source != destination
    requires source.Valid() && destination.Valid()
    modifies source`contents, source`held, source`downloads, source`troubles
    modifies destination`parts, destination`etags, destination`contents, destination`held, destination`completions
    modifies destination`sessions, destination`aborted, destination`troubles
    modifies destination`mutations, destination`publications
    ensures r.Err? ==> r.error != PLAN_ERROR
    ensures destination.completions == old(destination.completions) ==>
              destination.contents == old(destination.contents) || destination.contents == None
    ensures destination.completions != old(destination.completions) ==>
              old(source.contents).Some? && Describes(p.checksum, old(source.contents).value)
    ensures |old(destination.sessions)| <= |destination.sessions|
            && destination.aborted == old(destination.aborted) +
                                      if r.Ok? then [] else destination.sessions[|old(destination.sessions)|..]
    ensures source.troubles == old(source.troubles) && destination.troubles == old(destination.troubles)
            && r != Err(TEMPORARY) ==>
              (r.Ok? <==> CanCopy(p, plan, old(source.contents), old(source.held)))
    ensures r == Err(CHECKSUM_MISMATCH) && source.troubles == old(source.troubles) ==>
              Mismatched(p, plan, old(source.contents), old(source.held))
    ensures r.Ok? ==>
              && old(source.contents).Some? && |old(source.contents).value| == p.size
              && Describes(p.checksum, old(source.contents).value)
              && destination.contents == old(source.contents)
              && r.value.key == p.key && r.value.size == p.size
  {
    hide Describes, Reproduces, PlannedRanges, SendsParts, Compared, PlanFor;
    PlanIsTotal(p.size);
    hide WellFormed;
    var metadata := source.Head();
    if metadata.Err? {
      return Err(MapObjectError(metadata.error));
    }
    if metadata.value.size != p.size {
      return Err(Conflict("version_size_mismatch"));
    }
    if metadata.value.checksum != Some(p.checksum) {
      return Err(CHECKSUM_MISMATCH);
    }
    if metadata.value.etag.None? {
      return Err(Internal("object_etag_unavailable"));
    }
    var session := destination.CreateMultipart();
    if session.Err? {
      return Err(MapObjectError(session.error));
    }
    r := TransferLargeRestoreParts(p, plan, source, destination, session.value);
    if r.Err? {
      CleanupUnpublished(destination, Some(session.value), None);
    } else {
      DescribesOne(p.checksum, old(source.contents).value, destination.contents.value);
    }
  }

  /** The lookup reports another checksum than the recorded one, or the bytes do not reproduce it. */
  ghost predicate Mismatched(p: Preparation, plan: Plan, contents: Option<seq<byte>>, held: Metadata)
    requires PlanFor(p.size) == Ok(plan)
  {
    PlanIsTotal(p.size);
    && contents.Some? && |contents.value| == p.size
    && (held.checksum != Some(p.checksum) || !Reproduces(p.checksum, plan, contents.value))
  }

  /** The source is the recorded version, and its checksum can be reproduced from planned parts. */
  ghost predicate CanCopy(p: Preparation, plan: Plan, contents: Option<seq<byte>>, held: Metadata)
    requires PlanFor(p.size) == Ok(plan)
  {
    PlanIsTotal(p.size);
    && contents.Some? && |contents.value| == p.size && held.checksum == Some(p.checksum) && held.etag.Some?
    && held.size == p.size && Reproduces(p.checksum, plan, contents.value)
  }

  /** Digests one planned range and sends it, if it has the planned size. */
  method UploadPlannedPart(file: seq<byte>, plan: Plan, number: u32, store: KeyStore, session: string)
    returns (r: Result<StoredPart, AppError>)
    requires WellFormed(plan) && plan.fileSize == |file| && 1 <= number <= plan.partCount
    modifies store`parts, store`etags, store`troubles, store`mutations
    ensures store.troubles >= old(store.troubles)
    ensures r.Err? && r.error != TEMPORARY ==> store.troubles > old(store.troubles)
    ensures r.Err? ==> r.error != PLAN_ERROR && r.error != INVALID_PART_SIZE
    ensures r.Ok? ==> r.value.number == number && r.value.digest == Sha256(Piece(plan, file, number))
                      && |store.parts| >= 1 && store.parts == old(store.parts) + [store.parts[|store.parts| - 1]]
                      && SendsPart(store.parts[|store.parts| - 1], session, plan, file, number)
  {
    PartsTile(plan, number);
    var size := ExpectedPartSize(plan, number);
    if size.None? {
      return Err(PLAN_ERROR);
    }
    var offset := PartOffset(plan, number);
    var digest := Sha256FileRange(file, offset, size.value);
    if digest.Err? {
      return Err(digest.error);
    }
    if ExpectedPartSize(plan, number) != Some(size.value) {
      return Err(INVALID_PART_SIZE);
    }
    var etag := store.UploadPart(session, number, file, offset, size.value, digest.value);
    if etag.Err? {
      return Err(MapObjectError(etag.error));
    }
    assert file[offset..offset + size.value] == Piece(plan, file, number);
    return Ok(StoredPart(number, etag.value, digest.value));
  }

  /** Sends a staged file part by part: every planned range once, in order, with its own digest. */
  method UploadMultipart(file: seq<byte>, plan: Plan, store: KeyStore, session: string)
    returns (r: Result<seq<StoredPart>, AppError>)
    requires |file| <= U64_MAX && PlanFor(|file|) == Ok(plan)
    modifies store`parts, store`etags, store`troubles, store`mutations
    ensures store.troubles >= old(store.troubles)
    ensures r.Err? && r.error != TEMPORARY ==> store.troubles > old(store.troubles)
    ensures r.Err? ==> r.error != PLAN_ERROR && r.error != INVALID_PART_SIZE
    ensures r.Ok? ==>
              && WellFormed(plan) && plan.fileSize == |file| && |old(store.parts)| <= |store.parts|
              && SendsParts(store.parts[|old(store.parts)|..], session, plan, file)
              && DigestsOf(r.value) == PartDigests(plan, file, plan.partCount)
              && (forall i :: 0 <= i < |r.value| ==> r.value[i].number == i + 1)
              && Join(DigestsOf(r.value)) == file
  {
    hide Join, SendsPart, Piece, PlanFor;
    PlanIsTotal(|file|);
    assert plan.partCount >= 1;
    hide WellFormed;
    var parts: seq<StoredPart> := [];
    ghost var before, sent: seq<PartRequest> := store.parts, [];
    for number := 1 to plan.partCount + 1
      invariant |parts| == |sent| == number - 1 && store.parts == before + sent
      invariant store.troubles >= old(store.troubles)
      invariant forall i :: 0 <= i < |parts| ==> parts[i].number == i + 1
      invariant forall i :: 0 <= i < |parts| ==> parts[i].digest == Sha256(Piece(plan, file, i + 1))
      invariant forall i :: 0 <= i < |sent| ==> SendsPart(sent[i], session, plan, file, i + 1)
    {
      var part := UploadPlannedPart(file, plan, number, store, session);
      if part.Err? {
        return Err(part.error);
      }
      ghost var request := store.parts[|store.parts| - 1];
      assert before + sent + [request] == before + (sent + [request]);
      sent := sent + [request];
      parts := parts + [part.value];
    }
    assert store.parts[|before|..] == sent;
    assert DigestsOf(parts) == PartDigests(plan, file, plan.partCount);
    PartsJoin(plan, file, plan.partCount);
    return Ok(parts);
  }
}
