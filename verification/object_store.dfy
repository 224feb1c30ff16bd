/** One key of an object store, as a caller may rely on it. */
module ObjectStore {
  import opened Wrappers
  import opened Text
  import opened Multipart
  import opened Digests

  type Key = string

  datatype StoredObject =
    StoredObject(key: Key, etag: Option<string>, version: Option<string>, size: nat, checksum: Option<Checksum>)

  datatype Metadata = Metadata(size: nat, etag: Option<string>, version: Option<string>, checksum: Option<Checksum>)

  datatype StoreError = NotFound | StoreConflict | InvalidConfiguration | Unavailable | StoreInternal

  datatype StoredPart = StoredPart(number: nat, etag: string, digest: Digest)

  /** A part request: the bytes it carries and their digest. */
  datatype PartRequest = PartRequest(session: string, number: nat, bytes: seq<byte>, digest: Digest)

  /** Each provider error keeps its own meaning: only an unavailable provider is reported as one. */
  lemma ErrorsStayApart(a: StoreError, b: StoreError)
    ensures MapObjectError(a) == MapObjectError(b) <==> a == b
    ensures MapObjectError(a).DependencyUnavailable? <==> a.Unavailable?
    ensures MapObjectError(a).Conflict? <==> a.StoreConflict?
    ensures MapObjectError(a).Internal? <==> a.StoreInternal?
    ensures MapObjectError(a).NothingFound? <==> a.NotFound?
  {
  }

  function MapObjectError(e: StoreError): AppError {
    match e
    case NotFound => NothingFound
    case StoreConflict => Conflict("storage_conflict")
    case InvalidConfiguration => Validation("invalid_storage_configuration")
    case Unavailable => DependencyUnavailable("object_storage")
    case StoreInternal => Internal("object_storage")
  }

  /** A size and a checksum, when given, that tell the truth about an object. */
  ghost predicate Truthful(size: nat, checksum: Option<Checksum>, contents: Option<seq<byte>>) {
    checksum.Some? ==> contents.Some? && |contents.value| == size && Describes(checksum.value, contents.value)
  }

  /** One part request of an upload: the planned range of the file, with its own digest. */
  ghost predicate SendsPart(sent: PartRequest, session: string, plan: Plan, data: seq<byte>, number: u32)
    requires WellFormed(plan) && |data| == plan.fileSize && 1 <= number <= plan.partCount
  {
    var piece := Piece(plan, data, number);
    sent == PartRequest(session, number, piece, Sha256(piece))
  }

  /** The part requests of a whole upload: each planned range of the file once, in order. */
  ghost predicate SendsParts(sent: seq<PartRequest>, session: string, plan: Plan, data: seq<byte>)
    requires WellFormed(plan) && |data| == plan.fileSize
  {
    |sent| == plan.partCount && forall i :: 0 <= i < |sent| ==> SendsPart(sent[i], session, plan, data, i + 1)
  }

  function DigestsOf(parts: seq<StoredPart>): seq<Digest> {
    seq(|parts|, i requires 0 <= i < |parts| => parts[i].digest)
  }

  /** The parts are numbered from one. */
  predicate Numbered(parts: seq<StoredPart>) {
    forall i :: 0 <= i < |parts| ==> parts[i].number == i + 1
  }

  /** The first parts carry the ETags they were received under. */
  ghost predicate Tagged(etags: map<(string, nat), string>, session: string, parts: seq<StoredPart>, count: nat)
    requires count <= |parts|
  {
    forall i :: 0 <= i < count ==>
      (session, parts[i].number) in etags && etags[(session, parts[i].number)] == parts[i].etag
  }

  lemma NothingTagged(etags: map<(string, nat), string>, session: string, parts: seq<StoredPart>)
    ensures Tagged(etags, session, parts, 0)
  {
  }

  /** One more part was received, under its own number. */
  lemma TaggedNext(etags: map<(string, nat), string>, session: string, parts: seq<StoredPart>, part: StoredPart)
    requires Numbered(parts + [part]) && Tagged(etags, session, parts, |parts|)
    ensures Tagged(etags[(session, part.number) := part.etag], session, parts + [part], |parts| + 1)
  {
    forall i | 0 <= i < |parts|
      ensures (session, parts[i].number) in etags && parts[i].number != part.number
    {
      assert (parts + [part])[i] == parts[i] && (parts + [part])[|parts|] == part;
    }
  }

  lemma TaggedAt(etags: map<(string, nat), string>, session: string, parts: seq<StoredPart>, i: nat, etag: string)
    requires i < |parts| && Numbered(parts) && Tagged(etags, session, parts, i)
    ensures Tagged(etags[(session, parts[i].number) := etag], session, parts[i := parts[i].(etag := etag)], i + 1)
  {
    forall j | 0 <= j < i
      ensures (session, parts[j].number) in etags && parts[j].number != parts[i].number
    {
    }
  }

  /**
   * The provider at one key. Any call may go wrong, with or without effect, and the object
   * may change under a caller: `troubles` counts how often. A caller learns what is there
   * only from a reply that carries a checksum, because those are verified by the provider.
   */
  class KeyStore {
    const key: Key
    var contents: Option<seq<byte>>
    /** What the provider keeps with the object. */
    var held: Metadata
    var parts: seq<PartRequest>
    /** The ETag of each part received, by session and number. */
    var etags: map<(string, nat), string>
    var completions: nat
    var downloads: seq<(nat, nat)>
    var sessions: seq<string>
    var aborted: seq<string>
    var troubles: nat
    /** How many changes were asked of the provider, and how many of them may publish an object. */
    var mutations: nat
    var publications: nat

    constructor (key: Key)
      ensures Valid() && this.key == key && contents == None && parts == [] && completions == 0 && downloads == []
      ensures sessions == [] && aborted == [] && troubles == mutations == publications == 0
    {
      this.key := key;
      contents, held, parts, etags := None, Metadata(0, None, None, None), [], map[];
      completions, downloads := 0, [];
      sessions, aborted, troubles, mutations, publications := [], [], 0, 0, 0;
    }

    ghost predicate Valid()
      reads this
    {
      contents.Some? ==> held.size == |contents.value| && Truthful(held.size, held.checksum, contents)
    }

    /** The reply to a write that went well. */
    function Reply(): StoredObject
      reads this
    {
      StoredObject(key, held.etag, held.version, held.size, held.checksum)
    }

    /** The object is what was written, and the provider keeps this checksum with it. */
    method Keep(data: seq<byte>, checksum: Checksum)
      requires Describes(checksum, data)
      modifies this`contents, this`held
      ensures Valid() && contents == Some(data) && held.checksum == Some(checksum)
    {
      var etag: Option<string> := *;
      var version: Option<string> := *;
      contents, held := Some(data), Metadata(|data|, etag, version, Some(checksum));
    }

    /** Something else is stored now, or nothing. */
    method Disturb()
      requires Valid()
      modifies this`contents, this`held, this`troubles
      ensures Valid() && troubles > old(troubles)
    {
      troubles := troubles + 1;
      var data: Option<seq<byte>> := *;
      if data.Some? {
        Keep(data.value, FullObject(Sha256(data.value)));
        if * {
          var checksum: Checksum := *;
          if Describes(checksum, data.value) {
            Keep(data.value, checksum);
          }
        }
      } else {
        contents := None;
      }
    }

    method Trouble() returns (e: StoreError)
      modifies this`troubles
      ensures troubles > old(troubles)
    {
      troubles := troubles + 1;
      e := *;
    }

    /** A reply about the object, which may leave the checksum out and may name another key. */
    method AnyReply() returns (stored: StoredObject)
      requires Valid()
      modifies this`troubles
      ensures troubles > old(troubles)
      ensures stored.key == key ==> Truthful(stored.size, stored.checksum, contents)
    {
      troubles := troubles + 1;
      stored := *;
      if stored.key == key && contents.Some? && stored.checksum.Some?
         && Describes(stored.checksum.value, contents.value)
      {
        stored := stored.(size := |contents.value|);
      } else if stored.key == key {
        stored := stored.(checksum := None);
      }
    }

    /** A write that goes wrong may have stored anything, and may be answered or not. */
    method GoWrong() returns (r: Result<StoredObject, StoreError>)
      requires Valid()
      modifies this`contents, this`held, this`troubles
      ensures Valid() && troubles > old(troubles)
      ensures r.Ok? && r.value.key == key ==> Truthful(r.value.size, r.value.checksum, contents)
    {
      Disturb();
      if * {
        var e := Trouble();
        return Err(e);
      }
      var stored := AnyReply();
      return Ok(stored);
    }

    method PutFile(file: seq<byte>, size: nat, digest: Digest) returns (r: Result<StoredObject, StoreError>)
      requires Valid()
      modifies this`contents, this`held, this`troubles, this`mutations, this`publications
      ensures Valid() && troubles >= old(troubles)
      ensures r.Ok? && r.value.key == key ==> Truthful(r.value.size, r.value.checksum, contents)
      ensures troubles == old(troubles) ==>
                if size == |file| && digest == Sha256(file)
                then contents == Some(file) && held.checksum == Some(FullObject(digest)) && r == Ok(Reply())
                else r.Err? && contents == old(contents) && held == old(held)
      ensures mutations == old(mutations) + 1 && publications == old(publications) + 1
    {
      mutations, publications := mutations + 1, publications + 1;
      if * {
        r := GoWrong();
      } else if size == |file| && digest == Sha256(file) {
        Keep(file, FullObject(digest));
        return Ok(Reply());
      } else {
        return Err(InvalidConfiguration);
      }
    }

    method Head() returns (r: Result<Metadata, StoreError>)
      requires Valid()
      modifies this`troubles
      ensures troubles >= old(troubles)
      ensures r.Ok? ==> contents.Some? && Truthful(r.value.size, r.value.checksum, contents)
      ensures r == Err(NotFound) ==> contents == None
      ensures troubles == old(troubles) ==> r == if contents.Some? then Ok(held) else Err(NotFound)
    {
      if contents.None? {
        return Err(NotFound);
      }
      if * {
        return Ok(held);
      }
      var stored := AnyReply();
      if * {
        return Err(Unavailable);
      }
      var checksum := if stored.key == key then stored.checksum else None;
      return Ok(Metadata(stored.size, stored.etag, stored.version, checksum));
    }

    /** Anyone may replace or remove the object at any time. */
    method Change()
      requires Valid()
      modifies this`contents, this`held, this`troubles
      ensures Valid() && troubles >= old(troubles)
      ensures troubles == old(troubles) ==> contents == old(contents) && held == old(held)
    {
      if * {
        Disturb();
      }
    }

    /** Reads one exact range of the object, as it is now, into a file. */
    method GetRange(offset: nat, size: nat) returns (r: Result<seq<byte>, StoreError>)
      modifies this`downloads, this`troubles
      ensures downloads == old(downloads) + [(offset, size)] && troubles >= old(troubles)
      ensures r.Ok? ==> contents.Some? && offset + size <= |contents.value|
                        && r.value == contents.value[offset..offset + size]
      ensures troubles == old(troubles) && contents.Some? && offset + size <= |contents.value| ==> r.Ok?
    {
      downloads := downloads + [(offset, size)];
      if contents.None? {
        return Err(NotFound);
      }
      if * {
        var e := Trouble();
        return Err(e);
      }
      if offset + size > |contents.value| {
        return Err(StoreInternal);
      }
      return Ok(contents.value[offset..offset + size]);
    }

    method CreateMultipart() returns (r: Result<string, StoreError>)
      modifies this`sessions, this`troubles, this`mutations
      ensures troubles >= old(troubles) && (troubles == old(troubles) ==> r.Ok?)
      ensures sessions == if r.Ok? then old(sessions) + [r.value] else old(sessions)
      ensures mutations == old(mutations) + 1
    {
      mutations := mutations + 1;
      if * {
        var session: string := *;
        sessions := sessions + [session];
        return Ok(session);
      }
      var e := Trouble();
      return Err(e);
    }

    /** Sends one part: the range of the local file that the request names. */
    method UploadPart(session: string, number: nat, file: seq<byte>, offset: nat, size: nat, digest: Digest)
      returns (r: Result<string, StoreError>)
      requires offset + size <= |file|
      modifies this`parts, this`etags, this`troubles, this`mutations
      ensures parts == old(parts) + [PartRequest(session, number, file[offset..offset + size], digest)]
      ensures troubles >= old(troubles)
      ensures troubles == old(troubles) ==> (r.Ok? <==> digest == Sha256(file[offset..offset + size]))
      ensures etags == if r.Ok? then old(etags)[(session, number) := r.value] else old(etags)
      ensures mutations == old(mutations) + 1
    {
      mutations := mutations + 1;
      parts := parts + [PartRequest(session, number, file[offset..offset + size], digest)];
      if * {
        var e := Trouble();
        return Err(e);
      }
      if digest != Sha256(file[offset..offset + size]) {
        return Err(InvalidConfiguration);
      }
      var etag: string := *;
      etags := etags[(session, number) := etag];
      return Ok(etag);
    }

    /** The listed part was sent to the session and is listed with the ETag it was received under. */
    predicate WasSent(session: string, part: StoredPart)
      reads this
    {
      && PartRequest(session, part.number, part.digest.of, part.digest) in parts
      && (session, part.number) in etags && etags[(session, part.number)] == part.etag
    }

    predicate AllSent(session: string, list: seq<StoredPart>)
      reads this
    {
      forall i :: 0 <= i < |list| ==> WasSent(session, list[i])
    }

    /** What was sent and received can be assembled. */
    lemma SentAndTagged(session: string, list: seq<StoredPart>, sent: seq<PartRequest>)
      requires Tagged(etags, session, list, |list|)
      requires forall i :: 0 <= i < |list| ==>
                 PartRequest(session, list[i].number, list[i].digest.of, list[i].digest) in sent
      requires forall request <- sent :: request in parts
      ensures AllSent(session, list)
    {
    }

    method CompleteMultipart(session: string, list: seq<StoredPart>, expectedSize: nat)
      returns (r: Result<StoredObject, StoreError>)
      requires Valid()
      modifies this`contents, this`held, this`completions, this`troubles, this`mutations, this`publications
      ensures Valid() && completions == old(completions) + 1 && troubles >= old(troubles)
      ensures r.Ok? && r.value.key == key ==> Truthful(r.value.size, r.value.checksum, contents)
      ensures troubles == old(troubles) ==>
                if AllSent(session, list) && |Join(DigestsOf(list))| == expectedSize
                then contents == Some(Join(DigestsOf(list))) && held.checksum == Some(Composite(DigestsOf(list)))
                     && r == Ok(Reply())
                else r.Err? && contents == old(contents) && held == old(held)
      ensures mutations == old(mutations) + 1 && publications == old(publications) + 1
    {
      mutations, publications := mutations + 1, publications + 1;
      completions := completions + 1;
      if * {
        r := GoWrong();
      } else if AllSent(session, list) && |Join(DigestsOf(list))| == expectedSize {
        Keep(Join(DigestsOf(list)), Composite(DigestsOf(list)));
        return Ok(Reply());
      } else {
        return Err(InvalidConfiguration);
      }
    }

    method AbortMultipart(session: string) returns (r: Result<(), StoreError>)
      modifies this`aborted, this`troubles
      ensures aborted == old(aborted) + [session] && troubles >= old(troubles)
    {
      aborted := aborted + [session];
      if * {
        return Ok(());
      }
      var e := Trouble();
      return Err(e);
    }

    method Delete(version: Option<string>) returns (r: Result<(), StoreError>)
      requires Valid()
      modifies this`contents, this`troubles
      ensures Valid() && troubles >= old(troubles)
      ensures contents == None || contents == old(contents)
      ensures troubles == old(troubles) ==> r.Ok? && (version == held.version ==> contents == None)
    {
      var well: bool := *;
      if well && version == held.version {
        contents := None;
        return Ok(());
      }
      if well {
        return Ok(());
      }
      if * {
        contents := None;
      }
      var e := Trouble();
      return Err(e);
    }
  }
}
