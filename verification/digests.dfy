/** SHA-256 as an injective digest, and digests of files read in short pieces. */
module Digests {
  import opened Wrappers
  import opened Text
  import opened Multipart

  /** A digest stands for the bytes it was computed from: SHA-256 is taken to be injective. */
  datatype Digest = Sha256(of: seq<byte>)

  datatype Checksum = FullObject(digest: Digest) | Composite(parts: seq<Digest>)

  datatype AppError =
    | Validation(code: string)
    | PayloadTooLarge
    | Internal(category: string)
    | Conflict(code: string)
    | DependencyUnavailable(dependency: string)
    | DatabaseCommitOutcomeUnknown
    | Timeout
    | Refused
    | NothingFound

  /** The bytes behind digests, one after the other. */
  function Join(digests: seq<Digest>): seq<byte> {
    if digests == [] then [] else digests[0].of + Join(digests[1..])
  }

  lemma {:induction false} JoinAppend(a: seq<Digest>, b: seq<Digest>)
    ensures Join(a + b) == Join(a) + Join(b)
  {
    if a == [] {
      assert a + b == b;
    } else {
      assert (a + b)[1..] == a[1..] + b;
      JoinAppend(a[1..], b);
    }
  }

  lemma JoinNext(digests: seq<Digest>, d: Digest)
    ensures Join(digests + [d]) == Join(digests) + d.of
  {
    JoinAppend(digests, [d]);
    assert [d][1..] == [];
  }

  /** The checksum is the right one for these bytes. */
  predicate Describes(c: Checksum, data: seq<byte>) {
    match c
    case FullObject(d) => d == Sha256(data)
    case Composite(parts) => Join(parts) == data
  }

  // ---- reading files -----------------------------------------------------

  const BUFFER := 64 * 1024
  const TEMPORARY := Internal("temporary_storage")
  const TRUNCATED := Internal("staged_upload_truncated")

  /** A read returns any number of the wanted bytes, and none only at the end of the file. */
  method ReadSome(file: seq<byte>, at: nat, wanted: nat) returns (r: Result<nat, AppError>)
    ensures r.Ok? ==> r.value <= wanted && (r.value == 0 <==> wanted == 0 || at >= |file|)
    ensures r.Ok? && r.value > 0 ==> at + r.value <= |file|
    ensures r.Err? ==> r.error == TEMPORARY
  {
    if * {
      return Err(TEMPORARY);
    }
    if wanted == 0 || at >= |file| {
      return Ok(0);
    }
    var n: nat :| 1 <= n <= wanted && at + n <= |file|;
    return Ok(n);
  }

  /** The bytes of a range; an empty range has none, wherever it lies. */
  function Range(file: seq<byte>, offset: nat, length: nat): (bytes: seq<byte>)
    requires length > 0 ==> offset + length <= |file|
    ensures |bytes| == length
  {
    if length == 0 then [] else file[offset..offset + length]
  }

  /** Digests exactly one range, whatever the reads return; a file too short is refused. */
  method Sha256FileRange(file: seq<byte>, offset: nat, length: nat) returns (r: Result<Digest, AppError>)
    ensures r.Ok? ==> (length > 0 ==> offset + length <= |file|) && r.value == Sha256(Range(file, offset, length))
    ensures r.Err? ==> r.error == TEMPORARY || (r.error == TRUNCATED && offset + length > |file|)
  {
    var fed: seq<byte> := [];
    var remaining := length;
    while remaining > 0
      invariant 0 <= remaining <= length && |fed| == length - remaining
      invariant fed != [] ==> offset + |fed| <= |file| && fed == file[offset..offset + |fed|]
    {
      var at := offset + |fed|;
      var wanted := Min(remaining, BUFFER);
      var read := ReadSome(file, at, wanted);
      if read.Err? {
        return Err(read.error);
      }
      if read.value == 0 {
        return Err(TRUNCATED);
      }
      assert file[offset..at + read.value] == file[offset..at] + file[at..at + read.value];
      fed := fed + file[at..at + read.value];
      remaining := remaining - read.value;
    }
    assert length > 0 ==> fed == file[offset..offset + length];
    return Ok(Sha256(fed));
  }

  /** Digests a whole file, and feeds the same bytes to a running digest. */
  method Sha256FileAndUpdate(file: seq<byte>, running: seq<byte>) returns (r: Result<Digest, AppError>, fed: seq<byte>)
    ensures r.Ok? ==> r.value == Sha256(file) && fed == running + file
    ensures r.Err? ==> r.error == TEMPORARY
  {
    var part: seq<byte> := [];
    fed := running;
    while true
      invariant |part| <= |file| && part == file[..|part|] && fed == running + part
      decreases |file| - |part|
    {
      var read := ReadSome(file, |part|, BUFFER);
      if read.Err? {
        return Err(read.error), fed;
      }
      if read.value == 0 {
        break;
      }
      var bytes := file[|part|..|part| + read.value];
      assert file[..|part| + read.value] == part + bytes;
      part, fed := part + bytes, fed + bytes;
    }
    assert part == file;
    return Ok(Sha256(part)), fed;
  }

  // ---- the parts of a file -----------------------------------------------

  /** Where part `number` ends: where the next one begins, or at the end of the file. */
  function PartEnd(plan: Plan, number: nat): int {
    if number < plan.partCount then PartOffset(plan, number + 1) else plan.fileSize
  }

  function Piece(plan: Plan, data: seq<byte>, number: u32): (piece: seq<byte>)
    requires WellFormed(plan) && |data| == plan.fileSize && 1 <= number <= plan.partCount
  {
    PartsTile(plan, number);
    data[PartOffset(plan, number)..PartEnd(plan, number)]
  }

  /** The digests of the first `count` parts. */
  function PartDigests(plan: Plan, data: seq<byte>, count: nat): (digests: seq<Digest>)
    requires WellFormed(plan) && |data| == plan.fileSize && count <= plan.partCount
    ensures |digests| == count
    ensures forall i :: 0 <= i < count ==> digests[i] == Sha256(Piece(plan, data, i + 1))
  {
    if count == 0 then [] else PartDigests(plan, data, count - 1) + [Sha256(Piece(plan, data, count))]
  }

  /** Conservation: the first parts, joined, are the first bytes; all parts are the whole. */
  lemma {:induction false} PartsJoin(plan: Plan, data: seq<byte>, count: nat)
    requires WellFormed(plan) && |data| == plan.fileSize && count <= plan.partCount
    ensures var end := if count == 0 then 0 else PartEnd(plan, count);
            0 <= end <= |data| && Join(PartDigests(plan, data, count)) == data[..end]
    ensures Join(PartDigests(plan, data, plan.partCount)) == data
  {
    PiecesJoin(plan, data, count);
    PiecesJoin(plan, data, plan.partCount);
    assert data[..|data|] == data;
  }

  lemma {:induction false} PiecesJoin(plan: Plan, data: seq<byte>, count: nat)
    requires WellFormed(plan) && |data| == plan.fileSize && count <= plan.partCount
    ensures var end := if count == 0 then 0 else PartEnd(plan, count);
            0 <= end <= |data| && Join(PartDigests(plan, data, count)) == data[..end]
  {
    hide WellFormed, ExpectedPartSize;
    if count > 0 {
      PiecesJoin(plan, data, count - 1);
      PartsTile(plan, count);
      PartsTile(plan, 1);
      JoinNext(PartDigests(plan, data, count - 1), Sha256(Piece(plan, data, count)));
      var start, end := PartOffset(plan, count), PartEnd(plan, count);
      assert data[..end] == data[..start] + data[start..end];
    }
  }

  /** Digests whose bytes have the planned sizes. */
  ghost predicate PlannedSizes(plan: Plan, digests: seq<Digest>)
    requires WellFormed(plan) && |digests| <= plan.partCount
  {
    forall i: nat :: i < |digests| ==> Some(|digests[i].of| as int) == SizeOf(plan, i + 1)
  }

  function SizeOf(plan: Plan, number: nat): (size: Option<int>)
    requires WellFormed(plan) && 1 <= number <= plan.partCount
  {
    var n: u32 := number;
    match ExpectedPartSize(plan, n) case Some(size) => Some(size) case None => None
  }

  /** The first parts are as long as where they end. */
  lemma {:induction false} JoinedLength(plan: Plan, digests: seq<Digest>)
    requires WellFormed(plan) && |digests| <= plan.partCount && PlannedSizes(plan, digests)
    ensures |Join(digests)| == if digests == [] then 0 else PartEnd(plan, |digests|)
  {
    hide WellFormed, ExpectedPartSize;
    if digests != [] {
      var n := |digests|;
      var most, last := digests[..n - 1], digests[n - 1];
      JoinedLength(plan, most);
      JoinNext(most, last);
      assert digests == most + [last];
      PartsTile(plan, n);
      PartsTile(plan, 1);
      assert Some(|last.of| as int) == SizeOf(plan, n);
    }
  }

  /** Conservation the other way: pieces of the planned sizes are the planned parts of what they join to. */
  lemma {:induction false} PiecesAreParts(plan: Plan, digests: seq<Digest>)
    requires WellFormed(plan) && |digests| == plan.partCount && PlannedSizes(plan, digests)
    ensures |Join(digests)| == plan.fileSize && digests == PartDigests(plan, Join(digests), plan.partCount)
  {
    hide ExpectedPartSize;
    assert |digests| >= 1;
    hide WellFormed;
    JoinedLength(plan, digests);
    LastEnd(plan);
    var data := Join(digests);
    forall i: nat | i < |digests|
      ensures digests[i] == Sha256(Piece(plan, data, i + 1))
    {
      PieceOfJoin(plan, digests, i);
    }
    assert digests == PartDigests(plan, data, plan.partCount);
  }

  lemma LastEnd(plan: Plan)
    requires WellFormed(plan)
    ensures PartEnd(plan, plan.partCount) == plan.fileSize
  {
  }

  lemma PieceOfJoin(plan: Plan, digests: seq<Digest>, i: nat)
    requires WellFormed(plan) && |digests| == plan.partCount && PlannedSizes(plan, digests) && i < |digests|
    requires |Join(digests)| == plan.fileSize
    ensures Piece(plan, Join(digests), i + 1) == digests[i].of
  {
    hide WellFormed, ExpectedPartSize, Join;
    var before, after := digests[..i], digests[i + 1..];
    JoinedLength(plan, before);
    JoinedLength(plan, digests[..i + 1]);
    JoinNext(before, digests[i]);
    assert digests[..i + 1] == before + [digests[i]];
    JoinAppend(digests[..i + 1], after);
    assert digests == digests[..i + 1] + after;
    PartsTile(plan, i + 1);
    PartsTile(plan, 1);
    if i > 0 {
      PartsTile(plan, i);
    }
    assert Join(digests) == Join(before) + digests[i].of + Join(after);
  }
}
