/** Receiving an upload into a temporary file: `StagingFile` and the staging loop. */
module Staging {
  import opened Wrappers
  import opened Text
  import opened Multipart
  import opened Digests

  datatype StageError = TooLarge | Stream | Io

  datatype Staged = Staged(contents: seq<byte>, size: u64, sha256: Digest)

  /** What the request body delivers, and whether writing it fails after `written` bytes. */
  datatype Delivery = Chunk(bytes: seq<byte>, fault: Option<nat>) | Broken

  class StagingFile {
    /** What is in the file. */
    var contents: seq<byte>
    var size: u64
    const maximum: u64
    /** What the digest has been fed. */
    var fed: seq<byte>

    constructor (maximum: u64)
      ensures Valid() && contents == [] && this.maximum == maximum
    {
      contents, size, fed := [], 0, [];
      this.maximum := maximum;
    }

    predicate Valid()
      reads this
    {
      size == |contents| && fed == contents && size <= maximum
    }

    /** Appends a chunk to file, digest and size together, or reports why it cannot. */
    method Write(chunk: seq<byte>, fault: Option<nat>) returns (r: Result<(), StageError>)
      requires Valid()
      modifies this
      ensures r == if old(size) + |chunk| > maximum then Err(TooLarge) else if fault.Some? then Err(Io) else Ok(())
      ensures r.Ok? ==> Valid() && contents == old(contents) + chunk
      ensures r.Err? ==> fed == old(fed) && size == old(size)
      ensures r == Err(TooLarge) ==> contents == old(contents)
      ensures r == Err(Io) ==> contents == old(contents) + chunk[..Min(fault.value, |chunk|)]
    {
      var newSize := size + |chunk|;
      if newSize > U64_MAX {
        return Err(TooLarge);
      }
      if newSize > maximum {
        return Err(TooLarge);
      }
      if fault.Some? {
        contents := contents + chunk[..Min(fault.value, |chunk|)];
        return Err(Io);
      }
      contents := contents + chunk;
      fed := fed + chunk;
      size := newSize;
      return Ok(());
    }

    method Finish(fault: bool) returns (r: Result<Staged, StageError>)
      requires Valid()
      ensures r == if fault then Err(Io) else Ok(Staged(contents, size, Sha256(contents)))
    {
      if fault {
        return Err(Io);
      }
      return Ok(Staged(contents, size, Sha256(fed)));
    }
  }

  // ---- the loop ----------------------------------------------------------

  /** The bytes of a stream whose deliveries are all chunks. */
  function Received(stream: seq<Delivery>): seq<byte> {
    if stream == [] then []
    else (if stream[0].Chunk? then stream[0].bytes else []) + Received(stream[1..])
  }

  predicate Faultless(stream: seq<Delivery>) {
    forall i :: 0 <= i < |stream| ==> stream[i].Chunk? && stream[i].fault.None?
  }

  lemma {:induction false} ReceivedNext(stream: seq<Delivery>, i: nat)
    requires i < |stream|
    ensures Received(stream[..i + 1]) == Received(stream[..i]) + (if stream[i].Chunk? then stream[i].bytes else [])
  {
    var part := stream[..i + 1];
    if i == 0 {
      assert part[1..] == [];
    } else {
      ReceivedNext(stream[1..], i - 1);
      assert part[1..] == stream[1..][..i] && stream[..i][1..] == stream[1..][..i - 1];
    }
  }

  lemma {:induction false} ReceivedGrows(stream: seq<Delivery>, i: nat)
    requires i <= |stream|
    ensures |Received(stream[..i])| <= |Received(stream)|
    decreases |stream| - i
  {
    if i == |stream| {
      assert stream[..i] == stream;
    } else {
      ReceivedNext(stream, i);
      ReceivedGrows(stream, i + 1);
    }
  }

  /**
   * Whatever the chunk sizes: on success the file holds exactly the received stream, and
   * size and digest describe exactly those bytes. Without faults, the limit alone decides.
   */
  method StageBody(stream: seq<Delivery>, maximum: u64, fault: bool) returns (r: Result<Staged, StageError>)
    ensures r.Ok? ==> Faultless(stream) && |Received(stream)| <= maximum
    ensures r.Ok? ==> r.value == Staged(Received(stream), |Received(stream)|, Sha256(Received(stream)))
    ensures Faultless(stream) && !fault ==>
              r == if |Received(stream)| > maximum then Err(TooLarge)
                   else Ok(Staged(Received(stream), |Received(stream)|, Sha256(Received(stream))))
  {
    var staging := new StagingFile(maximum);
    for i := 0 to |stream|
      invariant staging.Valid() && staging.contents == Received(stream[..i]) && Faultless(stream[..i])
      invariant staging.maximum == maximum
      invariant fresh(staging)
    {
      if stream[i].Broken? {
        return Err(Stream);
      }
      ReceivedNext(stream, i);
      ReceivedGrows(stream, i + 1);
      var written := staging.Write(stream[i].bytes, stream[i].fault);
      if written.Err? {
        return Err(written.error);
      }
    }
    assert stream[..|stream|] == stream;
    r := staging.Finish(fault);
  }
}
