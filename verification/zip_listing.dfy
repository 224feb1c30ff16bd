/** Listing a stored zip archive with a few ranged reads. */
module ZipListing {
  import opened Wrappers
  import opened Text
  import opened ZipBytes
  import D = ZipDirectory
  import opened ZipEntries
  import opened ZipRoundTrip

  const MAX_ZIP_DIRECTORY_BYTES := 8 * 1024 * 1024

  /** A ranged read: both ends inclusive, cut at the end of the object. */
  function ReadBetween(stored: seq<byte>, first: nat, last: nat): Result<seq<byte>, D.ArchiveError> {
    var end := Min(last, |stored| - 1);
    if first > end || first >= |stored| then Err(D.Malformed("empty_file"))
    else Ok(stored[first..end + 1])
  }

  /** A refusal the service reports, or a slice beyond the bytes at hand, which stops an optimized build. */
  datatype ListError = Refused(error: D.ArchiveError) | OutOfBounds

  function Refusing<T>(r: Result<T, D.ArchiveError>): Result<T, ListError> {
    match r case Ok(value) => Ok(value) case Err(e) => Err(Refused(e))
  }

  /** 64-bit addition as an optimized build performs it. */
  function WrapAdd(a: nat, b: nat): nat {
    (a + b) % Span(8)
  }

  /** The zip64 end record, taken from the tail when it lies there and read otherwise. */
  function RecordBytes(stored: seq<byte>, tail: seq<byte>, offset: nat): Result<seq<byte>, ListError>
    requires |tail| <= |stored|
  {
    var tailStart := |stored| - |tail|;
    if offset >= tailStart && WrapAdd(offset, 56) <= |stored| then
      var at := offset - tailStart;
      if at + 56 <= |tail| then Ok(tail[at..at + 56]) else Err(OutOfBounds)
    else Refusing(ReadBetween(stored, offset, WrapAdd(offset, 55)))
  }

  function FindDirectory(stored: seq<byte>, tail: seq<byte>): Result<D.Directory, ListError>
    requires |tail| <= |stored|
  {
    var location :- Refusing(D.LocateDirectory(tail, |stored|));
    match location
    case Known(directory) => Ok(directory)
    case Zip64Record(offset) =>
      var record :- RecordBytes(stored, tail, offset);
      Refusing(D.Zip64Directory(record))
  }

  /** The wanted part of the directory; a slice of the tail that does not fit is empty. */
  function DirectoryBytes(stored: seq<byte>, tail: seq<byte>, d: D.Directory): Result<seq<byte>, ListError>
    requires |tail| <= |stored|
  {
    var tailStart := |stored| - |tail|;
    var wanted := Min(d.size, MAX_ZIP_DIRECTORY_BYTES);
    if wanted == 0 then Ok([])
    else if d.offset >= tailStart then
      var at, end := d.offset - tailStart, WrapAdd(d.offset - tailStart, wanted);
      Ok(if at <= end <= |tail| then tail[at..end] else [])
    else Refusing(ReadBetween(stored, d.offset, d.offset + wanted - 1))
  }

  function ListZip(stored: seq<byte>, limit: nat): Result<Listing, ListError> {
    if stored == [] then Err(Refused(D.Malformed("empty_file")))
    else
      var tail := D.Tail(stored);
      var directory :- FindDirectory(stored, tail);
      var bytes :- DirectoryBytes(stored, tail, directory);
      Ok(List(bytes, directory.entries, limit))
  }

  // ---- any bytes: when the reads stay in bounds ----------------------------

  /** The offset so near the end of the 64-bit range that adding 56 to it wraps to a position in the file. */
  predicate Wraps(offset: nat, size: nat) {
    offset + 56 >= Span(8) && offset + 56 - Span(8) <= size
  }

  /** The slice of the tail is in bounds exactly unless the record's offset wraps. */
  lemma RecordInBoundsIff(stored: seq<byte>, tail: seq<byte>, offset: nat)
    requires |tail| <= |stored| < Span(8) - 56 && offset < Span(8)
    ensures RecordBytes(stored, tail, offset) == Err(OutOfBounds) <==> Wraps(offset, |stored|)
  {
    hide Span;
    if offset + 56 < Span(8) {
      SmallModulo(offset + 56);
    } else {
      WrappedModulo(offset + 56);
    }
  }

  lemma SmallModulo(n: nat)
    requires n < Span(8)
    ensures n % Span(8) == n
  {
  }

  lemma WrappedModulo(n: nat)
    requires Span(8) <= n < 2 * Span(8)
    ensures n % Span(8) == n - Span(8)
  {
  }

  /** For any bytes of a possible size, listing stays in bounds exactly unless a locator names such an offset. */
  lemma ListingInBoundsIff(stored: seq<byte>, limit: nat)
    requires |stored| < Span(8) - 56
    ensures ListZip(stored, limit) == Err(OutOfBounds) <==>
            && stored != []
            && var location := D.LocateDirectory(D.Tail(stored), |stored|);
               location.Ok? && location.value.Zip64Record? && Wraps(location.value.offset, |stored|)
  {
    hide List, Span, RecordBytes, Wraps, D.LocateDirectory, D.Zip64Directory;
    if stored != [] {
      var location := D.LocateDirectory(D.Tail(stored), |stored|);
      if location.Ok? && location.value.Zip64Record? {
        LocatedOffsetFits(stored);
        RecordInBoundsIff(stored, D.Tail(stored), location.value.offset);
      }
    }
  }

  lemma LocatedOffsetFits(stored: seq<byte>)
    requires var location := D.LocateDirectory(D.Tail(stored), |stored|); location.Ok? && location.value.Zip64Record?
    ensures D.LocateDirectory(D.Tail(stored), |stored|).value.offset < Span(8)
  {
    hide Value;
    var tail := D.Tail(stored);
    var end := D.LastEnd(tail).value;
    ValueFits(tail[end - 12..end - 4]);
  }

  /** Such bytes exist: an end record behind a locator that names the first offset that wraps. */
  lemma WrappingLocator(before: seq<byte>, limit: nat)
    requires |before| + 42 < Span(8) - 56
    ensures ListZip(D.LocatorArchive(before, Span(8) - 56), limit) == Err(OutOfBounds)
  {
    hide List, Span, D.LocateDirectory, D.Zip64Directory, D.LocatorArchive, RecordBytes;
    Spans();
    var stored := D.LocatorArchive(before, Span(8) - 56);
    D.LocatorIsFollowed(before, Span(8) - 56);
    ListingInBoundsIff(stored, limit);
  }

  /** Where the directory is inside its archive, all of it that is wanted is read. */
  lemma DirectoryIsRead(data: seq<byte>, directory: seq<byte>, after: seq<byte>, entries: nat)
    ensures var stored, wanted := data + directory + after, Min(|directory|, MAX_ZIP_DIRECTORY_BYTES);
            DirectoryBytes(stored, D.Tail(stored), D.Directory(|data|, |directory|, entries)) == Ok(directory[..wanted])
  {
    var stored := data + directory + after;
    var tail, start := D.Tail(stored), D.TailStart(stored);
    var wanted := Min(|directory|, MAX_ZIP_DIRECTORY_BYTES);
    assert stored[|data|..|data| + wanted] == directory[..wanted];
    if wanted > 0 && |data| >= start {
      SliceOfSlice(stored, start, |data|, |data| + wanted);
    }
  }

  lemma SliceOfSlice(s: seq<byte>, start: nat, from: nat, to: nat)
    requires start <= from <= to <= |s|
    ensures s[start..][from - start..to - start] == s[from..to]
  {
  }

  /** The first part of a written directory that is read lists its first entries, honestly. */
  ghost predicate ListsWritten(r: Result<Listing, ListError>, es: seq<Entry>, limit: nat) {
    var seen := WholeEntries(es, Min(|EntriesBytes(es)|, 8_388_608));
    && r.Ok?
    && r.value.entries == ItemsFor(es)[..Min(limit, seen)]
    && (r.value.truncated <==> Min(limit, seen) < |es|)
    && (|EntriesBytes(es)| <= 8_388_608 ==> seen == |es|)
  }

  lemma WrittenIsListed(es: seq<Entry>, limit: nat)
    requires AllWritable(es)
    ensures var k := Min(|EntriesBytes(es)|, MAX_ZIP_DIRECTORY_BYTES);
            ListsWritten(Ok(List(EntriesBytes(es)[..k], |es|, limit)), es, limit)
  {
    hide List, EntriesBytes, WholeEntries, ItemsFor, AllWritable;
    var k := Min(|EntriesBytes(es)|, MAX_ZIP_DIRECTORY_BYTES);
    CutListingIsHonest(es, k, limit);
    if |EntriesBytes(es)| <= MAX_ZIP_DIRECTORY_BYTES {
      AllWhole(es, k);
    }
  }

  /** A classic archive is listed as it was written, whatever precedes and follows its directory. */
  lemma ClassicArchiveIsListed(data: seq<byte>, es: seq<Entry>, comment: seq<byte>, limit: nat)
    requires AllWritable(es)
    requires D.EndValues(|es|, |EntriesBytes(es)|, |data|, comment)
    requires !D.Sentinel(|es|, |EntriesBytes(es)|, |data|)
    requires D.NoneAfter(D.ClassicArchive(data, EntriesBytes(es), |es|, comment), |data + EntriesBytes(es)|)
    ensures ListsWritten(ListZip(D.ClassicArchive(data, EntriesBytes(es), |es|, comment), limit), es, limit)
  {
    hide List, EntriesBytes, D.LocateDirectory, D.EndRecord, AllWritable, ListsWritten, DirectoryBytes;
    var directory := EntriesBytes(es);
    D.LocateClassic(data, directory, |es|, comment);
    D.EndRecordRead(data + directory, |es|, |directory|, |data|, comment);
    DirectoryIsRead(data, directory, D.EndRecord(|es|, |directory|, |data|, comment), |es|);
    WrittenIsListed(es, limit);
  }

  /** So is a zip64 archive, of any size and number of entries. */
  lemma LargeArchiveIsListed(
    data: seq<byte>, es: seq<Entry>, e: nat, s: nat, o: nat, comment: seq<byte>, limit: nat)
    requires AllWritable(es)
    requires D.LargeValues(D.Directory(|data|, |EntriesBytes(es)|, |es|))
    requires D.EndValues(e, s, o, comment) && D.Sentinel(e, s, o)
    requires |D.LargeArchive(data, EntriesBytes(es), |es|, e, s, o, comment)| < Span(8)
    requires D.NoneAfter(D.LargeArchive(data, EntriesBytes(es), |es|, e, s, o, comment),
                         |D.LargeBefore(data, EntriesBytes(es), |es|)|)
    ensures ListsWritten(ListZip(D.LargeArchive(data, EntriesBytes(es), |es|, e, s, o, comment), limit), es, limit)
  {
    hide List, EntriesBytes, D.LocateDirectory, D.EndRecord, AllWritable, ListsWritten, DirectoryBytes,
         D.Zip64Directory, Pack, D.Zip64Fields, D.LocatorFields;
    var directory := EntriesBytes(es);
    var stored := D.LargeArchive(data, directory, |es|, e, s, o, comment);
    D.LocateLarge(data, directory, |es|, e, s, o, comment);
    var record := |data| + |directory|;
    LargeRecordIsRead(stored, record);
    var zip64 := Pack(D.Zip64Fields(D.Directory(|data|, |directory|, |es|)));
    var after := zip64 + Pack(D.LocatorFields(record)) + D.EndRecord(e, s, o, comment);
    assert stored == data + directory + after;
    DirectoryIsRead(data, directory, after, |es|);
    WrittenIsListed(es, limit);
  }

  lemma LargeRecordIsRead(stored: seq<byte>, record: nat)
    requires record + 56 <= |stored| < Span(8)
    requires D.LocateDirectory(D.Tail(stored), |stored|) == Ok(D.Zip64Record(record))
    ensures FindDirectory(stored, D.Tail(stored)) == Refusing(D.Zip64Directory(stored[record..record + 56]))
  {
    hide D.LocateDirectory, D.Zip64Directory, Span;
    SmallModulo(record + 56);
    SmallModulo(record + 55);
    var start := D.TailStart(stored);
    if record >= start {
      assert D.Tail(stored)[record - start..record - start + 56] == stored[record..record + 56];
    }
  }
}
