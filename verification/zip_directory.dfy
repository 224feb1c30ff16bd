/** Finding a zip archive's central directory from its last bytes. */
module ZipDirectory {
  import opened Wrappers
  import opened Text
  import opened ZipBytes

  /** How much of the end of an archive is read to find its directory. */
  const ZIP_TAIL_BYTES := 65_557 + 20 + 56

  const END := 0x0605_4b50
  const LOCATOR := 0x0706_4b50
  const ZIP64_END := 0x0606_4b50

  datatype ArchiveError = Malformed(reason: string)
  datatype Directory = Directory(offset: nat, size: nat, entries: nat)
  datatype Location = Known(directory: Directory) | Zip64Record(offset: nat)

  // ---- reading -----------------------------------------------------------

  /** An end record's signature whose comment fits in the bytes. */
  predicate EndFits(bytes: seq<byte>, at: nat) {
    && U32At(bytes, at) == Some(END)
    && U16At(bytes, at + 20).Some?
    && at + 22 + U16At(bytes, at + 20).value <= |bytes|
  }

  /** The greatest fitting position not above `at`. */
  function FindEnd(bytes: seq<byte>, at: nat): Option<nat> {
    if EndFits(bytes, at) then Some(at) else if at == 0 then None else FindEnd(bytes, at - 1)
  }

  function LastEnd(tail: seq<byte>): Option<nat> {
    FindEnd(tail, Max(0, |tail| - 22))
  }

  function LocateDirectory(tail: seq<byte>, total: nat): Result<Location, ArchiveError> {
    var tailStart := Max(0, total - |tail|);
    match LastEnd(tail)
    case None => Err(Malformed("zip_end_record_missing"))
    case Some(end) =>
      match (U16At(tail, end + 10), U32At(tail, end + 12), U32At(tail, end + 16))
      case (Some(entries), Some(size), Some(offset)) =>
        if entries == U16_MAX || size == U32_MAX || offset == U32_MAX then
          if end < 20 || U32At(tail, end - 20) != Some(LOCATOR) then Err(Malformed("zip64_locator_missing"))
          else
            match U64At(tail, end - 20 + 8)
            case Some(record) => Ok(Zip64Record(record))
            case None => Err(Malformed("zip64_locator"))
        else if offset + size > tailStart + end then Err(Malformed("zip_directory_out_of_range"))
        else Ok(Known(Directory(offset, size, entries)))
      case _ => Err(Malformed("zip_end_record"))
  }

  function Zip64Directory(record: seq<byte>): Result<Directory, ArchiveError> {
    if U32At(record, 0) != Some(ZIP64_END) then Err(Malformed("zip64_end_record_missing"))
    else
      match (U64At(record, 32), U64At(record, 40), U64At(record, 48))
      case (Some(entries), Some(size), Some(offset)) => Ok(Directory(offset, size, entries))
      case _ => Err(Malformed("zip64_end_record"))
  }

  // ---- the search --------------------------------------------------------

  lemma {:induction false} FindEndIsGreatest(bytes: seq<byte>, at: nat)
    ensures match FindEnd(bytes, at)
            case Some(i) => i <= at && EndFits(bytes, i) && forall j :: i < j <= at ==> !EndFits(bytes, j)
            case None => forall j :: 0 <= j <= at ==> !EndFits(bytes, j)
  {
    if !EndFits(bytes, at) && at > 0 {
      FindEndIsGreatest(bytes, at - 1);
    }
  }

  /** "PK", 5 and 6, the rest of an end record, and room for a comment as long as its last two bytes say. */
  ghost predicate IsEnd(bytes: seq<byte>, at: nat) {
    && at + 22 <= |bytes|
    && bytes[at..at + 4] == [0x50, 0x4b, 0x05, 0x06]
    && at + 22 + bytes[at + 20] + 256 * bytes[at + 21] as int <= |bytes|
  }

  lemma FitsIsEnd(bytes: seq<byte>, at: nat)
    ensures EndFits(bytes, at) <==> IsEnd(bytes, at)
  {
    hide Value;
    if at + 22 <= |bytes| {
      FourBytes(bytes[at..at + 4]);
      TwoBytes(bytes[at + 20..at + 22]);
    }
  }

  /** No end record begins after `at`. */
  ghost predicate NoneAfter(bytes: seq<byte>, at: nat) {
    forall j :: j > at ==> !IsEnd(bytes, j)
  }

  /** The search finds the last end record of all, or reports that there is none. */
  lemma LastEndIsLast(tail: seq<byte>, at: nat)
    ensures LastEnd(tail) == Some(at) <==> IsEnd(tail, at) && NoneAfter(tail, at)
    ensures LastEnd(tail) == None ==> !IsEnd(tail, at)
    ensures IsEnd(tail, at) ==> LastEnd(tail).Some? && LastEnd(tail).value >= at
  {
    hide EndFits;
    FindEndIsGreatest(tail, Max(0, |tail| - 22));
    forall j: nat
      ensures EndFits(tail, j) <==> IsEnd(tail, j)
    {
      FitsIsEnd(tail, j);
    }
  }

  /** Sixteen or 32 set bits in the number of entries, the size or the offset. */
  ghost predicate HasSentinel(tail: seq<byte>, end: nat)
    requires end + 22 <= |tail|
  {
    || tail[end + 10..end + 12] == [0xff, 0xff]
    || tail[end + 12..end + 16] == [0xff, 0xff, 0xff, 0xff]
    || tail[end + 16..end + 20] == [0xff, 0xff, 0xff, 0xff]
  }

  /** "PK", 6 and 7, twenty bytes before the end record. */
  ghost predicate HasLocator(tail: seq<byte>, end: nat)
    requires end <= |tail|
  {
    end >= 20 && tail[end - 20..end - 16] == [0x50, 0x4b, 0x06, 0x07]
  }

  lemma Sentinels(tail: seq<byte>, end: nat)
    requires end + 22 <= |tail|
    ensures HasSentinel(tail, end) <==>
              U16At(tail, end + 10) == Some(U16_MAX) || U32At(tail, end + 12) == Some(U32_MAX)
              || U32At(tail, end + 16) == Some(U32_MAX)
  {
    hide Value;
    TwoBytes(tail[end + 10..end + 12]);
    FourBytes(tail[end + 12..end + 16]);
    FourBytes(tail[end + 16..end + 20]);
  }

  /** Why the directory is not located; the three fields of a record that was found are always there. */
  lemma LocateRefuses(tail: seq<byte>, total: nat)
    ensures LastEnd(tail).Some? ==> LastEnd(tail).value + 22 <= |tail|
    ensures
      match (LastEnd(tail), LocateDirectory(tail, total))
      case (None, r) => r == Err(Malformed("zip_end_record_missing"))
      case (Some(end), Ok(location)) =>
        location.Zip64Record? == HasSentinel(tail, end) && (HasSentinel(tail, end) ==> HasLocator(tail, end))
      case (Some(end), Err(Malformed(reason))) =>
        if HasSentinel(tail, end) then reason == "zip64_locator_missing" && !HasLocator(tail, end)
        else reason == "zip_directory_out_of_range"
  {
    hide Value, EndFits, LastEnd;
    if LastEnd(tail).Some? {
      var end := LastEnd(tail).value;
      LastEndIsLast(tail, end);
      Sentinels(tail, end);
      if end >= 20 {
        LocatorIsRead(tail, end - 20);
      }
    }
  }

  lemma LocatorIsRead(tail: seq<byte>, at: nat)
    requires at + 4 <= |tail|
    ensures U32At(tail, at) == Some(LOCATOR) <==> tail[at..at + 4] == [0x50, 0x4b, 0x06, 0x07]
  {
    hide Value;
    FourBytes(tail[at..at + 4]);
  }

  /** Of a zip64 record at least its signature is asked for, then 56 bytes. */
  lemma Zip64Refuses(record: seq<byte>)
    ensures match Zip64Directory(record)
            case Ok(_) => |record| >= 56 && record[..4] == [0x50, 0x4b, 0x06, 0x06]
            case Err(Malformed(reason)) =>
              if |record| >= 4 && record[..4] == [0x50, 0x4b, 0x06, 0x06]
              then reason == "zip64_end_record" && |record| < 56
              else reason == "zip64_end_record_missing"
  {
    hide Value;
    if |record| >= 4 {
      assert record[0..4] == record[..4];
      FourBytes(record[..4]);
    }
  }

  /** Safety, for any bytes at all: an accepted directory lies wholly before the end record. */
  lemma AcceptedDirectoryIsBeforeEnd(tail: seq<byte>, total: nat)
    requires |tail| <= total && LocateDirectory(tail, total).Ok? && LocateDirectory(tail, total).value.Known?
    ensures LastEnd(tail).Some?
    ensures var d := LocateDirectory(tail, total).value.directory;
            d.offset + d.size <= total - |tail| + LastEnd(tail).value <= total - 22
  {
    LastEndIsLast(tail, LastEnd(tail).value);
  }

  // ---- writing -----------------------------------------------------------

  function EndFields(entries: nat, size: nat, offset: nat, comment: nat): seq<Field> {
    [Field(END, 4), Field(0, 2), Field(0, 2), Field(entries, 2), Field(entries, 2), Field(size, 4), Field(offset, 4),
     Field(comment, 2)]
  }

  function Zip64Fields(d: Directory): seq<Field> {
    [Field(ZIP64_END, 4), Field(44, 8), Field(45, 2), Field(45, 2), Field(0, 4), Field(0, 4), Field(d.entries, 8),
     Field(d.entries, 8), Field(d.size, 8), Field(d.offset, 8)]
  }

  function LocatorFields(record: nat): seq<Field> {
    [Field(LOCATOR, 4), Field(0, 4), Field(record, 8), Field(1, 4)]
  }

  lemma EndLayout(entries: nat, size: nat, offset: nat, comment: nat)
    ensures var f := EndFields(entries, size, offset, comment);
            && Offset(f, 0) == 0 && Offset(f, 4) == 10 && Offset(f, 5) == 12 && Offset(f, 6) == 16
            && Offset(f, 7) == 20 && |Pack(f)| == 22
  {
    var f := EndFields(entries, size, offset, comment);
    OffsetNext(f, 0);
    OffsetNext(f, 1);
    OffsetNext(f, 2);
    OffsetNext(f, 3);
    OffsetNext(f, 4);
    OffsetNext(f, 5);
    OffsetNext(f, 6);
    WidthByOffset(f);
  }

  lemma Zip64Layout(d: Directory)
    ensures var f := Zip64Fields(d);
            Offset(f, 0) == 0 && Offset(f, 7) == 32 && Offset(f, 8) == 40 && Offset(f, 9) == 48 && |Pack(f)| == 56
  {
    var f := Zip64Fields(d);
    OffsetNext(f, 0);
    OffsetNext(f, 1);
    OffsetNext(f, 2);
    OffsetNext(f, 3);
    OffsetNext(f, 4);
    OffsetNext(f, 5);
    OffsetNext(f, 6);
    OffsetNext(f, 7);
    OffsetNext(f, 8);
    WidthByOffset(f);
  }

  lemma LocatorLayout(record: nat)
    ensures var f := LocatorFields(record); Offset(f, 0) == 0 && Offset(f, 2) == 8 && |Pack(f)| == 20
  {
    var f := LocatorFields(record);
    OffsetNext(f, 0);
    OffsetNext(f, 1);
    OffsetNext(f, 2);
    WidthByOffset(f);
  }

  predicate EndValues(entries: nat, size: nat, offset: nat, comment: seq<byte>) {
    entries <= U16_MAX && size <= U32_MAX && offset <= U32_MAX && |comment| <= U16_MAX
  }

  function EndRecord(entries: nat, size: nat, offset: nat, comment: seq<byte>): seq<byte> {
    Pack(EndFields(entries, size, offset, |comment|)) + comment
  }

  /** An end record at the end of an archive is read back, and fits. */
  lemma EndRecordRead(before: seq<byte>, entries: nat, size: nat, offset: nat, comment: seq<byte>)
    requires EndValues(entries, size, offset, comment)
    ensures var a, at := before + EndRecord(entries, size, offset, comment), |before|;
            && |a| == at + 22 + |comment| && IsEnd(a, at)
            && U16At(a, at + 10) == Some(entries) && U32At(a, at + 12) == Some(size)
            && U32At(a, at + 16) == Some(offset)
  {
    hide Value, Pack, Offset, EndFields;
    var f, record := EndFields(entries, size, offset, |comment|), EndRecord(entries, size, offset, comment);
    EndLayout(entries, size, offset, |comment|);
    EndIsPacked(entries, size, offset, |comment|, comment);
    NumberAtSuffix(before, record, 0, 4);
    NumberAtSuffix(before, record, 10, 2);
    NumberAtSuffix(before, record, 12, 4);
    NumberAtSuffix(before, record, 16, 4);
    NumberAtSuffix(before, record, 20, 2);
    FitsIsEnd(before + record, |before|);
  }

  lemma EndIsPacked(entries: nat, size: nat, offset: nat, n: nat, rest: seq<byte>)
    requires entries <= U16_MAX && size <= U32_MAX && offset <= U32_MAX && n <= U16_MAX
    ensures var a := Pack(EndFields(entries, size, offset, n)) + rest;
            && NumberAt(a, 0, 4) == Some(END) && NumberAt(a, 10, 2) == Some(entries)
            && NumberAt(a, 12, 4) == Some(size) && NumberAt(a, 16, 4) == Some(offset) && NumberAt(a, 20, 2) == Some(n)
  {
    hide Value, Pack, Offset, NumberAt;
    var f := EndFields(entries, size, offset, n);
    Spans();
    EndLayout(entries, size, offset, n);
    PackedField(f, 0, rest);
    PackedField(f, 4, rest);
    PackedField(f, 5, rest);
    PackedField(f, 6, rest);
    PackedField(f, 7, rest);
  }

  // ---- the tail ----------------------------------------------------------

  function TailStart(archive: seq<byte>): nat {
    Max(0, |archive| - ZIP_TAIL_BYTES)
  }

  function Tail(archive: seq<byte>): seq<byte> {
    archive[TailStart(archive)..]
  }

  lemma FitsInTail(archive: seq<byte>, at: nat)
    ensures IsEnd(Tail(archive), at) == IsEnd(archive, TailStart(archive) + at)
  {
    var start, tail := TailStart(archive), Tail(archive);
    if at + 22 <= |tail| {
      assert tail[at..at + 4] == archive[start + at..start + at + 4];
    }
  }

  lemma NumberInTail(archive: seq<byte>, at: nat, width: nat)
    ensures NumberAt(Tail(archive), at, width) == NumberAt(archive, TailStart(archive) + at, width)
  {
    assert archive == archive[..TailStart(archive)] + Tail(archive);
    NumberAtSuffix(archive[..TailStart(archive)], Tail(archive), at, width);
  }

  /**
   * The tail is long enough: it holds the end record, whatever its comment, and a zip64
   * locator before it. The record found is the archive's own exactly when no later
   * signature fits; otherwise it is a later one.
   */
  lemma TailHoldsEnd(before: seq<byte>, entries: nat, size: nat, offset: nat, comment: seq<byte>)
    requires EndValues(entries, size, offset, comment)
    ensures var a := before + EndRecord(entries, size, offset, comment);
            && |before| >= TailStart(a) && (|before| >= 20 ==> |before| - 20 >= TailStart(a))
            && LastEnd(Tail(a)).Some? && TailStart(a) + LastEnd(Tail(a)).value >= |before|
            && (TailStart(a) + LastEnd(Tail(a)).value == |before| <==> NoneAfter(a, |before|))
  {
    hide IsEnd, LastEnd, U16At, U32At;
    var a := before + EndRecord(entries, size, offset, comment);
    EndRecordRead(before, entries, size, offset, comment);
    var start := TailStart(a);
    var at := |before| - start;
    FitsInTail(a, at);
    LastEndIsLast(Tail(a), at);
    if NoneAfter(a, |before|) {
      forall j | j > at
        ensures !IsEnd(Tail(a), j)
      {
        FitsInTail(a, j);
      }
    }
    if LastEnd(Tail(a)) == Some(at) {
      forall j | j > |before|
        ensures !IsEnd(a, j)
      {
        FitsInTail(a, j - start);
      }
    }
  }

  // ---- round trips -------------------------------------------------------

  predicate Sentinel(entries: nat, size: nat, offset: nat) {
    entries == U16_MAX || size == U32_MAX || offset == U32_MAX
  }

  function ClassicArchive(data: seq<byte>, directory: seq<byte>, entries: nat, comment: seq<byte>): seq<byte> {
    data + directory + EndRecord(entries, |directory|, |data|, comment)
  }

  /** The directory of an archive without zip64 records is found where it is. */
  lemma LocateClassic(data: seq<byte>, directory: seq<byte>, entries: nat, comment: seq<byte>)
    requires EndValues(entries, |directory|, |data|, comment) && !Sentinel(entries, |directory|, |data|)
    requires NoneAfter(ClassicArchive(data, directory, entries, comment), |data + directory|)
    ensures var a := ClassicArchive(data, directory, entries, comment);
            LocateDirectory(Tail(a), |a|) == Ok(Known(Directory(|data|, |directory|, entries)))
  {
    hide EndFits, IsEnd, LastEnd, NumberAt, Value, EndRecord;
    var before, a := data + directory, ClassicArchive(data, directory, entries, comment);
    TailHoldsEnd(before, entries, |directory|, |data|, comment);
    EndRecordRead(before, entries, |directory|, |data|, comment);
    var end := |before| - TailStart(a);
    NumberInTail(a, end + 10, 2);
    NumberInTail(a, end + 12, 4);
    NumberInTail(a, end + 16, 4);
  }

  predicate LargeValues(d: Directory) {
    d.entries < Span(8) && d.size < Span(8) && d.offset < Span(8) && d.offset + d.size < Span(8)
  }

  function LargeBefore(data: seq<byte>, directory: seq<byte>, entries: nat): seq<byte> {
    data + directory + Pack(Zip64Fields(Directory(|data|, |directory|, entries)))
    + Pack(LocatorFields(|data| + |directory|))
  }

  /** `e`, `s` and `o` are the short fields, at least one of which says "see zip64". */
  function LargeArchive(
    data: seq<byte>, directory: seq<byte>, entries: nat, e: nat, s: nat, o: nat, comment: seq<byte>): seq<byte>
  {
    LargeBefore(data, directory, entries) + EndRecord(e, s, o, comment)
  }

  /** The zip64 end record is read back. */
  lemma Zip64DirectoryRead(d: Directory)
    requires LargeValues(d)
    ensures Zip64Directory(Pack(Zip64Fields(d))) == Ok(d)
  {
    hide Value, Pack, Offset, NumberAt, Span;
    var f := Zip64Fields(d);
    Spans();
    Zip64Layout(d);
    assert Pack(f) + [] == Pack(f);
    Zip64Fits(d);
    PackedField(f, 0, []);
    PackedField(f, 7, []);
    PackedField(f, 8, []);
    PackedField(f, 9, []);
  }

  lemma Zip64Fits(d: Directory)
    requires LargeValues(d)
    ensures Fits(Zip64Fields(d))
  {
    hide Span;
    Spans();
  }

  lemma LocatorRead(before: seq<byte>, record: nat, rest: seq<byte>)
    requires record < Span(8)
    ensures var a := before + Pack(LocatorFields(record)) + rest;
            NumberAt(a, |before|, 4) == Some(LOCATOR) && NumberAt(a, |before| + 8, 8) == Some(record)
  {
    hide Value, Pack, Offset, NumberAt, Span;
    var f := LocatorFields(record);
    Spans();
    LocatorLayout(record);
    PackedField(f, 0, rest);
    PackedField(f, 2, rest);
    assert before + Pack(f) + rest == before + (Pack(f) + rest);
    NumberAtSuffix(before, Pack(f) + rest, 0, 4);
    NumberAtSuffix(before, Pack(f) + rest, 8, 8);
  }

  /** A zip64 archive: the locator is in the tail and names the record, which names the directory. */
  lemma LocateLarge(
    data: seq<byte>, directory: seq<byte>, entries: nat, e: nat, s: nat, o: nat, comment: seq<byte>)
    requires LargeValues(Directory(|data|, |directory|, entries))
    requires EndValues(e, s, o, comment) && Sentinel(e, s, o)
    requires var a := LargeArchive(data, directory, entries, e, s, o, comment);
             NoneAfter(a, |LargeBefore(data, directory, entries)|)
    ensures var a, record := LargeArchive(data, directory, entries, e, s, o, comment), |data| + |directory|;
            && LocateDirectory(Tail(a), |a|) == Ok(Zip64Record(record)) && record + 56 <= |a|
            && Zip64Directory(a[record..record + 56]) == Ok(Directory(|data|, |directory|, entries))
  {
    hide EndFits, IsEnd, LastEnd, NumberAt, Value, EndRecord, Pack, Zip64Fields, LocatorFields, Zip64Directory, Span;
    var d, record := Directory(|data|, |directory|, entries), |data| + |directory|;
    var zip64, end := Pack(Zip64Fields(d)), EndRecord(e, s, o, comment);
    var before, a := LargeBefore(data, directory, entries), LargeArchive(data, directory, entries, e, s, o, comment);
    Zip64Layout(d);
    LocatorLayout(record);
    Zip64DirectoryRead(d);
    assert a[record..record + 56] == zip64;
    LocatorRead(data + directory + zip64, record, end);
    TailHoldsEnd(before, e, s, o, comment);
    EndRecordRead(before, e, s, o, comment);
    var at := |before| - TailStart(a);
    NumberInTail(a, at + 10, 2);
    NumberInTail(a, at + 12, 4);
    NumberInTail(a, at + 16, 4);
    NumberInTail(a, at - 20, 4);
    NumberInTail(a, at - 12, 8);
  }

  function LocatorArchive(before: seq<byte>, record: nat): seq<byte> {
    before + Pack(LocatorFields(record)) + EndRecord(U16_MAX, U32_MAX, U32_MAX, [])
  }

  /** Whatever offset a locator names is followed, without looking whether a record is there. */
  lemma LocatorIsFollowed(before: seq<byte>, record: nat)
    requires record < Span(8)
    ensures var a := LocatorArchive(before, record);
            LocateDirectory(Tail(a), |a|) == Ok(Zip64Record(record)) && |a| == |before| + 42
  {
    hide EndFits, IsEnd, LastEnd, NumberAt, Value, EndRecord, Pack, LocatorFields, Span;
    var end := EndRecord(U16_MAX, U32_MAX, U32_MAX, []);
    var all, a := before + Pack(LocatorFields(record)), LocatorArchive(before, record);
    LocatorLayout(record);
    LocatorRead(before, record, end);
    EndRecordRead(all, U16_MAX, U32_MAX, U32_MAX, []);
    NothingAfterEnd(a, |all|);
    TailHoldsEnd(all, U16_MAX, U32_MAX, U32_MAX, []);
    var at := |all| - TailStart(a);
    NumberInTail(a, at + 10, 2);
    NumberInTail(a, at + 12, 4);
    NumberInTail(a, at + 16, 4);
    NumberInTail(a, at - 20, 4);
    NumberInTail(a, at - 12, 8);
  }

  lemma NothingAfterEnd(bytes: seq<byte>, at: nat)
    requires |bytes| == at + 22
    ensures NoneAfter(bytes, at)
  {
  }
}
