/** The listing inverts a central-directory writer, and stays honest when bytes are missing. */
module ZipRoundTrip {
  import opened Wrappers
  import opened Text
  import opened Calendar
  import opened ZipBytes
  import opened ZipEntries

  // ---- any bytes: less input lists a prefix --------------------------------

  lemma ReadFixedPrefix(a: seq<byte>, b: seq<byte>, at: nat)
    requires at + 46 <= |a|
    ensures ReadFixed(a + b, at) == ReadFixed(a, at)
  {
    hide Value;
    NumberAtPrefix(a, b, at + 8, 2);
    NumberAtPrefix(a, b, at + 12, 2);
    NumberAtPrefix(a, b, at + 14, 2);
    NumberAtPrefix(a, b, at + 20, 4);
    NumberAtPrefix(a, b, at + 24, 4);
    NumberAtPrefix(a, b, at + 28, 2);
    NumberAtPrefix(a, b, at + 30, 2);
    NumberAtPrefix(a, b, at + 32, 2);
    NumberAtPrefix(a, b, at + 38, 4);
  }

  /** The bytes an entry must have to be listed: all but its comment. */
  function Visible(f: Fixed): nat {
    46 + f.nameLength + f.extraLength
  }

  lemma ReadEntryPrefix(a: seq<byte>, b: seq<byte>, at: nat)
    ensures ReadEntry(a, at).Some? ==> ReadEntry(a + b, at) == ReadEntry(a, at)
    ensures at + 46 <= |a| ==> (ReadEntry(a, at).Some? <==> at + Visible(ReadFixed(a + b, at)) <= |a|)
  {
    hide ReadFixed, ItemOf;
    if at + 46 <= |a| {
      ReadFixedPrefix(a, b, at);
      var f := ReadFixed(a, at);
      var extraAt := at + 46 + f.nameLength;
      if extraAt + f.extraLength <= |a| {
        assert (a + b)[at + 46..extraAt] == a[at + 46..extraAt];
        assert (a + b)[extraAt..extraAt + f.extraLength] == a[extraAt..extraAt + f.extraLength];
      }
    }
  }

  /** Whatever the bytes, what a shorter read lists is a prefix of what the whole lists. */
  lemma {:induction false} PrefixListsPrefix(a: seq<byte>, b: seq<byte>, at: nat, limit: nat)
    ensures Scan(a, at, limit).0 <= Scan(a + b, at, limit).0
    decreases |a| - at
  {
    hide ReadEntry, U32At;
    if at + 4 <= |a| {
      SameSignature(a, b, at);
      ReadEntryPrefix(a, b, at);
      if U32At(a, at) == Some(HEADER) && limit > 0 && ReadEntry(a, at).Some? {
        NextIsLater(a, at);
        PrefixListsPrefix(a, b, ReadEntry(a, at).value.1, limit - 1);
      }
    } else {
      NoSignature(a, at);
    }
  }

  lemma NoSignature(a: seq<byte>, at: nat)
    requires at + 4 > |a|
    ensures U32At(a, at) == None
  {
  }

  lemma SameSignature(a: seq<byte>, b: seq<byte>, at: nat)
    requires at + 4 <= |a|
    ensures U32At(a + b, at) == U32At(a, at)
  {
    NumberAtPrefix(a, b, at, 4);
  }

  /** A lower limit lists a prefix, too. */
  lemma {:induction false} LimitListsPrefix(d: seq<byte>, at: nat, limit: nat, more: nat)
    requires limit <= more
    ensures Scan(d, at, limit).0 == Scan(d, at, more).0[..Min(limit, |Scan(d, at, more).0|)]
    decreases |d| - at
  {
    hide ReadEntry, U32At;
    if U32At(d, at) == Some(HEADER) && limit > 0 && ReadEntry(d, at).Some? {
      NextIsLater(d, at);
      LimitListsPrefix(d, ReadEntry(d, at).value.1, limit - 1, more - 1);
    }
  }

  // ---- reading from a later start ----------------------------------------

  lemma ReadFixedSuffix(a: seq<byte>, b: seq<byte>, at: nat)
    requires at + 46 <= |b|
    ensures ReadFixed(a + b, |a| + at) == ReadFixed(b, at)
  {
    hide Value;
    NumberAtSuffix(a, b, at + 8, 2);
    NumberAtSuffix(a, b, at + 12, 2);
    NumberAtSuffix(a, b, at + 14, 2);
    NumberAtSuffix(a, b, at + 20, 4);
    NumberAtSuffix(a, b, at + 24, 4);
    NumberAtSuffix(a, b, at + 28, 2);
    NumberAtSuffix(a, b, at + 30, 2);
    NumberAtSuffix(a, b, at + 32, 2);
    NumberAtSuffix(a, b, at + 38, 4);
  }

  lemma ReadEntrySuffix(a: seq<byte>, b: seq<byte>, at: nat)
    ensures ReadEntry(a + b, |a| + at).Some? == ReadEntry(b, at).Some?
    ensures ReadEntry(b, at).Some? ==>
              var (item, next) := ReadEntry(b, at).value; ReadEntry(a + b, |a| + at) == Some((item, |a| + next))
  {
    hide ReadFixed, ItemOf;
    if at + 46 <= |b| {
      ReadFixedSuffix(a, b, at);
      var f, c := ReadFixed(b, at), a + b;
      var extraAt := at + 46 + f.nameLength;
      if extraAt + f.extraLength <= |b| {
        assert c[|a| + at + 46..|a| + extraAt] == b[at + 46..extraAt];
        assert c[|a| + extraAt..|a| + extraAt + f.extraLength] == b[extraAt..extraAt + f.extraLength];
      }
    }
  }

  lemma {:induction false} ScanSuffix(a: seq<byte>, b: seq<byte>, at: nat, limit: nat)
    ensures Scan(a + b, |a| + at, limit) == Scan(b, at, limit)
    decreases |b| - at
  {
    hide ReadEntry, U32At;
    assert U32At(a + b, |a| + at) == U32At(b, at) by { SignatureSuffix(a, b, at); }
    ReadEntrySuffix(a, b, at);
    if U32At(b, at) == Some(HEADER) && limit > 0 && ReadEntry(b, at).Some? {
      NextIsLater(b, at);
      ScanSuffix(a, b, ReadEntry(b, at).value.1, limit - 1);
    }
  }

  lemma SignatureSuffix(a: seq<byte>, b: seq<byte>, at: nat)
    ensures U32At(a + b, |a| + at) == U32At(b, at)
  {
    NumberAtSuffix(a, b, at, 4);
  }

  // ---- writing -----------------------------------------------------------

  datatype Extra = Extra(id: nat, data: seq<byte>)

  /** MS-DOS attributes: four bits, the directory bit, and the rest. */
  datatype Attributes = Attributes(low: nat, directory: bool, high: nat)

  /** Where an entry was made: on Unix, with a file type and permissions, or on another host. */
  datatype Made = OnUnix(fileType: nat, permissions: nat, dos: Attributes) | OnHost(host: nat, dos: Attributes)

  /** The general purpose flags: encryption is the first bit, UTF-8 names the twelfth. */
  datatype Flags = Flags(encrypted: bool, middle: nat, utf8: bool, high: nat)

  const UNIX_HOST := 3
  const UNIX_DIRECTORY := 4
  const UNIX_LINK := 10

  /** A directory entry to write. `wide` is the rest of the zip64 field, after the sizes. */
  datatype Entry = Entry(
    madeBy: nat, made: Made, needed: nat, flags: Flags, compression: nat, time: nat, date: nat, crc: nat,
    compressed: nat, size: nat, name: seq<byte>, before: seq<Extra>, wide: seq<byte>, after: seq<Extra>,
    comment: seq<byte>, disk: nat, attributes: nat, local: nat)

  function Bit(b: bool): nat {
    if b then 1 else 0
  }

  function DosNumber(a: Attributes): nat {
    a.low + 16 * Bit(a.directory) + 32 * a.high
  }

  function HostNumber(m: Made): nat {
    if m.OnUnix? then UNIX_HOST else m.host
  }

  /** On Unix the mode, type first, is kept above the MS-DOS attributes. */
  function ExternalNumber(m: Made): nat {
    match m
    case OnUnix(fileType, permissions, dos) => (fileType * 0x1000 + permissions) * 0x1_0000 + DosNumber(dos)
    case OnHost(_, dos) => DosNumber(dos)
  }

  function FlagsNumber(f: Flags): nat {
    Bit(f.encrypted) + 2 * f.middle + 0x800 * Bit(f.utf8) + 0x1000 * f.high
  }

  /** Every part has room in its number, and only Unix calls itself that. */
  predicate Encodable(e: Entry) {
    && e.flags.middle < 0x400 && e.flags.high < 0x10 && e.made.dos.low < 16
    && match e.made
       case OnUnix(fileType, permissions, dos) => fileType < 0x10 && permissions < 0x1000 && dos.high < 0x800
       case OnHost(host, dos) => host != UNIX_HOST && dos.high < 0x800_0000
  }

  function ExtraBytes(x: Extra): seq<byte> {
    Pack([Field(x.id, 2), Field(|x.data|, 2)]) + x.data
  }

  function ExtrasBytes(xs: seq<Extra>): seq<byte> {
    if xs == [] then [] else ExtraBytes(xs[0]) + ExtrasBytes(xs[1..])
  }

  function Short(n: nat): nat {
    if n < U32_MAX then n else U32_MAX
  }

  /** The zip64 field holds exactly the sizes the fixed part has no room for, the uncompressed one first. */
  function SizesField(e: Entry): Extra {
    Extra(0x0001,
          (if e.size >= U32_MAX then Little(e.size, 8) else [])
          + (if e.compressed >= U32_MAX then Little(e.compressed, 8) else []) + e.wide)
  }

  function ExtrasOf(e: Entry): seq<Extra> {
    e.before + (if e.size >= U32_MAX || e.compressed >= U32_MAX then [SizesField(e)] else []) + e.after
  }

  function HeaderFields(e: Entry): seq<Field> {
    [Field(0x0201_4b50, 4), Field(e.madeBy, 1), Field(HostNumber(e.made), 1), Field(e.needed, 2),
     Field(FlagsNumber(e.flags), 2), Field(e.compression, 2), Field(e.time, 2), Field(e.date, 2),
     Field(e.crc, 4), Field(Short(e.compressed), 4),
     Field(Short(e.size), 4), Field(|e.name|, 2), Field(|ExtrasBytes(ExtrasOf(e))|, 2), Field(|e.comment|, 2),
     Field(e.disk, 2), Field(e.attributes, 2), Field(ExternalNumber(e.made), 4), Field(e.local, 4)]
  }

  function EntryBytes(e: Entry): seq<byte> {
    Pack(HeaderFields(e)) + e.name + ExtrasBytes(ExtrasOf(e)) + e.comment
  }

  function EntriesBytes(es: seq<Entry>): seq<byte> {
    if es == [] then [] else EntryBytes(es[0]) + EntriesBytes(es[1..])
  }

  predicate OtherExtras(xs: seq<Extra>) {
    forall i :: 0 <= i < |xs| ==> xs[i].id <= U16_MAX && xs[i].id != 0x0001 && |xs[i].data| <= U16_MAX
  }

  /** Every value fits its field, and the zip64 field appears once, if at all. */
  predicate Writable(e: Entry) {
    && Encodable(e) && Fits(HeaderFields(e)) && e.size < Span(8) && e.compressed < Span(8)
    && OtherExtras(e.before) && OtherExtras(e.after) && |SizesField(e).data| <= U16_MAX
  }

  predicate AllWritable(es: seq<Entry>) {
    forall i :: 0 <= i < |es| ==> Writable(es[i])
  }

  /** The last usable Unix time among the extra fields, or else the one given. */
  function TimeOf(xs: seq<Extra>, otherwise: Option<Moment>): Option<Moment> {
    if xs == [] then otherwise
    else
      var x := xs[|xs| - 1];
      if x.id == 0x5455 && x.data != [] && x.data[0] % 2 == 1 && |x.data| >= 5
      then Some(Unix(Value(x.data[1..5])))
      else TimeOf(xs[..|xs| - 1], otherwise)
  }

  /** A directory by its name or by its MS-DOS attributes. */
  predicate LooksLikeFolder(e: Entry) {
    e.made.dos.directory || (e.name != [] && e.name[|e.name| - 1] == '/' as int)
  }

  /** What was stored: a Unix directory or link by its type, anything else by what it looks like. */
  function KindStored(e: Entry): ItemKind {
    if e.made.OnUnix? && e.made.fileType == UNIX_DIRECTORY then Folder
    else if e.made.OnUnix? && e.made.fileType == UNIX_LINK then Link
    else if LooksLikeFolder(e) then Folder
    else ItemKind.File
  }

  /** What a listing should show of an entry: its true sizes among the rest. */
  function ItemFor(e: Entry): Item {
    Item(e.name, e.flags.utf8, KindStored(e), e.size, e.compressed,
         TimeOf(e.before + e.after, DosDateTime(e.date, e.time)), e.flags.encrypted)
  }

  function ItemsFor(es: seq<Entry>): (items: seq<Item>)
    ensures |items| == |es|
  {
    if es == [] then [] else [ItemFor(es[0])] + ItemsFor(es[1..])
  }

  // ---- the extra fields --------------------------------------------------

  function Applied(xs: seq<Extra>, d: Details): Details {
    if xs == [] then d else Applied(xs[1..], ApplyField(d, xs[0].id, xs[0].data))
  }

  lemma ExtraHead(x: Extra, rest: seq<byte>)
    requires x.id <= U16_MAX && |x.data| <= U16_MAX
    ensures var s := ExtraBytes(x) + rest;
            && |s| >= 4 + |x.data| && U16At(s, 0) == Some(x.id) && U16At(s, 2) == Some(|x.data|)
            && s[4..4 + |x.data|] == x.data && s[4 + |x.data|..] == rest
  {
    hide Value;
    var fields := [Field(x.id, 2), Field(|x.data|, 2)];
    Spans();
    OffsetNext(fields, 0);
    PackedField(fields, 0, x.data + rest);
    PackedField(fields, 1, x.data + rest);
    assert |Pack(fields)| == 4 by { WidthByOffset(fields); }
    assert ExtraBytes(x) + rest == Pack(fields) + (x.data + rest);
  }

  /** Reading written extra fields applies each of them in order. */
  lemma {:induction false} ExtrasRead(xs: seq<Extra>, d: Details)
    requires forall i :: 0 <= i < |xs| ==> xs[i].id <= U16_MAX && |xs[i].data| <= U16_MAX
    ensures ReadExtra(ExtrasBytes(xs), d) == Applied(xs, d)
  {
    hide ApplyField, U16At, ExtraBytes;
    if xs != [] {
      var x, rest := xs[0], ExtrasBytes(xs[1..]);
      ExtraHead(x, rest);
      ExtrasRead(xs[1..], ApplyField(d, x.id, x.data));
    }
  }

  lemma {:induction false} AppliedAppend(a: seq<Extra>, b: seq<Extra>, d: Details)
    ensures Applied(a + b, d) == Applied(b, Applied(a, d))
  {
    if a == [] {
      assert a + b == b;
    } else {
      assert (a + b)[1..] == a[1..] + b;
      AppliedAppend(a[1..], b, ApplyField(d, a[0].id, a[0].data));
    }
  }

  /** Fields other than zip64 only set the time: the last one that has one wins. */
  lemma {:induction false} OthersApplied(xs: seq<Extra>, d: Details)
    requires OtherExtras(xs)
    ensures Applied(xs, d) == d.(modified := TimeOf(xs, d.modified))
    decreases |xs|
  {
    hide Value;
    if xs != [] {
      var most, x := xs[..|xs| - 1], xs[|xs| - 1];
      assert xs == most + [x];
      AppliedAppend(most, [x], d);
      OthersApplied(most, d);
      assert [x][1..] == [];
    }
  }

  lemma {:induction false} TimeOfAppend(a: seq<Extra>, b: seq<Extra>, m: Option<Moment>)
    ensures TimeOf(a + b, m) == TimeOf(b, TimeOf(a, m))
    decreases |b|
  {
    hide Value;
    if b == [] {
      assert a + b == a;
    } else {
      assert (a + b)[..|a + b| - 1] == a + b[..|b| - 1];
      TimeOfAppend(a, b[..|b| - 1], m);
    }
  }

  /** The zip64 field puts the true sizes back. */
  lemma SizesApplied(e: Entry, m: Option<Moment>)
    requires e.size < Span(8) && e.compressed < Span(8)
    ensures ApplyField(Details(Short(e.size), Short(e.compressed), m), ZIP64_FIELD, SizesField(e).data)
            == Details(e.size, e.compressed, m)
  {
    hide Value, Little;
    var data := SizesField(e).data;
    LittleRoundTrip(e.size, 8);
    LittleRoundTrip(e.compressed, 8);
    if e.size >= U32_MAX {
      assert data[0..8] == Little(e.size, 8);
      if e.compressed >= U32_MAX {
        assert data[8..16] == Little(e.compressed, 8);
      }
    } else if e.compressed >= U32_MAX {
      assert data[0..8] == Little(e.compressed, 8);
    }
  }

  lemma ExtrasGiveDetails(e: Entry)
    requires Writable(e)
    ensures var dos := DosDateTime(e.date, e.time);
            ReadExtra(ExtrasBytes(ExtrasOf(e)), Details(Short(e.size), Short(e.compressed), dos))
            == Details(e.size, e.compressed, TimeOf(e.before + e.after, dos))
  {
    hide ReadExtra, ExtrasBytes, ApplyField, TimeOf, DosDateTime, SizesField, HeaderFields;
    var dos := DosDateTime(e.date, e.time);
    var d := Details(Short(e.size), Short(e.compressed), dos);
    var middle := if e.size >= U32_MAX || e.compressed >= U32_MAX then [SizesField(e)] else [];
    assert SizesField(e).id == ZIP64_FIELD by { SizesId(e); }
    ExtrasRead(ExtrasOf(e), d);
    AppliedAppend(e.before + middle, e.after, d);
    AppliedAppend(e.before, middle, d);
    OthersApplied(e.before, d);
    var m := TimeOf(e.before, dos);
    SizesApplied(e, m);
    assert middle != [] ==> middle[1..] == [];
    OthersApplied(e.after, Details(e.size, e.compressed, m));
    TimeOfAppend(e.before, e.after, dos);
  }

  lemma SizesId(e: Entry)
    ensures SizesField(e).id == ZIP64_FIELD
  {
  }

  // ---- one entry ---------------------------------------------------------

  lemma HeaderLayout(e: Entry)
    ensures var f := HeaderFields(e);
            && Offset(f, 0) == 0 && Offset(f, 2) == 5 && Offset(f, 4) == 8 && Offset(f, 6) == 12 && Offset(f, 7) == 14
            && Offset(f, 9) == 20 && Offset(f, 10) == 24 && Offset(f, 11) == 28 && Offset(f, 12) == 30
            && Offset(f, 13) == 32 && Offset(f, 16) == 38 && |Pack(f)| == 46
  {
    hide Pack, Offset, Width, ExtrasBytes, ExtrasOf, Short;
    var f := HeaderFields(e);
    FirstOffset(f);
    OffsetNext(f, 0);
    OffsetNext(f, 1);
    OffsetNext(f, 2);
    OffsetNext(f, 3);
    OffsetNext(f, 4);
    OffsetNext(f, 5);
    OffsetNext(f, 6);
    OffsetNext(f, 7);
    OffsetNext(f, 8);
    OffsetNext(f, 9);
    OffsetNext(f, 10);
    OffsetNext(f, 11);
    OffsetNext(f, 12);
    OffsetNext(f, 13);
    OffsetNext(f, 14);
    OffsetNext(f, 15);
    OffsetNext(f, 16);
    WidthByOffset(f);
  }

  lemma FirstOffset(fields: seq<Field>)
    requires fields != []
    ensures Offset(fields, 0) == 0
  {
  }

  function FixedOf(e: Entry): Fixed {
    Fixed(HostNumber(e.made), FlagsNumber(e.flags), e.time, e.date, Short(e.compressed), Short(e.size),
          |e.name|, |ExtrasBytes(ExtrasOf(e))|, |e.comment|, ExternalNumber(e.made))
  }

  lemma HeaderRead(e: Entry, rest: seq<byte>)
    requires Writable(e)
    ensures var s := Pack(HeaderFields(e)) + rest;
            |s| >= 46 && U32At(s, 0) == Some(HEADER) && ReadFixed(s, 0) == FixedOf(e)
  {
    hide Pack, Offset, Value, Span, ExtrasBytes, ExtrasOf, Short;
    var f := HeaderFields(e);
    Spans();
    HeaderLayout(e);
    PackedField(f, 0, rest);
    PackedField(f, 2, rest);
    PackedField(f, 4, rest);
    PackedField(f, 6, rest);
    PackedField(f, 7, rest);
    PackedField(f, 9, rest);
    PackedField(f, 10, rest);
    PackedField(f, 11, rest);
    PackedField(f, 12, rest);
    PackedField(f, 13, rest);
    PackedField(f, 16, rest);
    OneByte(Pack(f) + rest, 5);
  }

  lemma OneByte(bytes: seq<byte>, at: nat)
    requires at < |bytes|
    ensures NumberAt(bytes, at, 1) == Some(bytes[at])
  {
    var one := bytes[at..at + 1];
    assert one[1..] == [] && Value(one) == one[0] + 256 * Value(one[1..]);
  }

  /** The flags are read back from their bits. */
  lemma FlagsRead(f: Flags)
    requires f.middle < 0x400 && f.high < 0x10
    ensures FlagsNumber(f) % 2 == 1 <==> f.encrypted
    ensures FlagsNumber(f) / 0x800 % 2 == 1 <==> f.utf8
  {
    var n := FlagsNumber(f);
    assert n == Bit(f.encrypted) + 2 * (f.middle + 0x400 * Bit(f.utf8) + 0x800 * f.high);
    assert n == (Bit(f.encrypted) + 2 * f.middle) + 0x800 * (Bit(f.utf8) + 2 * f.high);
    assert n / 0x800 == Bit(f.utf8) + 2 * f.high;
  }

  /** The kind is read back from host and attributes, as it was stored. */
  lemma KindRead(e: Entry)
    requires Encodable(e)
    ensures KindOf(HostNumber(e.made), ExternalNumber(e.made), e.name) == KindStored(e)
  {
    var external, dos := ExternalNumber(e.made), e.made.dos;
    DirectoryBit(dos, if e.made.OnUnix? then 0x800 * (e.made.fileType * 0x1000 + e.made.permissions) else 0);
    if e.made.OnUnix? {
      var mode := e.made.fileType * 0x1000 + e.made.permissions;
      assert external == 0x1_0000 * mode + DosNumber(dos) && DosNumber(dos) < 0x1_0000;
      assert external / 0x1_0000 == mode;
      assert mode / 0x1000 == e.made.fileType;
    }
  }

  lemma DirectoryBit(dos: Attributes, above: nat)
    requires dos.low < 16
    ensures (DosNumber(dos) + 32 * above) / 16 % 2 == 1 <==> dos.directory
  {
    var n := DosNumber(dos) + 32 * above;
    assert n == dos.low + 16 * (Bit(dos.directory) + 2 * (dos.high + above));
    assert n / 16 == Bit(dos.directory) + 2 * (dos.high + above);
  }

  /** The header, the name and the extra fields give what a listing should show. */
  lemma ItemRead(e: Entry)
    requires Writable(e)
    ensures ItemOf(FixedOf(e), e.name, ExtrasBytes(ExtrasOf(e))) == ItemFor(e)
  {
    FlagsRead(e.flags);
    KindRead(e);
    ExtrasGiveDetails(e);
    hide ExtrasBytes, ExtrasOf, ReadExtra, TimeOf, Short, KindOf, KindStored, HostNumber, FlagsNumber, ExternalNumber,
         DosDateTime, Fits, HeaderFields, SizesField;
  }

  /** A written entry is read back with its true sizes, and the next one starts where it ends. */
  lemma EntryRead(e: Entry, rest: seq<byte>)
    requires Writable(e)
    ensures var s := EntryBytes(e) + rest;
            && |s| >= 46 && U32At(s, 0) == Some(HEADER) && Visible(ReadFixed(s, 0)) + |e.comment| == |EntryBytes(e)|
            && ReadEntry(s, 0) == Some((ItemFor(e), |EntryBytes(e)|))
  {
    hide Pack, Value, HeaderFields, ReadFixed, ExtrasBytes, ExtrasOf, Short, U32At, Writable, ItemOf, ItemFor,
         HostNumber, FlagsNumber, ExternalNumber;
    var head, extra := Pack(HeaderFields(e)), ExtrasBytes(ExtrasOf(e));
    var tail := e.name + extra + e.comment + rest;
    var s := EntryBytes(e) + rest;
    assert s == head + tail;
    HeaderLayout(e);
    HeaderRead(e, tail);
    ItemRead(e);
    var extraAt := 46 + |e.name|;
    assert s[46..extraAt] == e.name && s[extraAt..extraAt + |extra|] == extra;
  }

  // ---- the whole directory -----------------------------------------------

  /** How many entries can be listed from the first `k` bytes: a missing comment does not matter. */
  function WholeEntries(es: seq<Entry>, k: nat): (n: nat)
    ensures n <= |es|
  {
    if es == [] || k < |EntryBytes(es[0])| - |es[0].comment| then 0
    else 1 + WholeEntries(es[1..], Max(0, k - |EntryBytes(es[0])|))
  }

  /** Nothing after the directory that could be taken for another header. */
  predicate NoHeader(tail: seq<byte>) {
    U32At(tail, 0) != Some(HEADER)
  }

  lemma CutFirst(e: Entry, rest: seq<byte>, k: nat)
    requires Writable(e) && k <= |EntryBytes(e) + rest|
    ensures var d := (EntryBytes(e) + rest)[..k];
            && (4 <= k ==> U32At(d, 0) == Some(HEADER))
            && ReadEntry(d, 0) == if k < |EntryBytes(e)| - |e.comment| then None
                                  else Some((ItemFor(e), |EntryBytes(e)|))
    ensures |EntryBytes(e)| >= 46 + |e.comment|
  {
    hide ReadEntry, ItemFor, EntryBytes, Writable, ReadFixed, U32At;
    var s := EntryBytes(e) + rest;
    var d := s[..k];
    assert s == d + s[k..];
    EntryRead(e, rest);
    ReadEntryPrefix(d, s[k..], 0);
    if 4 <= k {
      SameSignature(d, s[k..], 0);
    }
    if k < 46 {
      TooShort(d);
    }
  }

  lemma TooShort(d: seq<byte>)
    requires |d| < 46
    ensures ReadEntry(d, 0) == None
  {
  }

  /** One step of the listing. */
  lemma ScanStep(d: seq<byte>, limit: nat)
    ensures U32At(d, 0) != Some(HEADER) ==> Scan(d, 0, limit) == ([], true)
    ensures U32At(d, 0) == Some(HEADER) && (limit == 0 || ReadEntry(d, 0).None?) ==> Scan(d, 0, limit) == ([], false)
    ensures U32At(d, 0) == Some(HEADER) && limit > 0 && ReadEntry(d, 0).Some? ==>
              var (item, next) := ReadEntry(d, 0).value;
              var (more, complete) := Scan(d, next, limit - 1);
              Scan(d, 0, limit) == ([item] + more, complete)
  {
    hide ReadEntry, U32At;
  }

  lemma ScanPastEnd(d: seq<byte>, at: nat, limit: nat)
    requires at + 4 > |d|
    ensures Scan(d, at, limit) == ([], true)
  {
    NoSignature(d, at);
  }

  /**
   * From the first `k` bytes of a written directory, with any limit: the listing holds
   * exactly the first entries, as many as the limit and the bytes allow, and it is
   * reported incomplete only when entries are really missing.
   */
  lemma {:induction false} ScanWritten(es: seq<Entry>, tail: seq<byte>, k: nat, limit: nat)
    requires AllWritable(es) && NoHeader(tail) && k <= |EntriesBytes(es) + tail|
    ensures var (items, complete) := Scan((EntriesBytes(es) + tail)[..k], 0, limit);
            var m := Min(limit, WholeEntries(es, k));
            items == ItemsFor(es)[..m] && (!complete ==> m < |es|)
    decreases es
  {
    hide ReadEntry, ItemFor, EntryBytes, Writable, U32At, Scan;
    var d := (EntriesBytes(es) + tail)[..k];
    ScanStep(d, limit);
    if es == [] {
      assert EntriesBytes(es) + tail == tail;
      CutTail(tail, k);
    } else {
      var first, rest := es[0], EntriesBytes(es[1..]) + tail;
      var size := |EntryBytes(first)|;
      assert EntriesBytes(es) + tail == EntryBytes(first) + rest;
      CutFirst(first, rest, k);
      if k < 4 {
        ScanPastEnd(d, 0, limit);
      } else if limit > 0 && k >= size - |first.comment| {
        if k < size {
          ScanPastEnd(d, size, limit - 1);
          NothingWhole(es[1..]);
        } else {
          assert d == EntryBytes(first) + rest[..k - size];
          ScanSuffix(EntryBytes(first), rest[..k - size], 0, limit - 1);
          ScanWritten(es[1..], tail, k - size, limit - 1);
        }
      }
    }
  }

  lemma CutTail(tail: seq<byte>, k: nat)
    requires NoHeader(tail) && k <= |tail|
    ensures U32At(tail[..k], 0) != Some(HEADER)
  {
    if k >= 4 {
      assert tail == tail[..k] + tail[k..];
      SameSignature(tail[..k], tail[k..], 0);
    }
  }

  lemma NothingWhole(es: seq<Entry>)
    ensures WholeEntries(es, 0) == 0
  {
    if es != [] {
      HeaderLayout(es[0]);
    }
  }

  lemma {:induction false} AllWhole(es: seq<Entry>, k: nat)
    requires k >= |EntriesBytes(es)|
    ensures WholeEntries(es, k) == |es|
  {
    hide EntryBytes;
    if es != [] {
      AllWhole(es[1..], k - |EntryBytes(es[0])|);
    }
  }

  /**
   * The listing inverts the writer: the whole list when the limit allows it, and exactly
   * the first `limit` entries, marked as cut by the limit, otherwise.
   */
  lemma ListInvertsWriter(es: seq<Entry>, tail: seq<byte>, limit: nat)
    requires AllWritable(es) && NoHeader(tail)
    ensures List(EntriesBytes(es) + tail, |es|, limit)
            == if |es| <= limit then Listing(ItemsFor(es), false, None)
               else Listing(ItemsFor(es)[..limit], true, Some(EntryLimit))
  {
    hide Scan, EntriesBytes, WholeEntries, ItemsFor, AllWritable, NoHeader;
    var d := EntriesBytes(es) + tail;
    assert d[..|d|] == d;
    ScanWritten(es, tail, |d|, limit);
    AllWhole(es, |d|);
    assert ItemsFor(es)[..|es|] == ItemsFor(es);
  }

  /** From any first part of the directory: a prefix of the list, and `truncated` tells the truth. */
  lemma CutListingIsHonest(es: seq<Entry>, k: nat, limit: nat)
    requires AllWritable(es) && k <= |EntriesBytes(es)|
    ensures var r, m := List(EntriesBytes(es)[..k], |es|, limit), Min(limit, WholeEntries(es, k));
            && r.entries == ItemsFor(es)[..m] && (r.truncated <==> m < |es|)
            && (r.truncated ==> r.because == Some(if limit < |es| then EntryLimit else DirectoryLimit))
  {
    hide Scan, EntriesBytes, WholeEntries, ItemsFor, AllWritable;
    assert EntriesBytes(es) + [] == EntriesBytes(es);
    ScanWritten(es, [], k, limit);
  }

  // ---- MS-DOS dates ------------------------------------------------------

  predicate DosMoment(m: Moment) {
    m.Civil? && 1980 <= m.year <= 2107 && 1 <= m.month <= 12 && 1 <= m.day <= DaysInMonth(m.year, m.month)
    && m.hour < 24 && m.minute < 60 && m.second < 60 && m.second % 2 == 0
  }

  function DosDate(m: Moment): nat
    requires DosMoment(m)
  {
    (m.year - 1980) * 512 + m.month * 32 + m.day
  }

  function DosTime(m: Moment): nat
    requires DosMoment(m)
  {
    m.hour * 2048 + m.minute * 32 + m.second / 2
  }

  /** The date and time words name exactly the two-second moments from 1980 to 2107. */
  lemma DosDateTimeRoundTrip(m: Moment)
    requires DosMoment(m)
    ensures DosDate(m) <= U16_MAX && DosTime(m) <= U16_MAX && DosDateTime(DosDate(m), DosTime(m)) == Some(m)
  {
    assert m.day < 32;
    hide DaysInMonth;
    DateFields(m.year - 1980, m.month, m.day);
    TimeFields(m.hour, m.minute, m.second / 2);
  }

  lemma DateFields(year: nat, month: nat, day: nat)
    requires month < 16 && day < 32
    ensures var d := year * 512 + month * 32 + day; d / 512 == year && d / 32 % 16 == month && d % 32 == day
  {
    var d := year * 512 + month * 32 + day;
    assert d / 32 == year * 16 + month;
  }

  lemma TimeFields(hour: nat, minute: nat, half: nat)
    requires minute < 64 && half < 32
    ensures var t := hour * 2048 + minute * 32 + half; t / 2048 == hour && t / 32 % 64 == minute && t % 32 == half
  {
    var t := hour * 2048 + minute * 32 + half;
    assert t / 32 == hour * 64 + minute;
  }

  lemma DosDateTimeIsExact(date: nat, time: nat)
    requires date <= U16_MAX && time <= U16_MAX && DosDateTime(date, time).Some?
    ensures var m := DosDateTime(date, time).value; DosMoment(m) && DosDate(m) == date && DosTime(m) == time
  {
  }
}
