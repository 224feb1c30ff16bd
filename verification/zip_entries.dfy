/** Listing the entries of a zip central directory. */
module ZipEntries {
  import opened Wrappers
  import opened Text
  import opened Calendar
  import opened ZipBytes

  const HEADER := 0x0201_4b50
  const ZIP64_FIELD := 0x0001
  const TIME_FIELD := 0x5455

  datatype ItemKind = File | Folder | Link

  /** A recorded modification time: calendar fields in UTC, or seconds since 1970. */
  datatype Moment =
    | Civil(year: nat, month: nat, day: nat, hour: nat, minute: nat, second: nat)
    | Unix(seconds: nat)

  /** A listed entry. Its name is kept as recorded: the bytes and whether they are UTF-8. */
  datatype Item = Item(
    name: seq<byte>, utf8: bool, kind: ItemKind, size: nat, compressed: nat, modified: Option<Moment>, encrypted: bool)

  datatype Reason = EntryLimit | DirectoryLimit
  datatype Listing = Listing(entries: seq<Item>, truncated: bool, because: Option<Reason>)

  // ---- extra fields ------------------------------------------------------

  /** What the extra fields may replace. */
  datatype Details = Details(size: nat, compressed: nat, modified: Option<Moment>)

  /** One extra field: zip64 sizes replace only the sizes marked as elsewhere, in order. */
  function ApplyField(d: Details, id: nat, data: seq<byte>): Details {
    if id == ZIP64_FIELD then
      var large := d.size == U32_MAX && U64At(data, 0).Some?;
      var cursor := if large then 8 else 0;
      Details(
        if large then U64At(data, 0).value else d.size,
        if d.compressed == U32_MAX && U64At(data, cursor).Some? then U64At(data, cursor).value else d.compressed,
        d.modified)
    else if id == TIME_FIELD && data != [] && data[0] % 2 == 1 && U32At(data, 1).Some? then
      d.(modified := Some(Unix(U32At(data, 1).value)))
    else d
  }

  /** All the extra fields, in order. A field that claims more bytes than remain holds none. */
  function ReadExtra(extra: seq<byte>, d: Details): Details {
    if |extra| < 4 then d
    else
      var id, length := U16At(extra, 0).value, U16At(extra, 2).value;
      if 4 + length > |extra| then ApplyField(d, id, [])
      else ReadExtra(extra[4 + length..], ApplyField(d, id, extra[4..4 + length]))
  }

  method ReadExtraFields(extra: seq<byte>, given: Details) returns (d: Details)
    ensures d == ReadExtra(extra, given)
  {
    hide U16At, U32At;
    d := given;
    var field := 0;
    assert extra[0..] == extra;
    while field + 4 <= |extra|
      invariant ReadExtra(extra, given) == if field <= |extra| then ReadExtra(extra[field..], d) else d
      decreases |extra| - field
    {
      var rest := extra[field..];
      SameNumbers(extra, field, 0);
      SameNumbers(extra, field, 2);
      var id, length := U16At(extra, field).value, U16At(extra, field + 2).value;
      var data := if field + 4 + length <= |extra| then extra[field + 4..field + 4 + length] else [];
      if field + 4 + length <= |extra| {
        assert rest[4..4 + length] == data && rest[4 + length..] == extra[field + 4 + length..];
      }
      if id == ZIP64_FIELD {
        var cursor := 0;
        if d.size == U32_MAX && U64At(data, cursor).Some? {
          d := d.(size := U64At(data, cursor).value);
          cursor := cursor + 8;
        }
        if d.compressed == U32_MAX && U64At(data, cursor).Some? {
          d := d.(compressed := U64At(data, cursor).value);
        }
      } else if id == TIME_FIELD && data != [] && data[0] % 2 == 1 && U32At(data, 1).Some? {
        d := d.(modified := Some(Unix(U32At(data, 1).value)));
      }
      field := field + 4 + length;
    }
  }

  lemma SameNumbers(bytes: seq<byte>, at: nat, more: nat)
    requires at <= |bytes|
    ensures U16At(bytes, at + more) == U16At(bytes[at..], more)
  {
    assert bytes == bytes[..at] + bytes[at..];
    NumberAtSuffix(bytes[..at], bytes[at..], more, 2);
  }

  // ---- one entry ---------------------------------------------------------

  /** The MS-DOS date and time, when they name a real moment. */
  function DosDateTime(date: nat, time: nat): Option<Moment> {
    var year, month, day := 1980 + date / 512, date / 32 % 16, date % 32;
    var hour, minute, second := time / 2048, time / 32 % 64, time % 32 * 2;
    if 1 <= month <= 12 && 1 <= day <= DaysInMonth(year, month) && hour < 24 && minute < 60 && second < 60
    then Some(Civil(year, month, day, hour, minute, second))
    else None
  }

  /** Unix archives record the kind in the mode; others by a trailing slash or the directory bit. */
  function KindOf(host: nat, external: nat, name: seq<byte>): ItemKind {
    var mode := external / 0x1_0000 / 0x1000;
    if host == 3 && mode == 4 then Folder
    else if host == 3 && mode == 0xa then Link
    else if (name != [] && name[|name| - 1] == 0x2f) || external / 16 % 2 == 1 then Folder
    else File
  }

  /** The fixed part of a directory header that a listing uses. */
  datatype Fixed = Fixed(
    host: nat, flags: nat, time: nat, date: nat, compressed: nat, size: nat,
    nameLength: nat, extraLength: nat, commentLength: nat, external: nat)

  function ReadFixed(d: seq<byte>, at: nat): Fixed
    requires at + 46 <= |d|
  {
    Fixed(d[at + 5], U16At(d, at + 8).value, U16At(d, at + 12).value, U16At(d, at + 14).value,
          U32At(d, at + 20).value, U32At(d, at + 24).value,
          U16At(d, at + 28).value, U16At(d, at + 30).value, U16At(d, at + 32).value, U32At(d, at + 38).value)
  }

  function ItemOf(f: Fixed, name: seq<byte>, extra: seq<byte>): Item {
    var d := ReadExtra(extra, Details(f.size, f.compressed, DosDateTime(f.date, f.time)));
    Item(name, f.flags / 0x800 % 2 == 1, KindOf(f.host, f.external, name), d.size, d.compressed, d.modified,
         f.flags % 2 == 1)
  }

  /** The entry whose header starts at `at`, and where the next one starts. */
  function ReadEntry(d: seq<byte>, at: nat): Option<(Item, nat)> {
    if at + 46 > |d| then None
    else
      var f := ReadFixed(d, at);
      var extraAt := at + 46 + f.nameLength;
      if extraAt + f.extraLength > |d| then None
      else
        Some((ItemOf(f, d[at + 46..extraAt], d[extraAt..extraAt + f.extraLength]),
              extraAt + f.extraLength + f.commentLength))
  }

  // ---- the listing -------------------------------------------------------

  /** At most `limit` entries from `at` on, and whether nothing stopped the reading early. */
  function Scan(d: seq<byte>, at: nat, limit: nat): (r: (seq<Item>, bool))
    ensures |r.0| <= limit
    decreases |d| - at
  {
    if U32At(d, at) != Some(HEADER) then ([], true)
    else if limit == 0 then ([], false)
    else
      match ReadEntry(d, at)
      case None => ([], false)
      case Some((item, next)) =>
        var (more, complete) := Scan(d, next, limit - 1);
        ([item] + more, complete)
  }

  function Listed(entries: seq<Item>, complete: bool, declared: nat, limit: nat): Listing {
    var truncated := !complete || |entries| < declared;
    Listing(entries, truncated,
            if truncated then Some(if limit < declared then EntryLimit else DirectoryLimit) else None)
  }

  function List(d: seq<byte>, declared: nat, limit: nat): Listing {
    var (entries, complete) := Scan(d, 0, limit);
    Listed(entries, complete, declared, limit)
  }

  method ListEntries(d: seq<byte>, declared: nat, limit: nat) returns (r: Listing)
    ensures r == List(d, declared, limit)
  {
    hide ReadEntry, U32At;
    var entries: seq<Item> := [];
    var at := 0;
    var complete := true;
    while U32At(d, at) == Some(HEADER)
      invariant complete && |entries| <= limit
      invariant Scan(d, 0, limit).0 == entries + Scan(d, at, limit - |entries|).0
      invariant Scan(d, 0, limit).1 == Scan(d, at, limit - |entries|).1
      decreases |d| - at
    {
      if |entries| == limit {
        complete := false;
        break;
      }
      var entry := ReadEntry(d, at);
      if entry.None? {
        complete := false;
        break;
      }
      var (item, next) := entry.value;
      NextIsLater(d, at);
      entries := entries + [item];
      at := next;
    }
    return Listed(entries, complete, declared, limit);
  }

  lemma NextIsLater(d: seq<byte>, at: nat)
    requires ReadEntry(d, at).Some?
    ensures at + 46 <= ReadEntry(d, at).value.1 && at < |d|
  {
  }
}
