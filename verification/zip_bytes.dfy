/** Little-endian records: reading a number at an offset, and writing a table of fields. */
module ZipBytes {
  import opened Text
  import opened Wrappers

  const U16_MAX := 0xffff
  const U32_MAX := 0xffff_ffff

  /** 256 to the power `width`. */
  function Span(width: nat): (r: nat)
    ensures r >= 1
  {
    if width == 0 then 1 else 256 * Span(width - 1)
  }

  /** The number written least significant byte first. */
  function Value(bytes: seq<byte>): nat {
    if bytes == [] then 0 else bytes[0] + 256 * Value(bytes[1..])
  }

  function Little(n: nat, width: nat): (bytes: seq<byte>)
    ensures |bytes| == width
  {
    if width == 0 then [] else [n % 256] + Little(n / 256, width - 1)
  }

  lemma {:induction false} LittleRoundTrip(n: nat, width: nat)
    requires n < Span(width)
    ensures Value(Little(n, width)) == n
  {
    if width > 0 {
      LittleRoundTrip(n / 256, width - 1);
      assert Little(n, width)[1..] == Little(n / 256, width - 1);
    }
  }

  lemma {:induction false} ValueFits(bytes: seq<byte>)
    ensures Value(bytes) < Span(|bytes|)
  {
    if bytes != [] {
      ValueFits(bytes[1..]);
    }
  }

  lemma Spans()
    ensures Span(2) == 0x1_0000 && Span(4) == 0x1_0000_0000 && Span(8) == 0x1_0000_0000_0000_0000
  {
    assert Span(3) == 0x100_0000;
    assert Span(4) == 0x1_0000_0000;
    assert Span(6) == 0x1_0000_0000_0000;
  }

  lemma TwoBytes(bytes: seq<byte>)
    requires |bytes| == 2
    ensures Value(bytes) == bytes[0] as int + 256 * bytes[1] as int
  {
    assert Value(bytes[1..]) == bytes[1] + 256 * Value(bytes[1..][1..]);
  }

  lemma FourBytes(bytes: seq<byte>)
    requires |bytes| == 4
    ensures Value(bytes) ==
              bytes[0] as int + 256 * bytes[1] as int + 0x1_0000 * bytes[2] as int + 0x100_0000 * bytes[3] as int
  {
    TwoBytes(bytes[2..]);
    assert Value(bytes[1..]) == bytes[1] + 256 * Value(bytes[2..]) by {
      assert bytes[1..][1..] == bytes[2..];
    }
  }

  /** A number of `width` bytes at `at`, if the bytes are there. */
  function NumberAt(bytes: seq<byte>, at: nat, width: nat): Option<nat> {
    if at + width <= |bytes| then Some(Value(bytes[at..at + width])) else None
  }

  function U16At(bytes: seq<byte>, at: nat): (r: Option<nat>)
    ensures r.Some? <==> at + 2 <= |bytes|
    ensures r.Some? ==> r.value <= U16_MAX
  {
    if at + 2 <= |bytes| then ValueFits(bytes[at..at + 2]); Spans(); NumberAt(bytes, at, 2) else None
  }

  function U32At(bytes: seq<byte>, at: nat): (r: Option<nat>)
    ensures r.Some? <==> at + 4 <= |bytes|
    ensures r.Some? ==> r.value <= U32_MAX
  {
    if at + 4 <= |bytes| then ValueFits(bytes[at..at + 4]); Spans(); NumberAt(bytes, at, 4) else None
  }

  function U64At(bytes: seq<byte>, at: nat): Option<nat> {
    NumberAt(bytes, at, 8)
  }

  /** A longer string holds the same numbers. */
  lemma NumberAtPrefix(a: seq<byte>, b: seq<byte>, at: nat, width: nat)
    requires at + width <= |a|
    ensures NumberAt(a + b, at, width) == NumberAt(a, at, width)
  {
    assert (a + b)[at..at + width] == a[at..at + width];
  }

  lemma NumberAtSuffix(a: seq<byte>, b: seq<byte>, at: nat, width: nat)
    ensures NumberAt(a + b, |a| + at, width) == NumberAt(b, at, width)
  {
    if at + width <= |b| {
      assert (a + b)[|a| + at..|a| + at + width] == b[at..at + width];
    }
  }

  // ---- tables of fields --------------------------------------------------

  datatype Field = Field(value: nat, width: nat)

  predicate Fits(fields: seq<Field>) {
    forall i :: 0 <= i < |fields| ==> fields[i].value < Span(fields[i].width)
  }

  function Width(fields: seq<Field>): nat {
    if fields == [] then 0 else fields[0].width + Width(fields[1..])
  }

  function Pack(fields: seq<Field>): (bytes: seq<byte>)
    ensures |bytes| == Width(fields)
  {
    if fields == [] then [] else Little(fields[0].value, fields[0].width) + Pack(fields[1..])
  }

  /** Where field `i` begins. */
  function Offset(fields: seq<Field>, i: nat): nat
    requires i < |fields|
  {
    if i == 0 then 0 else fields[0].width + Offset(fields[1..], i - 1)
  }

  /** Reading a packed field gives its value, whatever follows the table. */
  lemma {:induction false} PackedField(fields: seq<Field>, i: nat, rest: seq<byte>)
    requires i < |fields| && Fits(fields)
    ensures NumberAt(Pack(fields) + rest, Offset(fields, i), fields[i].width) == Some(fields[i].value)
  {
    var first := Little(fields[0].value, fields[0].width);
    var tail := Pack(fields[1..]) + rest;
    assert Pack(fields) + rest == first + tail;
    if i == 0 {
      LittleRoundTrip(fields[0].value, fields[0].width);
      assert (first + tail)[0..fields[0].width] == first;
    } else {
      PackedField(fields[1..], i - 1, rest);
      NumberAtSuffix(first, tail, Offset(fields[1..], i - 1), fields[i].width);
    }
  }

  lemma OffsetNext(fields: seq<Field>, i: nat)
    requires i + 1 < |fields|
    ensures Offset(fields, i + 1) == Offset(fields, i) + fields[i].width
  {
    if i > 0 {
      OffsetNext(fields[1..], i - 1);
    }
  }

  lemma {:induction false} WidthByOffset(fields: seq<Field>)
    requires fields != []
    ensures Width(fields) == Offset(fields, |fields| - 1) + fields[|fields| - 1].width
  {
    if |fields| > 1 {
      WidthByOffset(fields[1..]);
    }
  }
}
