/** Permanent addresses: percent-encoded owner and path segments. */
module EntryUrls {
  import opened Wrappers
  import opened Text
  import opened EntryPaths

  // ---- percent-encoding (section 2.1 of RFC 3986) ------------------------

  /** The bytes that stand for themselves in a segment. */
  predicate IsPlain(b: byte) {
    0x20 < b < 0x7f
    && (b as char) !in "\"#%/\\<>?`{}"
  }

  function HexDigit(n: nat): (c: char)
    requires n < 16
    ensures HexValue(c) == Some(n)
  {
    if n < 10 then (n + 48) as char else (n + 55) as char
  }

  function HexValue(c: char): (n: Option<nat>)
    ensures n.Some? ==> n.value < 16
  {
    if '0' <= c <= '9' then Some(c as int - 48)
    else if 'A' <= c <= 'F' then Some(c as int - 55)
    else if 'a' <= c <= 'f' then Some(c as int - 87)
    else None
  }

  /** A hexadecimal digit is read in either letter case, and nothing else is. */
  lemma HexDigitsAreRead(c: char, n: nat)
    ensures HexValue(c) == Some(n) <==> n < 16 && ("0123456789ABCDEF"[n] == c || "0123456789abcdef"[n] == c)
  {
  }

  function EncodeByte(b: byte): string {
    if IsPlain(b) then [b as char] else ['%', HexDigit(b / 16), HexDigit(b % 16)]
  }

  function EncodeBytes(bytes: seq<byte>): string {
    if bytes == [] then "" else EncodeByte(bytes[0]) + EncodeBytes(bytes[1..])
  }

  function EncodeSegment(value: string): string {
    EncodeBytes(Utf8(value))
  }

  /** Reading a segment: `%` and two hexadecimal digits are a byte, any other character is itself. */
  function Decode(s: string): seq<byte> {
    if s == "" then []
    else if s[0] == '%' && |s| >= 3 && HexValue(s[1]).Some? && HexValue(s[2]).Some? then
      [16 * HexValue(s[1]).value + HexValue(s[2]).value] + Decode(s[3..])
    else [(s[0] as int) % 256] + Decode(s[1..])
  }

  lemma DecodeNext(b: byte, rest: string)
    ensures Decode(EncodeByte(b) + rest) == [b] + Decode(rest)
  {
    var s := EncodeByte(b) + rest;
    if IsPlain(b) {
      assert s[1..] == rest;
    } else {
      assert s[3..] == rest;
    }
  }

  lemma {:induction false} DecodeUndoesEncode(bytes: seq<byte>)
    ensures Decode(EncodeBytes(bytes)) == bytes
  {
    hide Decode, EncodeByte;
    if bytes == [] {
      DecodeNothing();
    } else {
      DecodeNext(bytes[0], EncodeBytes(bytes[1..]));
      DecodeUndoesEncode(bytes[1..]);
    }
  }

  lemma DecodeNothing()
    ensures Decode("") == []
  {
  }

  /** Encoding loses nothing: different values have different encodings. */
  lemma EncodingIsInjective(a: string, b: string)
    ensures EncodeSegment(a) == EncodeSegment(b) <==> a == b
  {
    if EncodeSegment(a) == EncodeSegment(b) {
      DecodeUndoesEncode(Utf8(a));
      DecodeUndoesEncode(Utf8(b));
      Utf8IsInjective(a, b);
    }
  }

  /** Nothing that would end a segment, a path or a URL survives encoding. */
  predicate IsClean(s: string) {
    forall i :: 0 <= i < |s| ==> 0x20 < s[i] as int < 0x7f && s[i] !in "\"#/\\<>?`{}"
  }

  lemma {:induction false} EncodedIsClean(bytes: seq<byte>)
    ensures IsClean(EncodeBytes(bytes)) && '/' !in EncodeBytes(bytes)
  {
    if bytes != [] {
      EncodedIsClean(bytes[1..]);
    }
  }

  /** And nothing else is changed. */
  lemma {:induction false} CleanIsKept(s: string)
    requires IsClean(s) && '%' !in s
    ensures EncodeSegment(s) == s
  {
    if s != "" {
      CleanIsKept(s[1..]);
      assert Utf8(s) == [s[0] as int] + Utf8(s[1..]);
      assert Utf8(s)[1..] == Utf8(s[1..]);
    }
  }

  // ---- the address -------------------------------------------------------

  function EncodeAll(segments: seq<string>): (encoded: seq<string>)
    ensures |encoded| == |segments|
    ensures forall i :: 0 <= i < |segments| ==> encoded[i] == EncodeSegment(segments[i])
  {
    if segments == [] then [] else [EncodeSegment(segments[0])] + EncodeAll(segments[1..])
  }

  /** What an address names: the drive's owner, then the path's segments, none for a drive's root. */
  function Named(owner: string, path: EntryPath): seq<string> {
    [owner] + (if path == DRIVE_ROOT then [] else Segments(path))
  }

  function Target(prefix: string, owner: string, path: EntryPath): string {
    "./" + prefix + JoinWith(EncodeAll(Named(owner, path)), '/')
  }

  lemma EncodeAllNext(segments: seq<string>, i: nat)
    requires i < |segments|
    ensures EncodeAll(segments[..i + 1]) == EncodeAll(segments[..i]) + [EncodeSegment(segments[i])]
  {
  }

  /** Appends the encoded segments one by one. */
  method BuildTarget(prefix: string, owner: string, path: EntryPath) returns (target: string)
    ensures target == Target(prefix, owner, path)
  {
    hide EncodeSegment, JoinWith;
    var named := Named(owner, path);
    target := "./" + prefix + EncodeSegment(owner);
    assert EncodeAll(named[..1]) == [EncodeSegment(owner)];
    JoinOne(EncodeSegment(owner));
    if path != DRIVE_ROOT {
      var segments := Segments(path);
      for i := 0 to |segments|
        invariant target == "./" + prefix + JoinWith(EncodeAll(named[..i + 1]), '/')
      {
        EncodeAllNext(named, i + 1);
        JoinNext(EncodeAll(named[..i + 1]), EncodeSegment(segments[i]), '/');
        target := target + "/";
        target := target + EncodeSegment(segments[i]);
      }
    }
    assert named[..|named|] == named;
  }

  lemma JoinOne(piece: string)
    ensures JoinWith([piece], '/') == piece
  {
  }

  /** Splitting an address at the slashes gives back the encoded owner and segments. */
  lemma AddressSplits(prefix: string, owner: string, path: EntryPath)
    ensures var target := Target(prefix, owner, path);
            && |target| >= 2 + |prefix|
            && Split(target[2 + |prefix|..], '/') == EncodeAll(Named(owner, path))
  {
    hide EncodeBytes;
    var named := Named(owner, path);
    var encoded := EncodeAll(named);
    forall i | 0 <= i < |encoded|
      ensures '/' !in encoded[i]
    {
      EncodedIsClean(Utf8(named[i]));
    }
    SplitUndoesJoin(encoded, '/');
    assert Target(prefix, owner, path)[2 + |prefix|..] == JoinWith(encoded, '/');
  }

  /** Splitting and decoding recovers owner and segments, byte for byte. */
  lemma AddressRoundTrip(prefix: string, owner: string, path: EntryPath, i: nat)
    requires i < |Named(owner, path)|
    ensures var pieces := Split(Target(prefix, owner, path)[2 + |prefix|..], '/');
            |pieces| == |Named(owner, path)| && Decode(pieces[i]) == Utf8(Named(owner, path)[i])
  {
    hide EncodeBytes, Decode, Utf8;
    AddressSplits(prefix, owner, path);
    DecodeUndoesEncode(Utf8(Named(owner, path)[i]));
  }

  /** An address names one entry only. */
  lemma AddressIsUnique(prefix: string, owner: string, path: EntryPath, owner': string, path': EntryPath)
    requires IsPath(path) || path == DRIVE_ROOT
    requires IsPath(path') || path' == DRIVE_ROOT
    ensures Target(prefix, owner, path) == Target(prefix, owner', path') <==> owner == owner' && path == path'
  {
    hide EncodeSegment, IsPath;
    if Target(prefix, owner, path) == Target(prefix, owner', path') {
      AddressSplits(prefix, owner, path);
      AddressSplits(prefix, owner', path');
      var a, b := Named(owner, path), Named(owner', path');
      forall i | 0 <= i < |a|
        ensures a[i] == b[i]
      {
        EncodingIsInjective(a[i], b[i]);
      }
      assert a[1..] == b[1..];
      JoinUndoesSplit(path.text, '/');
      JoinUndoesSplit(path'.text, '/');
    }
  }

  // ---- dot segments (section 5.2.4 of RFC 3986) --------------------------

  predicate IsDot(piece: string) {
    piece == "." || piece == ".."
  }

  predicate NoDots(pieces: seq<string>) {
    forall i :: 0 <= i < |pieces| ==> !IsDot(pieces[i])
  }

  lemma DotsEncodeThemselves()
    ensures EncodeSegment(".") == "." && EncodeSegment("..") == ".."
  {
    assert "."[1..] == "" && ".."[1..] == ".";
    assert Utf8(".") == [0x2e] && Utf8("..") == [0x2e, 0x2e];
    assert [0x2e as byte][1..] == [] && [0x2e as byte, 0x2e][1..] == [0x2e];
    assert EncodeBytes([0x2e]) == ".";
  }

  /** A piece of an address is a dot segment exactly when its value is one. */
  lemma DotIff(value: string)
    ensures IsDot(EncodeSegment(value)) <==> IsDot(value)
  {
    hide EncodeSegment;
    DotsEncodeThemselves();
    EncodingIsInjective(value, ".");
    EncodingIsInjective(value, "..");
  }

  /** So only an owner that is itself a dot segment could put one into an address. */
  lemma AddressHasNoDots(owner: string, path: EntryPath)
    requires IsPath(path) || path == DRIVE_ROOT
    ensures NoDots(EncodeAll(Named(owner, path))) <==> !IsDot(owner)
  {
    hide EncodeSegment;
    var named := Named(owner, path);
    assert EncodeAll(named)[0] == EncodeSegment(owner);
    DotIff(owner);
    forall i | 1 <= i < |named|
      ensures !IsDot(EncodeAll(named)[i])
    {
      assert named[i] == Segments(path)[i - 1];
      assert IsName(named[i]);
      DotIff(named[i]);
    }
  }

  /** Removing dot segments: `.` is dropped, `..` drops what precedes it; at the end both leave a slash. */
  function RemoveDots(output: seq<string>, input: seq<string>): seq<string>
    decreases |input|
  {
    if input == [] then output
    else if IsDot(input[0]) then
      var kept := if input[0] == ".." && output != [] then output[..|output| - 1] else output;
      if |input| == 1 then kept + [""] else RemoveDots(kept, input[1..])
    else RemoveDots(output + [input[0]], input[1..])
  }

  lemma {:induction false} NothingToRemove(output: seq<string>, input: seq<string>)
    requires NoDots(input)
    ensures RemoveDots(output, input) == output + input
    decreases |input|
  {
    if input == [] {
      assert output + [] == output;
    } else {
      assert NoDots(input[1..]);
      NothingToRemove(output + [input[0]], input[1..]);
      assert output + [input[0]] + input[1..] == output + input;
    }
  }

  /** A double dot removes the segment before it, a single dot only itself; a last one leaves a slash. */
  lemma {:induction false} DotsAreRemoved(output: seq<string>, before: seq<string>, x: string, after: seq<string>)
    requires NoDots(before) && !IsDot(x)
    ensures RemoveDots(output, before + [x, ".."] + after) ==
            RemoveDots(output + before, if after == [] then [""] else after)
    ensures RemoveDots(output, before + ["."] + after) ==
            RemoveDots(output + before, if after == [] then [""] else after)
    decreases |before|
  {
    var double, single := before + [x, ".."] + after, before + ["."] + after;
    if before == [] {
      assert output + [] == output;
      assert double[1..] == [".."] + after && double[1..][1..] == after && single[1..] == after;
      assert (output + [x])[..|output + [x]| - 1] == output;
      assert RemoveDots(output, double) == RemoveDots(output + [x], double[1..]);
      assert !IsDot("") && [""][1..] == [];
      assert RemoveDots(output, [""]) == output + [""];
    } else {
      assert double[1..] == before[1..] + [x, ".."] + after && single[1..] == before[1..] + ["."] + after;
      assert NoDots(before[1..]) && !IsDot(before[0]);
      DotsAreRemoved(output + [before[0]], before[1..], x, after);
      assert output + [before[0]] + before[1..] == output + before;
    }
  }

  /** Resolving a relative reference against a base directory, segment by segment. */
  function Resolve(base: seq<string>, reference: string): seq<string> {
    RemoveDots([], base + Split(reference, '/'))
  }

  /** The words of a prefix, each followed by a slash: `paths/`, `public/` or nothing. */
  function PrefixText(words: seq<string>): string {
    if words == [] then "" else words[0] + "/" + PrefixText(words[1..])
  }

  lemma {:induction false} PrefixSplits(words: seq<string>, rest: string)
    requires Without(words, '/')
    ensures Split(PrefixText(words) + rest, '/') == words + Split(rest, '/')
  {
    hide Split;
    if words == [] {
      assert "" + rest == rest;
    } else {
      var tail := PrefixText(words[1..]) + rest;
      PrefixSplits(words[1..], rest);
      SplitFirst(words[0], '/', tail);
      assert PrefixText(words) + rest == words[0] + ['/'] + tail;
    }
  }

  lemma TargetSplits(words: seq<string>, owner: string, path: EntryPath)
    requires Without(words, '/')
    ensures Split(Target(PrefixText(words), owner, path), '/') == ["."] + (words + EncodeAll(Named(owner, path)))
  {
    hide Split, EncodeAll, JoinWith, PrefixText, Named;
    var prefix, text := PrefixText(words), JoinWith(EncodeAll(Named(owner, path)), '/');
    AddressSplits(prefix, owner, path);
    assert Target(prefix, owner, path)[2 + |prefix|..] == text;
    assert Target(prefix, owner, path) == "." + ['/'] + (prefix + text);
    SplitFirst(".", '/', prefix + text);
    PrefixSplits(words, text);
  }

  /**
   * Resolved against the base, the address stays below it: the base's segments, the
   * prefix's, then exactly the encoded owner and path.
   */
  lemma AddressResolves(base: seq<string>, words: seq<string>, owner: string, path: EntryPath)
    requires NoDots(base) && NoDots(words) && Without(words, '/') && !IsDot(owner)
    requires IsPath(path) || path == DRIVE_ROOT
    ensures Resolve(base, Target(PrefixText(words), owner, path)) == base + words + EncodeAll(Named(owner, path))
  {
    hide RemoveDots, EncodeAll, IsPath, Target, PrefixText, IsDot, Split;
    var encoded := EncodeAll(Named(owner, path));
    AddressHasNoDots(owner, path);
    TargetSplits(words, owner, path);
    FirstDot(base, words + encoded);
    assert base + (words + encoded) == base + words + encoded;
  }

  lemma FirstDot(base: seq<string>, tail: seq<string>)
    requires NoDots(base) && NoDots(tail) && tail != []
    ensures RemoveDots([], base + (["."] + tail)) == base + tail
  {
    RemoveAppend([], base, ["."] + tail);
    NothingToRemove([], base);
    assert [] + base == base;
    assert (["."] + tail)[1..] == tail;
    NothingToRemove(base, tail);
  }

  lemma {:induction false} RemoveAppend(output: seq<string>, a: seq<string>, b: seq<string>)
    requires NoDots(a)
    ensures RemoveDots(output, a + b) == RemoveDots(output + a, b)
    decreases |a|
  {
    if a == [] {
      assert a + b == b && output + [] == output;
    } else {
      assert (a + b)[1..] == a[1..] + b;
      assert NoDots(a[1..]);
      RemoveAppend(output + [a[0]], a[1..], b);
      assert output + [a[0]] + a[1..] == output + a;
    }
  }
}
