/** Strings as the program uses them: whitespace, trimming, ASCII case and UTF-8. */
module Text {
  type byte = b: int | 0 <= b < 256

  /** The Unicode White_Space property. */
  predicate IsWhitespace(c: char) {
    var n := c as int;
    || 0x09 <= n <= 0x0d
    || n == 0x20 || n == 0x85 || n == 0xa0 || n == 0x1680
    || 0x2000 <= n <= 0x200a
    || n == 0x2028 || n == 0x2029 || n == 0x202f || n == 0x205f || n == 0x3000
  }

  /** The 25 characters that have the property. */
  const WHITE_SPACE := [
    0x09, 0x0a, 0x0b, 0x0c, 0x0d, 0x20, 0x85, 0xa0, 0x1680,
    0x2000, 0x2001, 0x2002, 0x2003, 0x2004, 0x2005, 0x2006, 0x2007, 0x2008, 0x2009, 0x200a,
    0x2028, 0x2029, 0x202f, 0x205f, 0x3000]

  lemma WhitespaceIsListed(c: char)
    ensures IsWhitespace(c) <==> c as int in WHITE_SPACE
  {
    var n := c as int;
    if 0x09 <= n <= 0x0d {
      assert WHITE_SPACE[n - 0x09] == n;
    } else if 0x2000 <= n <= 0x200a {
      assert WHITE_SPACE[n - 0x2000 + 9] == n;
    } else {
      assert WHITE_SPACE[5] == 0x20 && WHITE_SPACE[6] == 0x85 && WHITE_SPACE[7] == 0xa0 && WHITE_SPACE[8] == 0x1680;
      assert WHITE_SPACE[20] == 0x2028 && WHITE_SPACE[21] == 0x2029 && WHITE_SPACE[22] == 0x202f;
      assert WHITE_SPACE[23] == 0x205f && WHITE_SPACE[24] == 0x3000;
    }
  }

  predicate IsDigit(c: char) {
    '0' <= c <= '9'
  }

  predicate IsAlphanumeric(c: char) {
    IsDigit(c) || 'a' <= c <= 'z' || 'A' <= c <= 'Z'
  }

  function LowerChar(c: char): char {
    if 'A' <= c <= 'Z' then (c as int + 32) as char else c
  }

  /** ASCII lower case; every other character is kept. */
  function Lower(s: string): (r: string)
    ensures |r| == |s|
    ensures forall i :: 0 <= i < |s| ==> r[i] == LowerChar(s[i])
  {
    if s == "" then "" else [LowerChar(s[0])] + Lower(s[1..])
  }

  function TrimStart(s: string, drop: char -> bool): string {
    if s != "" && drop(s[0]) then TrimStart(s[1..], drop) else s
  }

  function TrimEnd(s: string, drop: char -> bool): string {
    if s != "" && drop(s[|s| - 1]) then TrimEnd(s[..|s| - 1], drop) else s
  }

  function TrimBy(s: string, drop: char -> bool): string {
    TrimEnd(TrimStart(s, drop), drop)
  }

  function Trim(s: string): string {
    TrimBy(s, IsWhitespace)
  }

  /** Nothing at either end that `drop` would remove. */
  predicate Tight(s: string, drop: char -> bool) {
    s == "" || (!drop(s[0]) && !drop(s[|s| - 1]))
  }

  predicate Trimmed(s: string) {
    Tight(s, IsWhitespace)
  }

  lemma TightIsKept(s: string, drop: char -> bool)
    requires Tight(s, drop)
    ensures TrimBy(s, drop) == s
  {
  }

  lemma {:induction false} TrimStartIsTight(s: string, drop: char -> bool)
    ensures var r := TrimStart(s, drop); (r != "" ==> !drop(r[0])) && |r| <= |s| && r == s[|s| - |r|..]
  {
    if s != "" && drop(s[0]) {
      TrimStartIsTight(s[1..], drop);
    }
  }

  lemma {:induction false} TrimEndIsTight(s: string, drop: char -> bool)
    ensures var r := TrimEnd(s, drop); (r != "" ==> !drop(r[|r| - 1])) && |r| <= |s| && r == s[..|r|]
  {
    if s != "" && drop(s[|s| - 1]) {
      TrimEndIsTight(s[..|s| - 1], drop);
    }
  }

  lemma TrimIsTight(s: string, drop: char -> bool)
    ensures Tight(TrimBy(s, drop), drop)
  {
    TrimStartIsTight(s, drop);
    TrimEndIsTight(TrimStart(s, drop), drop);
  }

  /** Nothing but what `drop` removes. */
  predicate AllOf(s: string, drop: char -> bool) {
    forall i :: 0 <= i < |s| ==> drop(s[i])
  }

  lemma {:induction false} TrimStartMeans(before: string, rest: string, drop: char -> bool)
    requires AllOf(before, drop) && (rest != "" ==> !drop(rest[0]))
    ensures TrimStart(before + rest, drop) == rest
  {
    if before == "" {
      assert before + rest == rest;
    } else {
      assert (before + rest)[1..] == before[1..] + rest;
      TrimStartMeans(before[1..], rest, drop);
    }
  }

  lemma {:induction false} TrimEndMeans(rest: string, after: string, drop: char -> bool)
    requires AllOf(after, drop) && (rest != "" ==> !drop(rest[|rest| - 1]))
    ensures TrimEnd(rest + after, drop) == rest
    decreases |after|
  {
    if after == "" {
      assert rest + after == rest;
    } else {
      var last := |after| - 1;
      assert (rest + after)[..|rest + after| - 1] == rest + after[..last];
      TrimEndMeans(rest, after[..last], drop);
    }
  }

  /** Trimming removes exactly what is around a text that has nothing to remove at its ends. */
  lemma TrimMeans(before: string, s: string, after: string, drop: char -> bool)
    requires AllOf(before, drop) && AllOf(after, drop) && Tight(s, drop)
    ensures TrimBy(before + s + after, drop) == s
  {
    if s == "" {
      assert before + s + after == (before + after) + "";
      TrimStartMeans(before + after, "", drop);
    } else {
      assert before + s + after == before + (s + after);
      TrimStartMeans(before, s + after, drop);
      TrimEndMeans(s, after, drop);
    }
  }

  /** Every text is its trimmed part between what trimming removes. */
  lemma TrimParts(s: string, drop: char -> bool) returns (before: string, after: string)
    ensures s == before + TrimBy(s, drop) + after && AllOf(before, drop) && AllOf(after, drop)
    ensures Tight(TrimBy(s, drop), drop)
  {
    TrimIsTight(s, drop);
    var rest := TrimStart(s, drop);
    before := StartRemoved(s, drop);
    after := EndRemoved(rest, drop);
  }

  lemma {:induction false} StartRemoved(s: string, drop: char -> bool) returns (before: string)
    ensures s == before + TrimStart(s, drop) && AllOf(before, drop)
  {
    if s != "" && drop(s[0]) {
      var more := StartRemoved(s[1..], drop);
      before := [s[0]] + more;
    } else {
      before := "";
    }
  }

  lemma {:induction false} EndRemoved(s: string, drop: char -> bool) returns (after: string)
    ensures s == TrimEnd(s, drop) + after && AllOf(after, drop)
  {
    if s != "" && drop(s[|s| - 1]) {
      var more := EndRemoved(s[..|s| - 1], drop);
      after := more + [s[|s| - 1]];
    } else {
      after := "";
    }
  }

  /** More of it around a text makes no difference. */
  lemma TrimAround(before: string, s: string, after: string, drop: char -> bool)
    requires AllOf(before, drop) && AllOf(after, drop)
    ensures TrimBy(before + s + after, drop) == TrimBy(s, drop)
  {
    var b, a := TrimParts(s, drop);
    var core := TrimBy(s, drop);
    assert before + s + after == (before + b) + core + (a + after);
    TrimMeans(before + b, core, a + after, drop);
  }

  /** The position of the first `c`, or the length when there is none. */
  function IndexOf(s: string, c: char): (i: nat)
    ensures i <= |s|
    ensures i < |s| ==> s[i] == c
    ensures c !in s[..i]
  {
    if s == "" || s[0] == c then 0
    else
      var rest := IndexOf(s[1..], c);
      assert s[..1 + rest] == [s[0]] + s[1..][..rest];
      1 + rest
  }

  lemma IndexOfFirst(before: string, c: char, after: string)
    requires c !in before
    ensures IndexOf(before + [c] + after, c) == |before|
  {
    var s := before + [c] + after;
    assert s[|before|] == c && s[..|before|] == before;
  }

  // ---- UTF-8 -------------------------------------------------------------

  /** The UTF-8 encoding of one character. */
  function EncodeChar(c: char): (bytes: seq<byte>)
    ensures 1 <= |bytes| <= 4
  {
    var n := c as int;
    var m := n / 64;
    if n < 0x80 then [n]
    else if n < 0x800 then [0xc0 + m, 0x80 + n % 64]
    else if n < 0x1_0000 then [0xe0 + m / 64, 0x80 + m % 64, 0x80 + n % 64]
    else [0xf0 + m / 64 / 64, 0x80 + m / 64 % 64, 0x80 + m % 64, 0x80 + n % 64]
  }

  function Utf8(s: string): seq<byte> {
    if s == "" then [] else EncodeChar(s[0]) + Utf8(s[1..])
  }

  /** A text's length in bytes, which is what the limits count. */
  function ByteLen(s: string): nat {
    |Utf8(s)|
  }

  lemma {:induction false} Utf8Append(a: string, b: string)
    ensures Utf8(a + b) == Utf8(a) + Utf8(b)
  {
    if a == "" {
      assert a + b == b;
    } else {
      assert (a + b)[1..] == a[1..] + b;
      Utf8Append(a[1..], b);
    }
  }

  /** The number of bytes announced by a leading byte. */
  function Announced(lead: byte): nat {
    if lead < 0x80 then 1 else if lead < 0xe0 then 2 else if lead < 0xf0 then 3 else 4
  }

  lemma Base64Digits(m: nat, n: nat)
    ensures m == n <==> m / 64 == n / 64 && m % 64 == n % 64
  {
  }

  lemma EncodeCharIsInjective(c: char, d: char)
    requires EncodeChar(c) == EncodeChar(d)
    ensures c == d
  {
    var m, n := c as int, d as int;
    assert |EncodeChar(c)| == |EncodeChar(d)|;
    Base64Digits(m, n);
    Base64Digits(m / 64, n / 64);
    Base64Digits(m / 64 / 64, n / 64 / 64);
  }

  /** Different strings never share an encoding. */
  lemma {:induction false} Utf8IsInjective(a: string, b: string)
    requires Utf8(a) == Utf8(b)
    ensures a == b
  {
    if a == "" || b == "" {
    } else {
      var x, y := EncodeChar(a[0]), EncodeChar(b[0]);
      assert Utf8(a)[0] == x[0] == y[0];
      assert |x| == Announced(x[0]) && |y| == Announced(y[0]);
      assert x == Utf8(a)[..|x|] && y == Utf8(b)[..|y|];
      EncodeCharIsInjective(a[0], b[0]);
      assert Utf8(a[1..]) == Utf8(a)[|x|..] && Utf8(b[1..]) == Utf8(b)[|y|..];
      Utf8IsInjective(a[1..], b[1..]);
    }
  }

  // ---- decimal numbers ---------------------------------------------------

  function DigitChar(d: nat): (c: char)
    requires d < 10
    ensures IsDigit(c) && DigitValue(c) == d
  {
    (d + 48) as char
  }

  function DigitValue(c: char): nat
    requires IsDigit(c)
  {
    c as int - 48
  }
}
