/** What each key of a filter reads from its value: exactly which values, and as what. */
module FilterMeaning {
  import opened Wrappers
  import opened Text
  import opened Calendar
  import opened FilterLexer
  import opened FilterValues
  import opened FilterPrinter
  import opened FilterRoundTrip
  import opened FilterWords

  // ---- search terms ------------------------------------------------------

  /** A term that is not empty and not only stars. */
  predicate Searches(term: string) {
    exists i :: 0 <= i < |term| && term[i] != '*'
  }

  /** A term without a key, whatever it says, is searched in names and contents. */
  lemma BareTermIsContains(value: string)
    ensures ParseCondition(None, value) ==
            if Searches(Trim(value)) then Ok(Contains(Trim(value))) else Err(InvalidValue("contains"))
  {
    TermsAreRead("contains", value);
  }

  lemma TermsAreRead(key: string, value: string)
    ensures Glob(key, value) == if Searches(Trim(value)) then Ok(Trim(value)) else Err(InvalidValue(key))
  {
    var t := Trim(value);
    if t != "" && !OnlyStars(t) {
      var i :| 0 <= i < |t| && t[i] != '*';
      assert Searches(t);
    }
  }

  /** The four keys that search, each in its own place. */
  lemma SearchKeys(value: string)
    ensures ParseCondition(Some("contains"), value) == ParseCondition(None, value)
    ensures Searches(Trim(value)) ==>
              && ParseCondition(Some("has"), value) == Ok(HasContent(Trim(value)))
              && ParseCondition(Some("name"), value) == Ok(NameMatches(Trim(value)))
              && ParseCondition(Some("location"), value) == Ok(InLocation(Trim(value)))
    ensures !Searches(Trim(value)) ==>
              && ParseCondition(Some("has"), value) == Err(InvalidValue("has"))
              && ParseCondition(Some("name"), value) == Err(InvalidValue("name"))
              && ParseCondition(Some("location"), value) == Err(InvalidValue("location"))
  {
    hide Trim;
    TermsAreRead("has", value);
    TermsAreRead("name", value);
    TermsAreRead("location", value);
  }

  const KEYS: set<string> := {
    "after", "before", "between", "from", "to", "for", "contains", "has", "name", "location",
    "permissions", "permission", "is"
  }

  /** No other key states a condition. */
  lemma UnknownKeys(key: string, value: string)
    ensures key !in KEYS ==> ParseCondition(Some(key), value) == Err(UnknownKey(key))
    ensures ParseCondition(Some(key), value) == Err(UnknownKey(key)) ==> key !in KEYS
  {
    hide ParseDate, ParseBetween, ParseActor, ParsePermission, ParseIs, Glob;
    if key in KEYS && ParseCondition(Some(key), value).Err? {
      ErrorsNameTheKey(key, value);
    }
  }

  lemma ErrorsNameTheKey(key: string, value: string)
    ensures ParseDate(key, value).Err? ==> ParseDate(key, value).error == InvalidValue(key)
    ensures ParseBetween(key, value).Err? ==> ParseBetween(key, value).error == InvalidValue(key)
    ensures ParseActor(key, value).Err? ==> ParseActor(key, value).error == InvalidValue(key)
    ensures ParsePermission(key, value).Err? ==> ParsePermission(key, value).error == InvalidValue(key)
    ensures ParseIs(key, value).Err? ==> ParseIs(key, value).error == InvalidValue(key)
    ensures Glob(key, value).Err? ==> Glob(key, value).error == InvalidValue(key)
  {
    hide ValidDate, NamedIs, KindOf, Trim;
  }

  // ---- dates -------------------------------------------------------------

  /** A date is read exactly from its ten characters, blanks around them aside. */
  lemma DateIsRead(key: string, value: string, d: Date)
    ensures ParseDate(key, value) == Ok(d) <==> ValidDate(d) && Trim(value) == DateText(d)
  {
    hide ValidDate, Trim;
    var t := Trim(value);
    if ParseDate(key, value) == Ok(d) {
      DigitsAreText(t, d);
    }
    if ValidDate(d) && t == DateText(d) {
      TextIsDigits(t, d);
    }
  }

  lemma DigitsAreText(t: string, d: Date)
    requires |t| == 10 && t[2] == '-' && t[5] == '-'
    requires forall i :: 0 <= i < 10 && i != 2 && i != 5 ==> IsDigit(t[i])
    requires d == Date(100 * TwoDigits(t, 6) + TwoDigits(t, 8), TwoDigits(t, 3), TwoDigits(t, 0)) && ValidDate(d)
    ensures t == DateText(d)
  {
    hide ValidDate;
    TwoDigitsAreText(t, 0);
    TwoDigitsAreText(t, 3);
    TwoDigitsAreText(t, 6);
    TwoDigitsAreText(t, 8);
    assert d.year / 100 == TwoDigits(t, 6) && d.year % 100 == TwoDigits(t, 8);
    assert t == t[0..2] + "-" + t[3..5] + "-" + t[6..8] + t[8..10];
  }

  lemma TwoDigitsAreText(t: string, at: nat)
    requires at + 2 <= |t| && IsDigit(t[at]) && IsDigit(t[at + 1])
    ensures TwoDigits(t, at) < 100 && TwoDigitText(TwoDigits(t, at)) == t[at..at + 2]
  {
    var n := TwoDigits(t, at);
    assert n / 10 == DigitValue(t[at]) && n % 10 == DigitValue(t[at + 1]);
  }

  lemma TextIsDigits(t: string, d: Date)
    requires ValidDate(d) && t == DateText(d)
    ensures |t| == 10 && t[2] == '-' && t[5] == '-'
    ensures forall i :: 0 <= i < 10 && i != 2 && i != 5 ==> IsDigit(t[i])
    ensures d == Date(100 * TwoDigits(t, 6) + TwoDigits(t, 8), TwoDigits(t, 3), TwoDigits(t, 0))
  {
  }

  const MONTH_DAYS := [31, 28, 31, 30, 31, 30, 31, 31, 30, 31, 30, 31]

  /** The days of the calendar, from the year 0 to 9999. */
  lemma ValidDatesAreDays(d: Date)
    ensures ValidDate(d) <==>
            && 0 <= d.year <= 9_999 && 1 <= d.month <= 12 && 1 <= d.day
            && d.day <= MONTH_DAYS[d.month - 1] + if d.month == 2 then LeapDays(d.year) - LeapDays(d.year - 1) else 0
  {
    hide LeapDays;
    if 1 <= d.month <= 12 {
      MonthsAlternate(d.year, d.month);
    }
  }

  /** The days, in order. */
  function Day(d: Date): nat
    requires ValidDate(d)
  {
    (d.year * 12 + d.month - 1) * 31 + d.day - 1
  }

  lemma LaterIsLater(a: Date, b: Date)
    requires ValidDate(a) && ValidDate(b)
    ensures Later(a, b) <==> Day(a) > Day(b)
  {
  }

  /** Two dates around the first equals sign, the first no later than the second. */
  lemma BetweenIsRead(key: string, from: string, to: string, first: Date, last: Date)
    requires '=' !in from
    ensures ParseBetween(key, from + "=" + to) == Ok(ChangedBetween(first, last)) <==>
            && ParseDate(key, from) == Ok(first) && ParseDate(key, to) == Ok(last)
            && ValidDate(first) && ValidDate(last) && Day(first) <= Day(last)
  {
    hide ParseDate, ValidDate, Day;
    var value := from + "=" + to;
    assert value == from + ['='] + to;
    IndexOfFirst(from, '=', to);
    assert value[..|from|] == from && value[|from| + 1..] == to;
    DateIsRead(key, from, first);
    DateIsRead(key, to, last);
    if ValidDate(first) && ValidDate(last) {
      LaterIsLater(first, last);
    }
  }

  lemma BetweenNeedsEquals(key: string, value: string)
    requires '=' !in value
    ensures ParseBetween(key, value) == Err(InvalidValue(key))
  {
  }

  // ---- accounts ----------------------------------------------------------

  /** An identifier that no sign of a selector could be mistaken for. */
  predicate PlainSelector(id: string) {
    id != "" && Trimmed(id) && ByteLen(id) <= 255 && id[0] != '@' && id[0] != '{'
  }

  /** The sign and the braces of a selector are each optional. */
  lemma SelectorForms(key: string, id: string)
    requires PlainSelector(id)
    ensures ParseActor(key, id) == Ok(Selector(KindOf(id), id))
    ensures ParseActor(key, "@" + id) == Ok(Selector(KindOf(id), id))
    ensures ParseActor(key, "{" + id + "}") == Ok(Selector(KindOf(id), id))
    ensures ParseActor(key, "@{" + id + "}") == Ok(Selector(KindOf(id), id))
  {
    hide KindOf, ByteLen, TrimBy;
    TightIsKept(id, IsWhitespace);
    var signed, braced := "@" + id, "{" + id + "}";
    TightIsKept(signed, IsWhitespace);
    assert signed[1..] == id;
    TightIsKept(braced, IsWhitespace);
    assert braced[1..|braced| - 1] == id;
    SelectorIsKept(key, Selector(KindOf(id), id));
  }

  /** What the first segment says of the account; without a colon it says nothing. */
  lemma KindIsFirstSegment(segment: string, rest: string)
    requires ':' !in segment
    ensures KindOf(segment + ":" + rest) ==
            if segment == "c" then Some(Carbon) else if segment == "si" then Some(Silicon) else None
    ensures KindOf(segment) == None
  {
    var id := segment + ":" + rest;
    assert id == segment + [':'] + rest;
    IndexOfFirst(segment, ':', rest);
    assert id[..|segment|] == segment;
  }

  // ---- permissions and kinds ---------------------------------------------

  function WordsOfAccess(a: Access): set<string> {
    match a
    case Read => {"read"}
    case Write => {"write"}
    case Update => {"update"}
    case Delete => {"delete"}
    case ManagePermissions => {"manage", "manage_permissions"}
  }

  /** A permission is read exactly from its words, in any letter case. */
  lemma PermissionIsRead(key: string, value: string, a: Access)
    ensures ParsePermission(key, value) == Ok(a) <==> Lower(Trim(value)) in WordsOfAccess(a)
  {
    hide Trim, Lower;
  }

  lemma PermissionKeys(value: string, a: Access)
    ensures ParseCondition(Some("permission"), value) == Ok(HasPermission(a)) <==>
            Lower(Trim(value)) in WordsOfAccess(a)
    ensures ParseCondition(Some("permissions"), value) == Ok(HasPermission(a)) <==>
            Lower(Trim(value)) in WordsOfAccess(a)
  {
    hide ParsePermission, Trim, Lower;
    PermissionIsRead("permission", value, a);
    PermissionIsRead("permissions", value, a);
  }

  function WordsOfRender(r: RenderKind): set<string> {
    match r
    case Image => {"image"}
    case Video => {"video"}
    case Document => {"document"}
    case Spreadsheet => {"spreadsheet"}
    case Presentation => {"presentation"}
    case Audio => {"audio"}
    case Archive => {"archive"}
    case Code => {"code"}
    case Unsupported => {"unsupported"}
  }

  /** The words that say what an entry is; any other is an extension. */
  function WordsOf(c: Condition): set<string> {
    match c
    case IsKind(File) => {"file"}
    case IsKind(Folder) => {"folder", "directory"}
    case IsRender(r) => WordsOfRender(r)
    case IsExpiring => {"expiring"}
    case IsSelfDestruct => {"self-destruct", "self_destruct", "selfdestruct"}
    case _ => {}
  }

  /** An `is:` value without its leading dots, in small letters. */
  function IsWord(value: string): string {
    Lower(TrimStart(Trim(value), c => c == '.'))
  }

  lemma NamedIsRead(word: string, c: Condition)
    ensures NamedIs(word) == Some(c) <==> word in WordsOf(c)
  {
  }

  /** One to sixteen small letters and digits. */
  predicate IsExtension(word: string) {
    1 <= |word| <= 16 && forall i :: 0 <= i < |word| ==> word[i] in LOWER || word[i] in "0123456789"
  }

  lemma ExtensionsArePlausible(raw: string)
    ensures Plausible(Lower(raw)) <==> IsExtension(Lower(raw))
  {
    hide LowerChar;
    var word := Lower(raw);
    forall i | 0 <= i < |word|
      ensures IsAlphanumeric(word[i]) <==> word[i] in LOWER || word[i] in "0123456789"
    {
      SmallOrDigit(raw[i]);
    }
  }

  lemma SmallOrDigit(raw: char)
    ensures var c := LowerChar(raw); IsAlphanumeric(c) <==> c in LOWER || c in "0123456789"
  {
    SmallLetter(LowerChar(raw));
    DecimalDigit(LowerChar(raw));
  }

  lemma SmallLetter(c: char)
    ensures c in LOWER <==> 'a' <= c <= 'z'
  {
    if 'a' <= c <= 'z' {
      assert LOWER[c as int - 'a' as int] == c;
    }
  }

  lemma DecimalDigit(c: char)
    ensures c in "0123456789" <==> IsDigit(c)
  {
    if '0' <= c <= '9' {
      assert "0123456789"[c as int - '0' as int] == c;
    }
  }

  /** `is:` reads its own words as such, and up to sixteen letters and digits as an extension. */
  lemma IsValueIsRead(key: string, value: string, c: Condition)
    ensures ParseIs(key, value) == Ok(c) <==>
            || IsWord(value) in WordsOf(c)
            || (c == HasExtension(IsWord(value)) && NamedIs(IsWord(value)).None? && IsExtension(IsWord(value)))
  {
    hide Trim, Lower, NamedIs, WordsOf, Plausible, IsExtension;
    ExtensionsArePlausible(TrimStart(Trim(value), c => c == '.'));
    NamedIsRead(IsWord(value), c);
    ExtensionsAreNoWords(IsWord(value));
  }

  lemma ExtensionsAreNoWords(word: string)
    ensures forall x: string :: WordsOf(HasExtension(x)) == {}
    ensures NamedIs(word).Some? ==> !NamedIs(word).value.HasExtension?
  {
  }

  // ---- numbers and modifiers ---------------------------------------------

  predicate AllDigits(s: string) {
    forall i :: 0 <= i < |s| ==> IsDigit(s[i])
  }

  function Decimal(s: string): nat
    requires AllDigits(s)
  {
    if s == "" then 0 else 10 * Decimal(s[..|s| - 1]) + DigitValue(s[|s| - 1])
  }

  /** Digits are read exactly up to the largest 16-bit number. */
  lemma {:induction false} DigitsAreRead(s: string, n: nat)
    ensures ParseDigits(s) == Some(n) <==> AllDigits(s) && Decimal(s) == n <= 65_535
    decreases |s|
  {
    if s != "" && IsDigit(s[|s| - 1]) {
      var high := s[..|s| - 1];
      assert AllDigits(s) <==> AllDigits(high);
      if AllDigits(high) {
        DigitsAreRead(high, Decimal(high));
      }
      if ParseDigits(high).Some? {
        DigitsAreRead(high, ParseDigits(high).value);
      }
    }
  }

  /** At least one digit, after a plus sign at most. */
  lemma CountIsRead(s: string, n: nat)
    ensures ParseU16(s) == Some(n) <==>
            var digits := if s != "" && s[0] == '+' then s[1..] else s;
            digits != "" && AllDigits(digits) && Decimal(digits) == n <= 65_535
  {
    hide ParseDigits, Decimal;
    DigitsAreRead(if s != "" && s[0] == '+' then s[1..] else s, n);
  }

  /** What each modifier may say. */
  lemma ModifiersAreRead(key: string, value: string, m: Meaning)
    requires IsModifierKey(key)
    ensures ParseModifier(key, value) == Ok(m) <==>
            || (key == "sort" && m == Order(Newest) && Lower(value) == "newest")
            || (key == "sort" && m == Order(Oldest) && Lower(value) == "oldest")
            || (key == "last" && m.Cap? && m.take.end == Newest && 1 <= m.take.count <= 100
                && ParseU16(value) == Some(m.take.count))
            || (key == "first" && m.Cap? && m.take.end == Oldest && 1 <= m.take.count <= 100
                && ParseU16(value) == Some(m.take.count))
  {
    hide ParseU16, Lower;
  }
}
