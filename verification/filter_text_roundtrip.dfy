/** Parsing the printed text of a query gives the query back. */
module FilterTextRoundTrip {
  import opened Wrappers
  import opened Text
  import opened FilterLexer
  import opened FilterValues
  import opened FilterParser
  import opened FilterStructure
  import opened FilterPrinter
  import opened FilterRoundTrip

  // ---- result modifiers --------------------------------------------------

  lemma {:induction false} CountIsKept(n: nat)
    requires n <= 65_535
    ensures ParseDigits(NatText(n)) == Some(n)
    ensures NatText(n) != "" && forall i :: 0 <= i < |NatText(n)| ==> IsDigit(NatText(n)[i])
  {
    if n >= 10 {
      CountIsKept(n / 10);
      var t := NatText(n);
      assert t[..|t| - 1] == NatText(n / 10);
    } else {
      assert NatText(n)[..0] == "";
    }
  }

  lemma TakeIsKept(t: Take)
    requires 1 <= t.count <= MAX_FILTER_TAKE
    ensures ParseModifier(TakeKey(t), NatText(t.count)) == Ok(Cap(t))
  {
    CountIsKept(t.count);
  }

  lemma SortIsKept(s: SortOrder)
    ensures ParseModifier("sort", SortText(s)) == Ok(Order(s))
  {
    LowerWordIsKept(SortText(s));
  }

  function AfterModifiers(q: Query): Progress {
    Progress(|ModifierTokens(q)|, 0, Some(q.sort), q.take)
  }

  /** A modifier leaves no expression behind, so the conditions are those after it. */
  lemma ModifierIsSkipped(ts: seq<Token>, p: Progress, key: string, value: string, q: Progress)
    requires At(ts, p, Term(Some(key), value)) && IsModifierKey(key)
    requires ReadTerm(Moved(p), Some(key), value, true) == Ok(Parsed(q, None)) && q.position == p.position + 1
    ensures Conditions(ts, p, true) == Conditions(ts, q, true)
  {
    hide ReadTerm;
    assert Unary(ts, p, true) == Ok(Parsed(q, None));
    BehindLaws([], [], Conditions(ts, q, true));
  }

  lemma ModifiersAreSkipped(q: Query, ts: seq<Token>)
    requires PrintableQuery(q) && ModifierTokens(q) <= ts
    ensures Conditions(ts, START, true) == Conditions(ts, AfterModifiers(q), true)
  {
    hide Conditions, ParseModifier, NatText, SortText;
    SortIsKept(q.sort);
    var p := Progress(1, 0, Some(q.sort), None);
    assert ts[0] == ModifierTokens(q)[0];
    ModifierIsSkipped(ts, START, "sort", SortText(q.sort), p);
    if q.take.Some? {
      TakeIsKept(q.take.value);
      assert ts[1] == ModifierTokens(q)[1];
      ModifierIsSkipped(ts, p, TakeKey(q.take.value), NatText(q.take.value.count), AfterModifiers(q));
    }
  }

  lemma SameConditions(ts: seq<Token>, p: Progress, q: Progress, top: bool)
    requires p.position <= |ts| && q.position <= |ts| && Conditions(ts, p, top) == Conditions(ts, q, top)
    ensures Alternatives(ts, p, top) == Alternatives(ts, q, top)
  {
    hide Conditions;
    assert Branch(ts, p, top) == Branch(ts, q, top);
  }

  /** At the level of tokens: parsing the printed tokens gives the query back. */
  lemma TokensRoundTrip(q: Query)
    requires PrintableQuery(q)
    ensures ParseTokens(QueryTokens(q)) == Ok(q)
  {
    hide Alternatives, Conditions, Printable, AnyTokens, Leaves;
    var ts, p := QueryTokens(q), AfterModifiers(q);
    ModifiersAreSkipped(q, ts);
    SameConditions(ts, START, p, true);
    match q.expression
    case Some(e) =>
      assert ts[p.position..p.position + |AnyTokens(e)|] == AnyTokens(e);
      AnyParses(e, ts, p, true);
    case None =>
      NothingParses(ts, p);
  }

  lemma NothingParses(ts: seq<Token>, p: Progress)
    requires p.position == |ts|
    ensures Alternatives(ts, p, true) == Ok(Parsed(p, None))
  {
    assert Conditions(ts, p, true) == Ok(Parsed(p, []));
    assert Branch(ts, p, true) == Ok(Parsed(p, None));
    assert Branches(ts, p, true) == Ok(Parsed(p, []));
  }

  // ---- words -------------------------------------------------------------

  predicate PlainWord(s: string) {
    forall i :: 0 <= i < |s| ==> !EndsWord(s[i]) && !IsQuote(s[i])
  }

  /** What may follow a printed word. */
  predicate Delimited(rest: string) {
    rest == "" || EndsWord(rest[0])
  }

  lemma {:induction false} ScanPlain(a: string, rest: string)
    requires PlainWord(a)
    ensures WordScan(a + rest, None) == (|a| + WordScan(rest, None).0, WordScan(rest, None).1)
  {
    if a == "" {
      assert a + rest == rest;
    } else {
      assert (a + rest)[1..] == a[1..] + rest;
      ScanPlain(a[1..], rest);
    }
  }

  lemma {:induction false} ScanQuoted(a: string, quote: char, rest: string)
    requires quote !in a
    ensures WordScan(a + [quote] + rest, Some(quote)) ==
            (|a| + 1 + WordScan(rest, None).0, WordScan(rest, None).1)
  {
    var s := a + [quote] + rest;
    if a == "" {
      assert s[1..] == rest;
    } else {
      assert s[1..] == a[1..] + [quote] + rest;
      ScanQuoted(a[1..], quote, rest);
    }
  }

  lemma WordScans(key: string, value: string, rest: string)
    requires LowerWord(key) && Quotable(value) && Delimited(rest)
    ensures WordScan((WordText(key, value) + rest)[1..], None) == (|WordText(key, value)| - 1, None)
  {
    var quote := QuoteFor(value);
    var body := value + [quote] + rest;
    var head := key[1..] + ":";
    hide Quotable, WordScan;
    var whole := key + (":" + ([quote] + body));
    assert WordText(key, value) + rest == whole;
    assert whole[1..] == key[1..] + (":" + ([quote] + body));
    assert whole[1..] == head + ([quote] + body);
    ScanPlain(head, [quote] + body);
    assert ([quote] + body)[1..] == body;
    QuoteIsAbsent(value);
    ScanQuoted(value, quote, rest);
    ScanOpens(quote, body);
    ScanStops(rest);
  }

  lemma QuoteIsAbsent(value: string)
    requires Quotable(value)
    ensures QuoteFor(value) !in value
  {
  }

  lemma ScanOpens(quote: char, body: string)
    requires IsQuote(quote)
    ensures WordScan([quote] + body, None) == (1 + WordScan(body, Some(quote)).0, WordScan(body, Some(quote)).1)
  {
    assert ([quote] + body)[1..] == body;
  }

  lemma ScanStops(rest: string)
    requires Delimited(rest)
    ensures WordScan(rest, None) == (0, None)
  {
  }

  lemma QuotedIsUnquoted(value: string, quote: char)
    requires IsQuote(quote)
    ensures Unquote([quote] + value + [quote]) == value
  {
    var quoted := [quote] + value + [quote];
    TightIsKept(quoted, IsWhitespace);
    assert quoted[1..|quoted| - 1] == value;
  }

  lemma WordIsTerm(key: string, value: string)
    requires LowerWord(key) && ':' !in key
    ensures WordToken(WordText(key, value)) == Term(Some(key), value)
  {
    hide Unquote, LowerWord, Trim, TrimStart, IndexOf;
    var raw := WordText(key, value);
    var quoted := [QuoteFor(value)] + value + [QuoteFor(value)];
    assert raw == key + [':'] + quoted;
    IndexOfFirst(key, ':', quoted);
    LowerWordIsKept(key);
    assert key != "" by { LowerWordStart(key); }
    assert raw[..|key|] == key && raw[|key| + 1..] == quoted;
    QuotedIsUnquoted(value, QuoteFor(value));
    assert Lower(raw)[|key|] == LowerChar(raw[|key|]) == ':';
  }

  lemma LowerWordStart(s: string)
    requires LowerWord(s)
    ensures s != ""
  {
  }

  /** Reading one word: the scan says where it ends. */
  lemma WordStep(s: string, n: nat)
    requires s != "" && ('a' <= s[0] <= 'z' || IsDigit(s[0]))
    requires n < |s| && WordScan(s[1..], None) == (n, None)
    ensures Lex(s) == Prepend([WordToken(s[..1 + n])], Lex(s[1 + n..]))
  {
    hide WordToken, WordScan;
  }

  lemma WordLexes(key: string, value: string, rest: string)
    requires LowerWord(key) && key[0] != '-' && ':' !in key && Quotable(value) && Delimited(rest)
    ensures Lex(WordText(key, value) + rest) == Prepend([Term(Some(key), value)], Lex(rest))
  {
    hide WordToken, WordScan, Lex, Quotable;
    var raw := WordText(key, value);
    var s := raw + rest;
    WordScans(key, value, rest);
    WordIsTerm(key, value);
    assert s[0] == key[0];
    WordStep(s, |raw| - 1);
    assert s[..|raw|] == raw && s[|raw|..] == rest;
  }

  /** Passing a single-character token. */
  lemma MarkLexes(mark: char, token: Token, rest: string)
    requires (mark == '(' && token == Open) || (mark == ')' && token == Close) || (mark == '-' && token == Token.Not)
    ensures Lex([mark] + rest) == Prepend([token], Lex(rest))
  {
    assert ([mark] + rest)[1..] == rest;
  }

  lemma SpaceLexes(rest: string)
    ensures Lex(" " + rest) == Lex(rest)
  {
    assert (" " + rest)[1..] == rest;
  }

  lemma OrScans(rest: string)
    ensures WordScan("r" + (" " + rest), None) == (1, None)
  {
    ScanPlain("r", " " + rest);
  }

  lemma OrWord()
    ensures WordToken("or") == Or
  {
    LowerWordIsKept("or");
  }

  lemma OrLexes(rest: string)
    ensures Lex(" or " + rest) == Prepend([Or], Lex(rest))
  {
    hide *;
    var s := "or" + (" " + rest);
    assert " or " + rest == " " + s;
    SpaceLexes(s);
    OrScans(rest);
    assert s[1..] == "r" + (" " + rest);
    WordStep(s, 1);
    assert s[..2] == "or" && s[2..] == " " + rest;
    OrWord();
    SpaceLexes(rest);
  }

  // ---- expressions -------------------------------------------------------

  lemma {:induction false} UnaryLexes(e: Expression, rest: string)
    requires Printable(e) && Delimited(rest)
    ensures Lex(UnaryText(e) + rest) == Prepend(UnaryTokens(e), Lex(rest))
    decreases e, 0
  {
    hide Lex, Prepend, KeyText, ValueText, Readable, WordText, ListText, OrText, ListTokens, OrTokens;
    match e
    case Leaf(c) =>
      KeyIsWord(c);
      KeyStart(c);
      WordLexes(KeyText(c), ValueText(c), rest);
    case Not(inner) =>
      assert UnaryText(e) + rest == ['-'] + (UnaryText(inner) + rest);
      MarkLexes('-', Token.Not, UnaryText(inner) + rest);
      UnaryLexes(inner, rest);
      PrependLaws([Token.Not], UnaryTokens(inner), Lex(rest));
    case All(children) =>
      var text, body := ListText(children), ListTokens(children);
      assert UnaryText(e) + rest == ['('] + (text + ([')'] + rest));
      MarkLexes('(', Open, text + ([')'] + rest));
      ListLexes(children, [')'] + rest);
      MarkLexes(')', Close, rest);
      Group(body, Lex(rest));
    case Any(children) =>
      var text, body := OrText(children), OrTokens(children);
      assert UnaryText(e) + rest == ['('] + (text + ([')'] + rest));
      MarkLexes('(', Open, text + ([')'] + rest));
      OrTextLexes(children, [')'] + rest);
      MarkLexes(')', Close, rest);
      Group(body, Lex(rest));
  }

  lemma KeyStart(c: Condition)
    ensures KeyText(c) != "" && KeyText(c)[0] != '-'
  {
  }

  lemma Group(body: seq<Token>, rest: Result<seq<Token>, FilterError>)
    ensures Prepend([Open], Prepend(body, Prepend([Close], rest))) == Prepend([Open] + body + [Close], rest)
  {
    PrependLaws(body, [Close], rest);
    PrependLaws([Open], body + [Close], rest);
    assert [Open] + (body + [Close]) == [Open] + body + [Close];
  }

  lemma {:induction false} ListLexes(es: seq<Expression>, rest: string)
    requires es != [] && AllPrintable(es) && Delimited(rest)
    ensures Lex(ListText(es) + rest) == Prepend(ListTokens(es), Lex(rest))
    decreases es, 1
  {
    hide Lex, Prepend, UnaryText, UnaryTokens, Printable;
    var first, more := es[0], es[1..];
    if more == [] {
      assert ListTokens(es) == UnaryTokens(first) + [] == UnaryTokens(first);
      UnaryLexes(first, rest);
    } else {
      var tail := ListText(more) + rest;
      assert ListText(es) + rest == UnaryText(first) + (" " + tail);
      UnaryLexes(first, " " + tail);
      SpaceLexes(tail);
      ListLexes(more, rest);
      PrependLaws(UnaryTokens(first), ListTokens(more), Lex(rest));
    }
  }

  lemma {:induction false} AllLexes(e: Expression, rest: string)
    requires Printable(e) && Delimited(rest)
    ensures Lex(AllText(e) + rest) == Prepend(AllTokens(e), Lex(rest))
    decreases e, 2
  {
    if e.All? {
      ListLexes(e.children, rest);
    } else {
      UnaryLexes(e, rest);
    }
  }

  lemma {:induction false} OrTextLexes(es: seq<Expression>, rest: string)
    requires es != [] && AllPrintable(es) && Delimited(rest)
    ensures Lex(OrText(es) + rest) == Prepend(OrTokens(es), Lex(rest))
    decreases es, 3
  {
    hide Lex, Prepend, AllText, AllTokens, Printable;
    var first, more := es[0], es[1..];
    if more == [] {
      AllLexes(first, rest);
    } else {
      var tail := OrText(more) + rest;
      assert OrText(es) + rest == AllText(first) + (" or " + tail);
      AllLexes(first, " or " + tail);
      OrLexes(tail);
      OrTextLexes(more, rest);
      PrependLaws([Or], OrTokens(more), Lex(rest));
      PrependLaws(AllTokens(first), [Or] + OrTokens(more), Lex(rest));
      assert AllTokens(first) + ([Or] + OrTokens(more)) == OrTokens(es);
    }
  }

  lemma AnyLexes(e: Expression, rest: string)
    requires Printable(e) && Delimited(rest)
    ensures Lex(AnyText(e) + rest) == Prepend(AnyTokens(e), Lex(rest))
  {
    if e.Any? {
      OrTextLexes(e.children, rest);
    } else {
      AllLexes(e, rest);
    }
  }

  // ---- queries -----------------------------------------------------------

  lemma TakeWordLexes(t: Take, rest: string)
    requires 1 <= t.count <= MAX_FILTER_TAKE && Delimited(rest)
    ensures Lex(WordText(TakeKey(t), NatText(t.count)) + rest) ==
            Prepend([Term(Some(TakeKey(t)), NatText(t.count))], Lex(rest))
  {
    CountIsKept(t.count);
    assert '\'' !in NatText(t.count);
    WordLexes(TakeKey(t), NatText(t.count), rest);
  }

  function ExpressionText(q: Query): string
    requires PrintableQuery(q)
  {
    if q.expression.Some? then " " + AnyText(q.expression.value) else ""
  }

  function ExpressionTokens(q: Query): seq<Token>
    requires PrintableQuery(q)
  {
    if q.expression.Some? then AnyTokens(q.expression.value) else []
  }

  lemma ExpressionLexes(q: Query)
    requires PrintableQuery(q)
    ensures Delimited(ExpressionText(q)) && Lex(ExpressionText(q)) == Ok(ExpressionTokens(q))
  {
    if q.expression.Some? {
      var e := q.expression.value;
      SpaceLexes(AnyText(e));
      assert AnyText(e) + "" == AnyText(e);
      AnyLexes(e, "");
      PrependAll(AnyTokens(e));
    }
  }

  /** At the level of text: the lexer reads the printed text as the printed tokens. */
  lemma TextLexes(q: Query)
    requires PrintableQuery(q)
    ensures Lex(QueryText(q)) == Ok(QueryTokens(q))
  {
    hide Lex, AnyText, AnyTokens, NatText, WordText, PrintableQuery, SortText;
    ExpressionLexes(q);
    var rest, tokens := ExpressionText(q), ExpressionTokens(q);
    var sort := WordText("sort", SortText(q.sort));
    assert '\'' !in SortText(q.sort) by { SortQuotable(q.sort); }
    var first := [Term(Some("sort"), SortText(q.sort))];
    if q.take.Some? {
      var take := WordText(TakeKey(q.take.value), NatText(q.take.value.count));
      var word := [Term(Some(TakeKey(q.take.value)), NatText(q.take.value.count))];
      TakeBound(q);
      TakeWordLexes(q.take.value, rest);
      assert QueryText(q) == sort + (" " + (take + rest));
      WordLexes("sort", SortText(q.sort), " " + (take + rest));
      SpaceLexes(take + rest);
      PrependLaws(first, word, Lex(rest));
      assert QueryTokens(q) == (first + word) + tokens;
    } else {
      assert QueryText(q) == sort + rest;
      WordLexes("sort", SortText(q.sort), rest);
      assert QueryTokens(q) == first + tokens;
    }
  }

  lemma SortQuotable(s: SortOrder)
    ensures '\'' !in SortText(s)
  {
  }

  lemma TakeBound(q: Query)
    requires PrintableQuery(q) && q.take.Some?
    ensures 1 <= q.take.value.count <= MAX_FILTER_TAKE
  {
  }

  /**
   * The parser undoes the printer: every query in normal form with at most 32 leaves,
   * printed in at most 1,024 bytes, is read back unchanged.
   */
  lemma PrintThenParse(q: Query)
    requires PrintableQuery(q) && ByteLen(QueryText(q)) <= 1_024
    ensures ParseFilter(QueryText(q)) == Ok(q)
  {
    hide Lex, ParseTokens, QueryText, QueryTokens;
    TextLexes(q);
    TokensRoundTrip(q);
  }

  // ---- every parsed query is printable -----------------------------------

  lemma {:induction false} LowerIsKept(s: string)
    ensures Lower(Lower(s)) == Lower(s)
  {
    var t := Lower(s);
    assert forall i :: 0 <= i < |t| ==> Lower(t)[i] == LowerChar(t[i]) == t[i];
  }

  lemma GlobIsReadable(key: string, value: string)
    requires Glob(key, value).Ok?
    ensures ReadableTerm(Glob(key, value).value)
  {
    TrimIsTight(value, IsWhitespace);
  }

  lemma ActorIsReadable(key: string, value: string)
    requires ParseActor(key, value).Ok?
    ensures ReadableSelector(ParseActor(key, value).value)
  {
    hide KindOf, ByteLen, TrimBy, Tight;
    var trimmed := Trim(value);
    var bare := if trimmed != "" && trimmed[0] == '@' then Trim(trimmed[1..]) else Trim(trimmed);
    var braced := |bare| >= 2 && bare[0] == '{' && bare[|bare| - 1] == '}';
    TrimIsTight(if braced then bare[1..|bare| - 1] else bare, IsWhitespace);
  }

  lemma NamedIsReadable(v: string)
    requires NamedIs(v).Some?
    ensures Readable(NamedIs(v).value)
  {
  }

  lemma IsValueIsReadable(key: string, value: string)
    requires ParseIs(key, value).Ok?
    ensures Readable(ParseIs(key, value).value)
  {
    hide NamedIs, Trim, TrimStart, Lower, Plausible;
    var v := Lower(TrimStart(Trim(value), c => c == '.'));
    if NamedIs(v).Some? {
      NamedIsReadable(v);
    }
    LowerIsKept(TrimStart(Trim(value), c => c == '.'));
  }

  lemma ConditionIsReadable(key: Option<string>, value: string)
    requires ParseCondition(key, value).Ok?
    ensures Readable(ParseCondition(key, value).value)
  {
    hide Glob, ParseActor, ParseIs, ReadableTerm, ReadableSelector, ParsePermission;
    var k := key.GetOr("contains");
    if k == "from" || k == "to" || k == "for" {
      ActorIsReadable(k, value);
    } else if k == "contains" || k == "has" || k == "name" || k == "location" {
      GlobIsReadable(k, value);
    } else if k == "is" {
      IsValueIsReadable(k, value);
    }
  }

  lemma {:induction false} TermsAreReadable(ts: seq<Token>)
    ensures forall c :: c in TermConditions(ts) ==> Readable(c)
  {
    hide ParseCondition, Readable;
    if ts != [] {
      TermsAreReadable(ts[1..]);
      if ts[0].Term? && ParseCondition(ts[0].key, ts[0].value).Ok? {
        ConditionIsReadable(ts[0].key, ts[0].value);
      }
    }
  }

  /** A condition that some word can state. */
  predicate Stated(c: Condition) {
    Readable(c) && Quotable(ValueText(c))
  }

  lemma {:induction false} LeavesDecide(e: Expression)
    requires Normal(e) && forall c :: c in Leaves(e) ==> Stated(c)
    ensures Printable(e)
    decreases e, 0
  {
    match e
    case Leaf(c) => assert c in Leaves(e);
    case Not(inner) => LeavesDecide(inner);
    case All(children) => LeavesDecideAll(children);
    case Any(children) => LeavesDecideAll(children);
  }

  lemma {:induction false} LeavesDecideAll(es: seq<Expression>)
    requires AllNormal(es) && forall c :: c in LeavesOf(es) ==> Stated(c)
    ensures AllPrintable(es)
    decreases es, 1
  {
    if es != [] {
      LeavesDecide(es[0]);
      LeavesDecideAll(es[1..]);
      assert es == [es[0]] + es[1..];
    }
  }

  predicate TakeFits(p: Progress) {
    p.take.Some? ==> 1 <= p.take.value.count <= MAX_FILTER_TAKE
  }

  lemma TermTakeFits(p: Progress, key: Option<string>, value: string, top: bool)
    requires TakeFits(p) && ReadTerm(p, key, value, top).Ok?
    ensures TakeFits(ReadTerm(p, key, value, top).value.progress)
  {
  }

  lemma {:induction false} UnaryTakeFits(ts: seq<Token>, p: Progress, top: bool)
    requires p.position <= |ts| && TakeFits(p) && Unary(ts, p, top).Ok?
    ensures TakeFits(Unary(ts, p, top).value.progress)
    decreases |ts| - p.position, 0
  {
    hide ReadTerm, Conditions;
    match ts[p.position]
    case Not => UnaryTakeFits(ts, Moved(p), false);
    case Open => BranchesTakeFits(ts, Moved(p), false);
    case Term(key, value) => TermTakeFits(Moved(p), key, value, top);
  }

  lemma {:induction false} ConditionsTakeFits(ts: seq<Token>, p: Progress, top: bool)
    requires p.position <= |ts| && TakeFits(p) && Conditions(ts, p, top).Ok?
    ensures TakeFits(Conditions(ts, p, top).value.progress)
    decreases |ts| - p.position, 1
  {
    hide Unary, TakeFits;
    if p.position == |ts| || ts[p.position].Or? || ts[p.position].Close? {
    } else if ts[p.position].And? {
      assert TakeFits(Moved(p)) by { SameTake(p); }
      ConditionsTakeFits(ts, Moved(p), top);
    } else {
      UnaryTakeFits(ts, p, top);
      ConditionsTakeFits(ts, Unary(ts, p, top).value.progress, top);
    }
  }

  lemma SameTake(p: Progress)
    ensures TakeFits(Moved(p)) == TakeFits(p)
  {
  }

  lemma {:induction false} BranchesTakeFits(ts: seq<Token>, p: Progress, top: bool)
    requires p.position <= |ts| && TakeFits(p) && Branches(ts, p, top).Ok?
    ensures TakeFits(Branches(ts, p, top).value.progress)
    decreases |ts| - p.position, 3
  {
    hide Conditions, TakeFits;
    ConditionsTakeFits(ts, p, top);
    var q := Branch(ts, p, top).value.progress;
    if At(ts, q, Or) {
      assert TakeFits(Moved(q)) by { SameTake(q); }
      BranchesTakeFits(ts, Moved(q), top);
    }
  }

  /** Every accepted filter is a printable query, unless a value contains both quote characters. */
  lemma ParsedIsPrintable(input: string)
    requires ParseFilter(input).Ok?
    requires forall c ::
      c in OptionLeaves(ParseFilter(input).value.expression) && Readable(c) ==> Quotable(ValueText(c))
    ensures PrintableQuery(ParseFilter(input).value)
  {
    hide Alternatives, Readable, Printable, TermConditions, Lex;
    var q, ts := ParseFilter(input).value, Lex(input).value;
    AcceptedFilters(input);
    TermsAreReadable(ts);
    assert TakeFits(START);
    BranchesTakeFits(ts, START, true) by { AlternativesNeedBranches(ts); }
    AlternativesNeedBranches(ts);
    if q.expression.Some? {
      OneLeaf(q.expression.value);
      LeavesDecide(q.expression.value);
    }
  }

  lemma AlternativesNeedBranches(ts: seq<Token>)
    requires Alternatives(ts, START, true).Ok?
    ensures Branches(ts, START, true).Ok?
    ensures Alternatives(ts, START, true).value.progress == Branches(ts, START, true).value.progress
  {
  }

  /** Printing an accepted filter and parsing it again changes nothing. */
  lemma PrintingIsStable(input: string)
    requires ParseFilter(input).Ok? && PrintableQuery(ParseFilter(input).value)
    requires ByteLen(QueryText(ParseFilter(input).value)) <= 1_024
    ensures ParseFilter(QueryText(ParseFilter(input).value)) == ParseFilter(input)
  {
    PrintThenParse(ParseFilter(input).value);
  }

  /** One dangling `or`, twice: inside a group it is accepted, at the end of the text it is not. */
  lemma DanglingInsideGroup(value: string, c: Condition)
    requires ParseCondition(None, value) == Ok(c)
    ensures ParseTokens([Open, Term(None, value), Or, Close]) == Ok(Query(Some(Expression.Leaf(c)), Newest, None))
    ensures ParseTokens([Term(None, value), Or]) == Err(DanglingOperator)
  {
    hide ParseCondition;
    var leaf := Expression.Leaf(c);
    var ts := [Open, Term(None, value), Or, Close];
    var one, two, three := Progress(1, 0, None, None), Progress(2, 1, None, None), Progress(3, 1, None, None);
    var end := Progress(4, 1, None, None);
    assert Conditions(ts, two, false) == Ok(Parsed(two, []));
    assert Unary(ts, one, false) == Ok(Parsed(two, Some(leaf)));
    assert [leaf] + [] == [leaf];
    assert Conditions(ts, one, false) == Ok(Parsed(two, [leaf]));
    assert Conditions(ts, three, false) == Ok(Parsed(three, []));
    assert Branches(ts, three, false) == Ok(Parsed(three, []));
    assert Branches(ts, one, false) == Ok(Parsed(three, [leaf]));
    assert Unary(ts, START, true) == Ok(Parsed(end, Some(leaf)));
    assert Conditions(ts, end, true) == Ok(Parsed(end, []));
    assert Conditions(ts, START, true) == Ok(Parsed(end, [leaf]));
    assert Branches(ts, START, true) == Ok(Parsed(end, [leaf]));
    var us, q := [Term(None, value), Or], Progress(1, 1, None, None);
    assert Unary(us, START, true) == Ok(Parsed(q, Some(leaf)));
    assert Conditions(us, q, true) == Ok(Parsed(q, []));
    assert Conditions(us, START, true) == Ok(Parsed(q, [leaf]));
    assert Branch(us, START, true) == Ok(Parsed(q, Some(leaf)));
    assert Branches(us, START, true) == Err(DanglingOperator);
    assert Alternatives(us, START, true) == Err(DanglingOperator);
  }
}
