/** The parser undoes the printer. */
module FilterRoundTrip {
  import opened Wrappers
  import opened Text
  import opened FilterLexer
  import opened FilterValues
  import opened FilterParser
  import opened FilterStructure
  import opened FilterPrinter

  // ---- values ------------------------------------------------------------

  predicate LowerWord(s: string) {
    s != "" && forall i :: 0 <= i < |s| ==> 'a' <= s[i] <= 'z' || IsDigit(s[i]) || s[i] == '-'
  }

  lemma LowerWordIsKept(s: string)
    requires LowerWord(s)
    ensures Lower(s) == s && Trim(s) == s && TrimStart(s, c => c == '.') == s
  {
    TightIsKept(s, IsWhitespace);
  }

  lemma DateIsKept(key: string, d: Date)
    requires ValidDate(d)
    ensures |DateText(d)| == 10 && Trimmed(DateText(d)) && '=' !in DateText(d)
    ensures ParseDate(key, DateText(d)) == Ok(d)
  {
    var t := DateText(d);
    TightIsKept(t, IsWhitespace);
  }

  lemma BetweenIsKept(key: string, a: Date, b: Date)
    requires ValidDate(a) && ValidDate(b) && !Later(a, b)
    ensures ParseBetween(key, DateText(a) + "=" + DateText(b)) == Ok(ChangedBetween(a, b))
  {
    DateIsKept(key, a);
    DateIsKept(key, b);
    var value := DateText(a) + "=" + DateText(b);
    IndexOfFirst(DateText(a), '=', DateText(b));
    assert value[..10] == DateText(a) && value[11..] == DateText(b);
  }

  lemma SelectorIsKept(key: string, s: Selector)
    requires ReadableSelector(s)
    ensures ParseActor(key, "@{" + s.id + "}") == Ok(s)
  {
    hide KindOf, ByteLen, TrimBy;
    var value := "@{" + s.id + "}";
    var bare := "{" + s.id + "}";
    TightIsKept(value, IsWhitespace);
    assert value[1..] == bare;
    TightIsKept(bare, IsWhitespace);
    assert bare[1..|bare| - 1] == s.id;
    TightIsKept(s.id, IsWhitespace);
  }

  lemma NamedWordIsKept(key: string, word: string)
    requires LowerWord(word)
    ensures ParseIs(key, word) == match NamedIs(word)
                                  case Some(p) => Ok(p)
                                  case None =>
                                    if Plausible(word) then Ok(HasExtension(word)) else Err(InvalidValue(key))
  {
    LowerWordIsKept(word);
  }

  lemma ExtensionIsKept(key: string, x: string)
    requires Plausible(x) && Lower(x) == x && NamedIs(x).None?
    ensures ParseIs(key, x) == Ok(HasExtension(x))
  {
    forall i | 0 <= i < |x|
      ensures 'a' <= x[i] <= 'z' || IsDigit(x[i])
    {
      assert LowerChar(x[i]) == x[i];
    }
    NamedWordIsKept(key, x);
  }

  lemma AccessIsKept(key: string, a: Access)
    ensures ParsePermission(key, AccessText(a)) == Ok(a)
  {
    LowerWordIsKept(AccessText(a));
  }

  lemma KeyIsWord(c: Condition)
    ensures !IsModifierKey(KeyText(c)) && LowerWord(KeyText(c)) && ':' !in KeyText(c)
  {
  }

  lemma RenderIsKept(r: RenderKind)
    ensures ParseIs("is", RenderText(r)) == Ok(IsRender(r))
  {
    hide ParseIs;
    NamedWordIsKept("is", RenderText(r));
  }

  lemma KindIsKept(k: EntryKind)
    ensures ParseIs("is", if k.File? then "file" else "folder") == Ok(IsKind(k))
  {
    hide ParseIs;
    NamedWordIsKept("is", if k.File? then "file" else "folder");
  }

  lemma LifetimesAreKept()
    ensures ParseIs("is", "expiring") == Ok(IsExpiring)
    ensures ParseIs("is", "self-destruct") == Ok(IsSelfDestruct)
  {
    hide ParseIs;
    NamedWordIsKept("is", "expiring");
    NamedWordIsKept("is", "self-destruct");
  }

  /** The conditions written `is:...`. */
  lemma IsConditionIsKept(c: Condition)
    requires Readable(c) && (c.IsKind? || c.IsRender? || c.IsExpiring? || c.IsSelfDestruct? || c.HasExtension?)
    ensures ParseIs("is", ValueText(c)) == Ok(c)
  {
    hide ParseIs, RenderText, NamedIs, Plausible;
    match c
    case HasExtension(x) => ExtensionIsKept("is", x);
    case IsRender(r) => RenderIsKept(r);
    case IsKind(k) => KindIsKept(k);
    case IsExpiring => LifetimesAreKept();
    case IsSelfDestruct => LifetimesAreKept();
  }

  /** Reading the printed value of a condition under its key gives the condition back. */
  lemma ConditionRoundTrip(c: Condition)
    requires Readable(c)
    ensures ParseCondition(Some(KeyText(c)), ValueText(c)) == Ok(c)
  {
    hide ParseDate, ParseBetween, ParseActor, ParsePermission, ParseIs, DateText;
    var k := KeyText(c);
    match c
    case ChangedAfter(d) => DateIsKept(k, d);
    case ChangedBefore(d) => DateIsKept(k, d);
    case ChangedBetween(a, b) => BetweenIsKept(k, a, b);
    case CreatedBy(s) => SelectorIsKept(k, s);
    case SharedWith(s) => SelectorIsKept(k, s);
    case AccessibleTo(s) => SelectorIsKept(k, s);
    case Contains(t) => TightIsKept(t, IsWhitespace);
    case HasContent(t) => TightIsKept(t, IsWhitespace);
    case NameMatches(t) => TightIsKept(t, IsWhitespace);
    case InLocation(t) => TightIsKept(t, IsWhitespace);
    case HasPermission(a) => AccessIsKept(k, a);
    case _ => IsConditionIsKept(c);
  }

  // ---- tokens ------------------------------------------------------------

  /** The progress after reading `tokens`, which state `leaves`. */
  function Past(p: Progress, tokens: seq<Token>, leaves: seq<Condition>): Progress {
    p.(position := p.position + |tokens|, predicates := p.predicates + |leaves|)
  }

  ghost predicate Here(ts: seq<Token>, p: Progress, tokens: seq<Token>) {
    p.position + |tokens| <= |ts| && ts[p.position..p.position + |tokens|] == tokens
  }

  lemma HereSplit(ts: seq<Token>, p: Progress, a: seq<Token>, b: seq<Token>, leaves: seq<Condition>)
    requires Here(ts, p, a + b)
    ensures Here(ts, p, a) && Here(ts, Past(p, a, leaves), b)
    ensures a != [] ==> ts[p.position] == a[0]
  {
    var seg := ts[p.position..p.position + |a + b|];
    assert seg[..|a|] == a && seg[|a|..] == b;
    assert ts[p.position..p.position + |a|] == seg[..|a|];
    assert ts[p.position + |a|..p.position + |a| + |b|] == seg[|a|..];
    if a != [] {
      assert seg[0] == a[0];
    }
  }

  lemma UnaryStarts(e: Expression)
    requires Printable(e)
    ensures UnaryTokens(e) != []
    ensures var t := UnaryTokens(e)[0]; t.Open? || t.Not? || t.Term?
  {
  }

  lemma LeafParses(c: Condition, ts: seq<Token>, p: Progress, top: bool)
    requires Readable(c) && At(ts, p, Term(Some(KeyText(c)), ValueText(c)))
    requires p.predicates + 1 <= MAX_FILTER_PREDICATES
    ensures Unary(ts, p, top) ==
            Ok(Parsed(p.(position := p.position + 1, predicates := p.predicates + 1), Some(Expression.Leaf(c))))
  {
    hide ParseCondition, KeyText, ValueText, Readable, LowerWord, IsModifierKey, ParseModifier;
    ConditionRoundTrip(c);
    KeyIsWord(c);
  }

  lemma {:induction false} UnaryParses(e: Expression, ts: seq<Token>, p: Progress, top: bool)
    requires Printable(e) && Here(ts, p, UnaryTokens(e))
    requires p.predicates + |Leaves(e)| <= MAX_FILTER_PREDICATES
    ensures Unary(ts, p, top) == Ok(Parsed(Past(p, UnaryTokens(e), Leaves(e)), Some(e)))
    decreases e, 0
  {
    hide ReadTerm, Readable, ValueText;
    match e
    case Leaf(c) =>
      HereSplit(ts, p, UnaryTokens(e), [], []);
      assert UnaryTokens(e) + [] == UnaryTokens(e);
      LeafParses(c, ts, p, top);
    case Not(inner) =>
      HereSplit(ts, p, [Token.Not], UnaryTokens(inner), []);
      UnaryParses(inner, ts, Moved(p), false);
    case All(children) =>
      GroupParses(e, ts, p, top);
    case Any(children) =>
      GroupParses(e, ts, p, top);
  }

  lemma FromConditions(ts: seq<Token>, p: Progress, top: bool, q: Progress, es: seq<Expression>)
    requires p.position <= |ts| && Conditions(ts, p, top) == Ok(Parsed(q, es)) && !At(ts, q, Or)
    ensures Branch(ts, p, top) == Ok(Parsed(q, Collapse(es, All(es))))
    ensures |es| >= 1 ==> Alternatives(ts, p, top) == Ok(Parsed(q, Collapse(es, All(es))))
  {
  }

  /** A parenthesised group parses as what stands inside it. */
  lemma GroupOf(ts: seq<Token>, p: Progress, top: bool, body: seq<Token>, leaves: seq<Condition>, e: Expression)
    requires Here(ts, p, [Open] + (body + [Close]))
    requires Alternatives(ts, Moved(p), false) == Ok(Parsed(Past(Moved(p), body, leaves), Some(e)))
    ensures Unary(ts, p, top) == Ok(Parsed(Past(p, [Open] + (body + [Close]), leaves), Some(e)))
  {
    hide Alternatives;
    HereSplit(ts, p, [Open], body + [Close], []);
    HereSplit(ts, Moved(p), body, [Close], leaves);
    var q := Past(Moved(p), body, leaves);
    assert [Close] + [] == [Close];
    HereSplit(ts, q, [Close], [], []);
  }

  lemma GroupBody(ts: seq<Token>, p: Progress, body: seq<Token>)
    requires Here(ts, p, [Open] + (body + [Close]))
    ensures Here(ts, Moved(p), body)
    ensures p.position + 1 + |body| < |ts| && ts[p.position + 1 + |body|] == Close
  {
    HereSplit(ts, p, [Open], body + [Close], []);
    HereSplit(ts, Moved(p), body, [Close], []);
    assert [Close] + [] == [Close];
    HereSplit(ts, Past(Moved(p), body, []), [Close], [], []);
  }

  lemma {:induction false} GroupParses(e: Expression, ts: seq<Token>, p: Progress, top: bool)
    requires Printable(e) && (e.All? || e.Any?) && Here(ts, p, UnaryTokens(e))
    requires p.predicates + |Leaves(e)| <= MAX_FILTER_PREDICATES
    ensures Unary(ts, p, top) == Ok(Parsed(Past(p, UnaryTokens(e), Leaves(e)), Some(e)))
    decreases e.children, 4
  {
    hide Unary, Conditions, Branch, Branches, Alternatives, ListTokens, OrTokens, LeavesOf, Here;
    var body := if e.Any? then OrTokens(e.children) else ListTokens(e.children);
    assert UnaryTokens(e) == [Open] + (body + [Close]);
    GroupBody(ts, p, body);
    if e.Any? {
      OrParses(e.children, ts, Moved(p), false);
      BranchesAreAlternatives(ts, Moved(p), false);
    } else {
      ListParses(e.children, ts, Moved(p), false);
      FromConditions(ts, Moved(p), false, Past(Moved(p), body, Leaves(e)), e.children);
    }
    GroupOf(ts, p, top, body, Leaves(e), e);
  }

  lemma BranchesAreAlternatives(ts: seq<Token>, p: Progress, top: bool)
    requires p.position <= |ts| && Branches(ts, p, top).Ok?
    ensures var r := Branches(ts, p, top).value;
            Alternatives(ts, p, top) == Ok(Parsed(r.progress, Collapse(r.value, Any(r.value))))
  {
  }

  lemma {:induction false} ListParses(es: seq<Expression>, ts: seq<Token>, p: Progress, top: bool)
    requires AllPrintable(es) && Here(ts, p, ListTokens(es))
    requires Stops(ts, p.position + |ListTokens(es)|)
    requires p.predicates + |LeavesOf(es)| <= MAX_FILTER_PREDICATES
    ensures Conditions(ts, p, top) == Ok(Parsed(Past(p, ListTokens(es), LeavesOf(es)), es))
    decreases es, 1
  {
    hide Unary, UnaryTokens, Leaves, Printable;
    if es != [] {
      var first, rest := es[0], es[1..];
      HereSplit(ts, p, UnaryTokens(first), ListTokens(rest), Leaves(first));
      UnaryStarts(first);
      UnaryParses(first, ts, p, top);
      ListParses(rest, ts, Past(p, UnaryTokens(first), Leaves(first)), top);
      assert [first] + rest == es;
    }
  }

  lemma {:induction false} AllParses(e: Expression, ts: seq<Token>, p: Progress, top: bool)
    requires Printable(e) && Here(ts, p, AllTokens(e))
    requires Stops(ts, p.position + |AllTokens(e)|)
    requires p.predicates + |Leaves(e)| <= MAX_FILTER_PREDICATES
    ensures Branch(ts, p, top) == Ok(Parsed(Past(p, AllTokens(e), Leaves(e)), Some(e)))
    decreases e, 2
  {
    hide Conditions, Unary, Here, Printable, Leaves, LeavesOf, ListTokens, UnaryTokens, Stops;
    if e.All? {
      PartsOfAll(e);
      ListParses(e.children, ts, p, top);
    } else {
      OneParses(e, ts, p, top);
    }
  }

  lemma PartsOfAll(e: Expression)
    requires e.All? && Printable(e)
    ensures AllPrintable(e.children) && |e.children| >= 2 && Leaves(e) == LeavesOf(e.children)
  {
  }

  /** A conjunction of a single operand. */
  lemma {:induction false} OneParses(e: Expression, ts: seq<Token>, p: Progress, top: bool)
    requires Printable(e) && Here(ts, p, UnaryTokens(e))
    requires Stops(ts, p.position + |UnaryTokens(e)|)
    requires p.predicates + |Leaves(e)| <= MAX_FILTER_PREDICATES
    ensures Conditions(ts, p, top) == Ok(Parsed(Past(p, UnaryTokens(e), Leaves(e)), [e]))
    decreases e, 1
  {
    hide Unary;
    UnaryStarts(e);
    HereSplit(ts, p, UnaryTokens(e), [], Leaves(e));
    assert UnaryTokens(e) + [] == UnaryTokens(e);
    UnaryParses(e, ts, p, top);
    assert [e] + [] == [e];
  }

  lemma BranchThenOr(ts: seq<Token>, p: Progress, top: bool, q: Progress, e: Expression)
    requires p.position <= |ts| && Branch(ts, p, top) == Ok(Parsed(q, Some(e)))
    requires At(ts, q, Or) && q.position + 1 < |ts|
    ensures Branches(ts, p, top) == Behind([e], Branches(ts, Moved(q), top))
  {
    hide Branch;
  }

  lemma LastBranch(ts: seq<Token>, p: Progress, top: bool, q: Progress, e: Expression)
    requires p.position <= |ts| && Branch(ts, p, top) == Ok(Parsed(q, Some(e))) && !At(ts, q, Or)
    ensures Branches(ts, p, top) == Ok(Parsed(q, [e]))
  {
    hide Branch;
  }

  lemma OrSplit(ts: seq<Token>, p: Progress, a: seq<Token>, b: seq<Token>, leaves: seq<Condition>)
    requires b != [] && Here(ts, p, a + [Or] + b)
    ensures Here(ts, p, a) && At(ts, Past(p, a, leaves), Or) && Here(ts, Moved(Past(p, a, leaves)), b)
    ensures Past(p, a, leaves).position + 1 < |ts|
  {
    assert a + [Or] + b == a + ([Or] + b);
    HereSplit(ts, p, a, [Or] + b, leaves);
    HereSplit(ts, Past(p, a, leaves), [Or], b, []);
  }

  lemma {:induction false} OrParses(es: seq<Expression>, ts: seq<Token>, p: Progress, top: bool)
    requires es != [] && AllPrintable(es) && Here(ts, p, OrTokens(es))
    requires var at := p.position + |OrTokens(es)|; at >= |ts| || ts[at].Close?
    requires p.predicates + |LeavesOf(es)| <= MAX_FILTER_PREDICATES
    ensures Branches(ts, p, top) == Ok(Parsed(Past(p, OrTokens(es), LeavesOf(es)), es))
    decreases es, 3
  {
    hide Branch, Branches, AllTokens, Leaves, Printable, Here;
    var first, rest := es[0], es[1..];
    var q := Past(p, AllTokens(first), Leaves(first));
    if rest == [] {
      assert es == [first];
      OneLeaf(first);
      AllParses(first, ts, p, top);
      LastBranch(ts, p, top, q, first);
    } else {
      OrStarts(rest);
      OrSplit(ts, p, AllTokens(first), OrTokens(rest), Leaves(first));
      AllParses(first, ts, p, top);
      BranchThenOr(ts, p, top, q, first);
      OrParses(rest, ts, Moved(q), top);
      assert [first] + rest == es;
    }
  }

  lemma {:induction false} OrStarts(es: seq<Expression>)
    requires es != [] && AllPrintable(es)
    ensures OrTokens(es) != []
  {
    if es[0].All? {
      UnaryStarts(es[0].children[0]);
      assert ListTokens(es[0].children) == UnaryTokens(es[0].children[0]) + ListTokens(es[0].children[1..]);
    } else {
      UnaryStarts(es[0]);
    }
  }

  lemma {:induction false} AnyParses(e: Expression, ts: seq<Token>, p: Progress, top: bool)
    requires Printable(e) && Here(ts, p, AnyTokens(e))
    requires var at := p.position + |AnyTokens(e)|; at >= |ts| || ts[at].Close?
    requires p.predicates + |Leaves(e)| <= MAX_FILTER_PREDICATES
    ensures Alternatives(ts, p, top) == Ok(Parsed(Past(p, AnyTokens(e), Leaves(e)), Some(e)))
  {
    hide Branch, Branches, Conditions, Unary, Alternatives, Here, ListTokens, OrTokens, UnaryTokens, LeavesOf;
    if e.Any? {
      OrParses(e.children, ts, p, top);
    } else {
      AllParses(e, ts, p, top);
      LastBranch(ts, p, top, Past(p, AllTokens(e), Leaves(e)), e);
    }
    BranchesAreAlternatives(ts, p, top);
  }
}
