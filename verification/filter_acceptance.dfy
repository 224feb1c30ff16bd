/** Exactly which token lists, and which texts, the parser accepts. */
module FilterAcceptance {
  import opened Wrappers
  import opened Text
  import opened FilterLexer
  import opened FilterValues
  import opened FilterParser
  import opened FilterStructure

  // ---- the condition -----------------------------------------------------

  /** A term that states a condition. */
  predicate IsConditionTerm(token: Token) {
    token.Term? && !IsModifier(token)
  }

  /** Token `j` stands inside the group that opens at `open`, at any depth. */
  ghost predicate InGroup(ts: seq<Token>, open: nat, j: nat) {
    open < j < |ts| && forall i :: open < i <= j ==> Depth(ts[open..i]) >= 1
  }

  /** An operand begins at `k` and yields an expression: a negation, a condition, or a group that holds one. */
  ghost predicate Yields(ts: seq<Token>, k: nat) {
    && k < |ts|
    && (ts[k].Not? || IsConditionTerm(ts[k])
        || (ts[k].Open? && exists j: nat :: InGroup(ts, k, j) && IsConditionTerm(ts[j])))
  }

  /** Every `not` negates something, and no `and` or `or` is the last token. */
  ghost predicate OperatorsFit(ts: seq<Token>, from: nat, to: nat)
    requires to <= |ts|
  {
    forall k :: from <= k < to ==>
      && (ts[k].And? || ts[k].Or? ==> k + 1 < |ts|)
      && (ts[k].Not? ==> Yields(ts, k + 1))
  }

  /** A modifier with this presentation order or this result cap. */
  predicate Says(token: Token, sort: SortOrder, take: Take)
    requires IsModifier(token)
  {
    var meaning := ParseModifier(token.key.value, token.value);
    meaning == Ok(Order(sort)) || meaning == Ok(Cap(take))
  }

  /** All modifiers are readable, and those of one kind agree. */
  ghost predicate ModifiersSay(ts: seq<Token>, sort: SortOrder, take: Take) {
    forall k :: 0 <= k < |ts| && IsModifier(ts[k]) ==> Says(ts[k], sort, take)
  }

  ghost predicate ModifiersAgree(ts: seq<Token>) {
    exists sort: SortOrder, take: Take :: ModifiersSay(ts, sort, take)
  }

  /** The exact condition for acceptance. */
  ghost predicate Acceptable(ts: seq<Token>) {
    && ts != []
    && Balanced(ts)
    && TermsReadable(ts)
    && |TermConditions(ts)| <= 32
    && ModifiersAtTop(ts, true)
    && ModifiersAgree(ts)
    && OperatorsFit(ts, 0, |ts|)
  }

  // ---- what is accepted meets it -----------------------------------------

  /** Reading from `p` to `q` recorded every modifier passed, and kept what was recorded before. */
  ghost predicate Noted(ts: seq<Token>, p: Progress, q: Progress)
    requires p.position <= q.position <= |ts|
  {
    && (p.sort.Some? ==> q.sort == p.sort)
    && (p.take.Some? ==> q.take == p.take)
    && forall k :: p.position <= k < q.position && IsModifier(ts[k]) ==>
         match ParseModifier(ts[k].key.value, ts[k].value)
         case Ok(Order(sort)) => q.sort == Some(sort)
         case Ok(Cap(take)) => q.take == Some(take)
         case _ => false
  }

  /** What every grammar rule keeps, from `p` to `q`. */
  ghost predicate Clean(ts: seq<Token>, p: Progress, q: Progress) {
    p.position <= q.position <= |ts| && OperatorsFit(ts, p.position, q.position) && Noted(ts, p, q)
  }

  /** Reading a term keeps what was recorded and records what it says. */
  lemma ReadTermNotes(p: Progress, key: Option<string>, value: string, top: bool)
    requires ReadTerm(p, key, value, top).Ok?
    ensures var q, e := ReadTerm(p, key, value, top).value.progress, ReadTerm(p, key, value, top).value.value;
            && q.position == p.position
            && (p.sort.Some? ==> q.sort == p.sort) && (p.take.Some? ==> q.take == p.take)
            && (key.Some? && IsModifierKey(key.value) ==>
                  && e.None?
                  && match ParseModifier(key.value, value)
                     case Ok(Order(sort)) => q.sort == Some(sort)
                     case Ok(Cap(take)) => q.take == Some(take)
                     case _ => false)
  {
    hide ParseCondition;
    if key.Some? && IsModifierKey(key.value) {
      ModifierIsNoLeaf(key.value, value);
    }
  }

  lemma ModifierIsNoLeaf(key: string, value: string)
    requires IsModifierKey(key)
    ensures ParseModifier(key, value).Ok? ==> !ParseModifier(key, value).value.Leaf?
  {
  }

  lemma TermIsClean(ts: seq<Token>, p: Progress, top: bool)
    requires p.position < |ts| && ts[p.position].Term? && Unary(ts, p, top).Ok?
    ensures Clean(ts, p, Unary(ts, p, top).value.progress)
    ensures Unary(ts, p, top).value.value.Some? ==> Yields(ts, p.position)
  {
    hide ReadTerm, ParseModifier, IsModifierKey, InGroup;
    ReadTermNotes(Moved(p), ts[p.position].key, ts[p.position].value, top);
  }

  /** A parsed group whose value is an expression holds a condition. */
  lemma GroupYields(ts: seq<Token>, p: Progress, q: Progress, leaves: seq<Condition>)
    requires At(ts, p, Open) && Accounts(ts, Moved(p), q, false, leaves) && leaves != []
    ensures Yields(ts, p.position)
  {
    hide TermConditions, TermsReadable, ModifiersAtTop, Depth;
    var body := Consumed(ts, Moved(p), q);
    var i := SomeCondition(body);
    assert ts[p.position + 1 + i] == body[i];
    InsideGroup(ts, p.position, body, i);
  }

  /** What follows an opening parenthesis and never dips below it is inside its group. */
  lemma InsideGroup(ts: seq<Token>, open: nat, body: seq<Token>, i: nat)
    requires open + 1 + |body| <= |ts| && ts[open].Open? && body == ts[open + 1..open + 1 + |body|]
    requires Balanced(body) && i < |body|
    ensures InGroup(ts, open, open + 1 + i)
  {
    hide Depth;
    forall n | open < n <= open + 1 + i
      ensures Depth(ts[open..n]) >= 1
    {
      assert ts[open..n] == [Open] + body[..n - open - 1];
      DepthAppend([Open], body[..n - open - 1]);
      DepthOfOpen();
    }
  }

  lemma DepthOfOpen()
    ensures Depth([Open]) == 1
  {
    assert [Open][..0] == [];
  }

  lemma {:induction false} SomeCondition(ts: seq<Token>) returns (i: nat)
    requires TermConditions(ts) != []
    ensures i < |ts| && IsConditionTerm(ts[i])
  {
    if IsConditionTerm(ts[0]) {
      i := 0;
    } else {
      i := SomeCondition(ts[1..]);
      i := i + 1;
    }
  }

  lemma {:induction false} UnaryIsClean(ts: seq<Token>, p: Progress, top: bool)
    requires p.position <= |ts| && Unary(ts, p, top).Ok?
    ensures Clean(ts, p, Unary(ts, p, top).value.progress)
    ensures Unary(ts, p, top).value.value.Some? ==> Yields(ts, p.position)
    decreases |ts| - p.position, 0
  {
    hide ReadTerm, Alternatives, Accounts, InGroup, ParseModifier;
    var q := Unary(ts, p, top).value.progress;
    match ts[p.position]
    case Not =>
      UnaryIsClean(ts, Moved(p), false);
    case Open =>
      var inner := Alternatives(ts, Moved(p), false).value;
      AlternativesAreClean(ts, Moved(p), false);
      if inner.value.Some? {
        AlternativesAccount(ts, Moved(p), false);
        SomeLeaf(inner.value.value);
        GroupYields(ts, p, inner.progress, OptionLeaves(inner.value));
      }
    case Term(key, value) =>
      TermIsClean(ts, p, top);
  }

  lemma SomeLeaf(e: Expression)
    requires Normal(e)
    ensures OptionLeaves(Some(e)) != []
  {
    OneLeaf(e);
    NormalHasLeaf(e);
  }

  lemma {:induction false} NormalHasLeaf(e: Expression)
    requires Normal(e)
    ensures Leaves(e) != []
  {
    match e
    case Leaf(_) =>
    case Not(inner) => NormalHasLeaf(inner);
    case All(children) => NormalHasLeaf(children[0]);
    case Any(children) => NormalHasLeaf(children[0]);
  }

  lemma {:induction false} ConditionsAreClean(ts: seq<Token>, p: Progress, top: bool)
    requires p.position <= |ts| && Conditions(ts, p, top).Ok?
    ensures Clean(ts, p, Conditions(ts, p, top).value.progress)
    decreases |ts| - p.position, 1
  {
    hide Unary, Yields, ParseModifier;
    if p.position == |ts| || ts[p.position].Or? || ts[p.position].Close? {
    } else if ts[p.position].And? {
      ConditionsAreClean(ts, Moved(p), top);
    } else {
      var first := Unary(ts, p, top).value;
      UnaryIsClean(ts, p, top);
      ConditionsAreClean(ts, first.progress, top);
    }
  }

  lemma {:induction false} BranchesAreClean(ts: seq<Token>, p: Progress, top: bool)
    requires p.position <= |ts| && Branches(ts, p, top).Ok?
    ensures Clean(ts, p, Branches(ts, p, top).value.progress)
    decreases |ts| - p.position, 3
  {
    hide Conditions, Yields, ParseModifier;
    ConditionsAreClean(ts, p, top);
    var q := Branch(ts, p, top).value.progress;
    if At(ts, q, Or) {
      BranchesAreClean(ts, Moved(q), top);
    }
  }

  lemma {:induction false} AlternativesAreClean(ts: seq<Token>, p: Progress, top: bool)
    requires p.position <= |ts| && Alternatives(ts, p, top).Ok?
    ensures Clean(ts, p, Alternatives(ts, p, top).value.progress)
    decreases |ts| - p.position, 4
  {
    BranchesAreClean(ts, p, top);
  }

  lemma AcceptedIsAcceptable(ts: seq<Token>)
    requires ParseTokens(ts).Ok?
    ensures Acceptable(ts)
  {
    hide Alternatives, OperatorsFit, ParseModifier, Noted, TermConditions, ModifiersSay, IsModifier;
    var q := Alternatives(ts, START, true).value.progress;
    AlternativesAccount(ts, START, true);
    AlternativesAreClean(ts, START, true);
    assert Consumed(ts, START, q) == ts;
    NotedAgree(ts, q);
  }

  lemma NotedAgree(ts: seq<Token>, q: Progress)
    requires q.position == |ts| && Noted(ts, START, q)
    ensures ModifiersAgree(ts)
  {
    hide ParseModifier;
    assert ModifiersSay(ts, q.sort.GetOr(Newest), q.take.GetOr(Take(Newest, 1)));
  }

  // ---- what meets it is accepted -----------------------------------------

  /** The condition, with what the modifiers say. */
  ghost predicate Fine(ts: seq<Token>, sort: SortOrder, take: Take) {
    && Balanced(ts) && TermsReadable(ts) && |TermConditions(ts)| <= MAX_FILTER_PREDICATES
    && ModifiersAtTop(ts, true) && ModifiersSay(ts, sort, take) && OperatorsFit(ts, 0, |ts|)
  }

  /** The parser has counted the conditions before `p`, and recorded nothing that later modifiers contradict. */
  ghost predicate Counted(ts: seq<Token>, p: Progress, sort: SortOrder, take: Take) {
    && p.position <= |ts|
    && p.predicates == |TermConditions(ts[..p.position])|
    && (p.sort.Some? ==> p.sort == Some(sort))
    && (p.take.Some? ==> p.take == Some(take))
  }

  /** Below the top the parser is inside a group, or right after a negation. */
  ghost predicate Placed(ts: seq<Token>, p: Progress, top: bool)
    requires p.position <= |ts|
  {
    top || Depth(ts[..p.position]) >= 1 || (p.position > 0 && ts[p.position - 1].Not?)
  }

  /** Reading a balanced stretch changes neither the depth nor the count. */
  lemma StretchPassed(
    ts: seq<Token>, p: Progress, q: Progress, top: bool, leaves: seq<Condition>, sort: SortOrder, take: Take)
    requires Counted(ts, p, sort, take) && Accounts(ts, p, q, top, leaves)
    ensures q.predicates == |TermConditions(ts[..q.position])|
    ensures Depth(ts[..q.position]) == Depth(ts[..p.position])
  {
    var seg := Consumed(ts, p, q);
    assert ts[..q.position] == ts[..p.position] + seg;
    ConditionsAppend(ts[..p.position], seg);
    DepthAppend(ts[..p.position], seg);
  }

  lemma DepthNext(ts: seq<Token>, k: nat)
    requires k < |ts|
    ensures Depth(ts[..k + 1]) == Depth(ts[..k]) + (if ts[k].Open? then 1 else if ts[k].Close? then -1 else 0)
  {
    assert ts[..k + 1][..k] == ts[..k];
  }

  lemma CountNext(ts: seq<Token>, k: nat)
    requires k < |ts| && TermsReadable(ts)
    ensures |TermConditions(ts[..k + 1])| == |TermConditions(ts[..k])| + (if IsConditionTerm(ts[k]) then 1 else 0)
    ensures |TermConditions(ts[..k + 1])| <= |TermConditions(ts)|
  {
    assert ts[..k + 1] == ts[..k] + [ts[k]];
    ConditionsAppend(ts[..k], [ts[k]]);
    assert [ts[k]][1..] == [];
    assert ts == ts[..k + 1] + ts[k + 1..];
    ConditionsAppend(ts[..k + 1], ts[k + 1..]);
  }

  lemma TermSucceeds(ts: seq<Token>, p: Progress, top: bool, sort: SortOrder, take: Take)
    requires Fine(ts, sort, take) && Counted(ts, p, sort, take)
    requires p.position < |ts| && ts[p.position].Term? && Placed(ts, p, top)
    ensures Unary(ts, p, top).Ok?
    ensures Counted(ts, Unary(ts, p, top).value.progress, sort, take)
    ensures Unary(ts, p, top).value.progress.position == p.position + 1
  {
    hide OperatorsFit, TermConditions, Balanced;
    var k := p.position;
    CountNext(ts, k);
    if IsModifier(ts[k]) {
      assert top;
      assert Says(ts[k], sort, take);
    }
  }

  /** A group that holds a condition yields an expression when it is read to its end. */
  lemma YieldsIsRead(ts: seq<Token>, p: Progress, q: Progress, top: bool, e: Option<Expression>)
    requires Accounts(ts, p, q, top, OptionLeaves(e)) && p.position < q.position
    requires Yields(ts, p.position) && !ts[p.position].Not?
    ensures e.Some?
  {
    hide Balanced, TermConditions, ModifiersAtTop, Depth;
    var k := p.position;
    var seg := Consumed(ts, p, q);
    BalancedDepth(seg);
    if e.None? {
      assert TermConditions(seg) == [];
      if ts[k].Open? {
        var j: nat :| InGroup(ts, k, j) && IsConditionTerm(ts[j]);
        assert ts[k..q.position] == seg;
        if j < q.position {
          NoConditionHere(seg, j - k);
        }
      } else {
        NoConditionHere(seg, 0);
      }
    }
  }

  lemma BalancedDepth(ts: seq<Token>)
    requires Balanced(ts)
    ensures Depth(ts) == 0
  {
  }

  lemma NoConditionHere(ts: seq<Token>, i: nat)
    requires TermsReadable(ts) && TermConditions(ts) == [] && i < |ts|
    ensures !IsConditionTerm(ts[i])
  {
    hide TermConditions, ParseCondition, IsModifier;
    var before, after := ts[..i], ts[i + 1..];
    assert ts == before + ([ts[i]] + after);
    ConditionsAppend(before, [ts[i]] + after);
    ConditionsAppend([ts[i]], after);
    OneCondition(ts[i]);
  }

  lemma OneCondition(token: Token)
    requires IsConditionTerm(token) ==> ParseCondition(token.key, token.value).Ok?
    ensures TermConditions([token]) == [] ==> !IsConditionTerm(token)
  {
    assert [token][1..] == [];
  }

  lemma {:induction false} UnarySucceeds(ts: seq<Token>, p: Progress, top: bool, sort: SortOrder, take: Take)
    requires Fine(ts, sort, take) && Counted(ts, p, sort, take) && Placed(ts, p, top)
    requires p.position < |ts| && (ts[p.position].Not? || ts[p.position].Open? || ts[p.position].Term?)
    ensures Unary(ts, p, top).Ok?
    ensures Counted(ts, Unary(ts, p, top).value.progress, sort, take)
    ensures Depth(ts[..Unary(ts, p, top).value.progress.position]) == Depth(ts[..p.position])
    decreases |ts| - p.position, 0
  {
    hide Fine, ReadTerm, Alternatives, Accounts, TermConditions, Depth, Yields, TermsReadable, OptionLeaves;
    var k := p.position;
    DepthNext(ts, k);
    PassToken(ts, p, sort, take);
    match ts[k]
    case Not =>
      NegatedOperand(ts, k, sort, take);
      UnarySucceeds(ts, Moved(p), false, sort, take);
      UnaryAccounts(ts, Moved(p), false);
      var inner := Unary(ts, Moved(p), false).value;
      if !ts[k + 1].Not? {
        YieldsIsRead(ts, Moved(p), inner.progress, false, inner.value);
      }
      UnaryAccounts(ts, p, top);
      var parsed := Unary(ts, p, top).value;
      StretchPassed(ts, p, parsed.progress, top, OptionLeaves(parsed.value), sort, take);
    case Open =>
      DepthIsNatural(ts, k, sort, take);
      AlternativesSucceed(ts, Moved(p), false, sort, take);
      var q := Alternatives(ts, Moved(p), false).value.progress;
      AlternativesStop(ts, Moved(p), false);
      GroupCloses(ts, q, sort, take);
      DepthNext(ts, q.position);
      PassToken(ts, q, sort, take);
    case Term(_, _) =>
      TermSucceeds(ts, p, top, sort, take);
  }

  /** Passing a token that is no term. */
  lemma PassToken(ts: seq<Token>, p: Progress, sort: SortOrder, take: Take)
    requires Fine(ts, sort, take) && Counted(ts, p, sort, take) && p.position < |ts|
    ensures !ts[p.position].Term? ==> Counted(ts, Moved(p), sort, take)
  {
    hide Balanced, OperatorsFit, TermConditions;
    CountNext(ts, p.position);
  }

  lemma NegatedOperand(ts: seq<Token>, k: nat, sort: SortOrder, take: Take)
    requires Fine(ts, sort, take) && k < |ts| && ts[k].Not?
    ensures Yields(ts, k + 1) && k + 1 < |ts| && (ts[k + 1].Not? || ts[k + 1].Open? || ts[k + 1].Term?)
  {
  }

  lemma DepthIsNatural(ts: seq<Token>, k: nat, sort: SortOrder, take: Take)
    requires Fine(ts, sort, take) && k <= |ts|
    ensures Depth(ts[..k]) >= 0
  {
  }

  /** Where a group's body ends inside a group of balanced tokens, there is its closing parenthesis. */
  lemma GroupCloses(ts: seq<Token>, q: Progress, sort: SortOrder, take: Take)
    requires Fine(ts, sort, take) && q.position <= |ts| && Depth(ts[..q.position]) >= 1
    requires q.position == |ts| || ts[q.position].Close?
    ensures At(ts, q, Close)
  {
    assert ts[..|ts|] == ts;
  }

  /** A conjunction stops at an `or`, a closing parenthesis or the end; alternatives stop at the last two. */
  lemma {:induction false} ConditionsStop(ts: seq<Token>, p: Progress, top: bool)
    requires p.position <= |ts| && Conditions(ts, p, top).Ok?
    ensures Stops(ts, Conditions(ts, p, top).value.progress.position)
    decreases |ts| - p.position
  {
    hide Unary;
    if p.position == |ts| || ts[p.position].Or? || ts[p.position].Close? {
    } else if ts[p.position].And? {
      ConditionsStop(ts, Moved(p), top);
    } else {
      ConditionsStop(ts, Unary(ts, p, top).value.progress, top);
    }
  }

  lemma {:induction false} BranchesStop(ts: seq<Token>, p: Progress, top: bool)
    requires p.position <= |ts| && Branches(ts, p, top).Ok?
    ensures var at := Branches(ts, p, top).value.progress.position; at == |ts| || ts[at].Close?
    decreases |ts| - p.position
  {
    hide Conditions;
    ConditionsStop(ts, p, top);
    var q := Branch(ts, p, top).value.progress;
    if At(ts, q, Or) {
      BranchesStop(ts, Moved(q), top);
    }
  }

  lemma AlternativesStop(ts: seq<Token>, p: Progress, top: bool)
    requires p.position <= |ts| && Alternatives(ts, p, top).Ok?
    ensures var at := Alternatives(ts, p, top).value.progress.position; at == |ts| || ts[at].Close?
  {
    BranchesStop(ts, p, top);
  }

  lemma {:induction false} ConditionsSucceed(ts: seq<Token>, p: Progress, top: bool, sort: SortOrder, take: Take)
    requires Fine(ts, sort, take) && Counted(ts, p, sort, take) && (top || Depth(ts[..p.position]) >= 1)
    ensures Conditions(ts, p, top).Ok?
    ensures Counted(ts, Conditions(ts, p, top).value.progress, sort, take)
    ensures Depth(ts[..Conditions(ts, p, top).value.progress.position]) == Depth(ts[..p.position])
    decreases |ts| - p.position, 1
  {
    hide Fine, Unary, TermConditions, Depth;
    if p.position == |ts| || ts[p.position].Or? || ts[p.position].Close? {
    } else {
      DepthNext(ts, p.position);
      PassToken(ts, p, sort, take);
      if ts[p.position].And? {
        OperatorIsNotLast(ts, p.position, sort, take);
        ConditionsSucceed(ts, Moved(p), top, sort, take);
      } else {
        UnarySucceeds(ts, p, top, sort, take);
        ConditionsSucceed(ts, Unary(ts, p, top).value.progress, top, sort, take);
      }
    }
  }

  lemma OperatorIsNotLast(ts: seq<Token>, k: nat, sort: SortOrder, take: Take)
    requires Fine(ts, sort, take) && k < |ts| && (ts[k].And? || ts[k].Or?)
    ensures k + 1 < |ts|
  {
  }

  lemma {:induction false} BranchesSucceed(ts: seq<Token>, p: Progress, top: bool, sort: SortOrder, take: Take)
    requires Fine(ts, sort, take) && Counted(ts, p, sort, take) && (top || Depth(ts[..p.position]) >= 1)
    ensures Branches(ts, p, top).Ok?
    ensures Counted(ts, Branches(ts, p, top).value.progress, sort, take)
    ensures Depth(ts[..Branches(ts, p, top).value.progress.position]) == Depth(ts[..p.position])
    decreases |ts| - p.position, 3
  {
    hide Fine, Conditions, TermConditions, Depth;
    ConditionsSucceed(ts, p, top, sort, take);
    var q := Branch(ts, p, top).value.progress;
    if At(ts, q, Or) {
      OperatorIsNotLast(ts, q.position, sort, take);
      DepthNext(ts, q.position);
      PassToken(ts, q, sort, take);
      BranchesSucceed(ts, Moved(q), top, sort, take);
    }
  }

  lemma {:induction false} AlternativesSucceed(ts: seq<Token>, p: Progress, top: bool, sort: SortOrder, take: Take)
    requires Fine(ts, sort, take) && Counted(ts, p, sort, take) && (top || Depth(ts[..p.position]) >= 1)
    ensures Alternatives(ts, p, top).Ok?
    ensures Counted(ts, Alternatives(ts, p, top).value.progress, sort, take)
    ensures Depth(ts[..Alternatives(ts, p, top).value.progress.position]) == Depth(ts[..p.position])
    decreases |ts| - p.position, 4
  {
    hide Fine, Counted, Depth;
    BranchesSucceed(ts, p, top, sort, take);
  }

  lemma AcceptableIsAccepted(ts: seq<Token>)
    requires Acceptable(ts)
    ensures ParseTokens(ts).Ok?
  {
    hide OperatorsFit, ModifiersSay, Alternatives;
    var sort: SortOrder, take: Take :| ModifiersSay(ts, sort, take);
    assert ts[..0] == [] && Depth([]) == 0;
    AlternativesSucceed(ts, START, true, sort, take);
    AlternativesStop(ts, START, true);
    var at := Alternatives(ts, START, true).value.progress.position;
    if at < |ts| {
      DepthNext(ts, at);
    }
  }

  // ---- theorems ----------------------------------------------------------

  /**
   * The parser accepts a token list exactly when its parentheses balance, its terms are
   * readable and at most 32, its modifiers stand at the top and agree, every `not` is
   * followed by an operand that yields an expression, and the last token is no operator.
   * Nothing else about `and` and `or` matters: they may lead, repeat, or end a group.
   */
  lemma AcceptedIff(ts: seq<Token>)
    ensures ParseTokens(ts).Ok? <==> Acceptable(ts)
  {
    if ParseTokens(ts).Ok? {
      AcceptedIsAcceptable(ts);
    }
    if Acceptable(ts) {
      AcceptableIsAccepted(ts);
    }
  }

  /** For texts: short enough, every quote closed, and the tokens acceptable. */
  lemma AcceptedTextIff(input: string)
    ensures ParseFilter(input).Ok? <==>
            ByteLen(input) <= 1_024 && Lex(input).Ok? && Acceptable(Lex(input).value)
  {
    hide Acceptable, ParseTokens, Lex, ByteLen;
    if Lex(input).Ok? {
      AcceptedIff(Lex(input).value);
    }
  }
}
