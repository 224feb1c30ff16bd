/** What every accepted filter looks like: its leaves, its shape, its parentheses and its modifiers. */
module FilterStructure {
  import opened Wrappers
  import opened FilterLexer
  import opened FilterValues
  import opened FilterParser

  // ---- expressions -------------------------------------------------------

  /** The conditions of an expression, depth first. */
  function Leaves(e: Expression): seq<Condition>
    decreases e, 0
  {
    match e
    case All(children) => LeavesOf(children)
    case Any(children) => LeavesOf(children)
    case Not(inner) => Leaves(inner)
    case Leaf(condition) => [condition]
  }

  function LeavesOf(es: seq<Expression>): seq<Condition>
    decreases es, 1
  {
    if es == [] then [] else Leaves(es[0]) + LeavesOf(es[1..])
  }

  function OptionLeaves(e: Option<Expression>): seq<Condition> {
    LeavesOf(Listed(e))
  }

  /** Every `All` and `Any` combines at least two parts. */
  predicate Normal(e: Expression) {
    match e
    case All(children) => |children| >= 2 && forall i :: 0 <= i < |children| ==> Normal(children[i])
    case Any(children) => |children| >= 2 && forall i :: 0 <= i < |children| ==> Normal(children[i])
    case Not(inner) => Normal(inner)
    case Leaf(_) => true
  }

  predicate AllNormal(es: seq<Expression>) {
    forall i :: 0 <= i < |es| ==> Normal(es[i])
  }

  lemma {:induction false} LeavesAppend(a: seq<Expression>, b: seq<Expression>)
    ensures LeavesOf(a + b) == LeavesOf(a) + LeavesOf(b)
  {
    if a == [] {
      assert a + b == b;
    } else {
      assert (a + b)[1..] == a[1..] + b;
      LeavesAppend(a[1..], b);
    }
  }

  lemma OneLeaf(e: Expression)
    ensures LeavesOf([e]) == Leaves(e)
  {
    assert [e][1..] == [];
    assert Leaves(e) + [] == Leaves(e);
  }

  // ---- token stretches ---------------------------------------------------

  predicate IsModifier(token: Token) {
    token.Term? && token.key.Some? && IsModifierKey(token.key.value)
  }

  /** The conditions of the non-modifier terms, in source order. */
  function TermConditions(ts: seq<Token>): seq<Condition> {
    if ts == [] then []
    else
      (if ts[0].Term? && !IsModifier(ts[0]) && ParseCondition(ts[0].key, ts[0].value).Ok?
       then [ParseCondition(ts[0].key, ts[0].value).value] else [])
      + TermConditions(ts[1..])
  }

  /** Every non-modifier term states a condition, so none is dropped from `TermConditions`. */
  predicate TermsReadable(ts: seq<Token>) {
    forall i :: 0 <= i < |ts| && ts[i].Term? && !IsModifier(ts[i]) ==> ParseCondition(ts[i].key, ts[i].value).Ok?
  }

  /** Open parentheses minus closing ones. */
  function Depth(ts: seq<Token>): int {
    if ts == [] then 0
    else
      Depth(ts[..|ts| - 1]) + (if ts[|ts| - 1].Open? then 1 else if ts[|ts| - 1].Close? then -1 else 0)
  }

  ghost predicate Balanced(ts: seq<Token>) {
    Depth(ts) == 0 && forall k :: 0 <= k <= |ts| ==> Depth(ts[..k]) >= 0
  }

  /** Modifiers stand outside all parentheses and are not negated; none at all below the top. */
  ghost predicate ModifiersAtTop(ts: seq<Token>, top: bool) {
    forall k :: 0 <= k < |ts| && IsModifier(ts[k]) ==>
      top && Depth(ts[..k]) == 0 && (k > 0 ==> !ts[k - 1].Not?)
  }

  lemma {:induction false} ConditionsAppend(a: seq<Token>, b: seq<Token>)
    ensures TermConditions(a + b) == TermConditions(a) + TermConditions(b)
  {
    if a == [] {
      assert a + b == b;
    } else {
      assert (a + b)[1..] == a[1..] + b;
      ConditionsAppend(a[1..], b);
    }
  }

  lemma NoCondition(token: Token)
    requires !token.Term?
    ensures TermConditions([token]) == []
  {
    assert [token][1..] == [];
  }

  lemma {:induction false} DepthAppend(a: seq<Token>, b: seq<Token>)
    ensures Depth(a + b) == Depth(a) + Depth(b)
    decreases |b|
  {
    if b == [] {
      assert a + b == a;
    } else {
      assert (a + b)[..|a + b| - 1] == a + b[..|b| - 1];
      DepthAppend(a, b[..|b| - 1]);
    }
  }

  lemma DepthOfPrefix(a: seq<Token>, b: seq<Token>, k: nat)
    requires k <= |a| + |b|
    ensures Depth((a + b)[..k]) == if k <= |a| then Depth(a[..k]) else Depth(a) + Depth(b[..k - |a|])
  {
    if k <= |a| {
      assert (a + b)[..k] == a[..k];
    } else {
      assert (a + b)[..k] == a + b[..k - |a|];
      DepthAppend(a, b[..k - |a|]);
    }
  }

  /** What a parsed stretch of tokens satisfies, whatever grammar rule parsed it. */
  ghost predicate Stretch(ts: seq<Token>, top: bool) {
    TermsReadable(ts) && Balanced(ts) && ModifiersAtTop(ts, top)
  }

  /** Two stretches in a row are a stretch, when the first does not end by negating the second. */
  lemma StretchAppend(a: seq<Token>, b: seq<Token>, top: bool)
    requires Stretch(a, top) && Stretch(b, top)
    requires a != [] && top ==> !a[|a| - 1].Not?
    ensures Stretch(a + b, top)
  {
    DepthAppend(a, b);
    forall k | 0 <= k <= |a + b|
      ensures Depth((a + b)[..k]) >= 0
    {
      DepthOfPrefix(a, b, k);
    }
    forall k | 0 <= k < |a + b| && IsModifier((a + b)[k])
      ensures top && Depth((a + b)[..k]) == 0 && (k > 0 ==> !(a + b)[k - 1].Not?)
    {
      DepthOfPrefix(a, b, k);
    }
  }

  lemma StretchOfOne(token: Token, top: bool)
    requires !token.Open? && !token.Close?
    requires token.Term? && !IsModifier(token) ==> ParseCondition(token.key, token.value).Ok?
    requires IsModifier(token) ==> top
    ensures Stretch([token], top)
  {
    assert [token][..0] == [] && [token][..1] == [token];
    assert Depth([token]) == Depth([]) == 0;
  }

  lemma StretchNegated(b: seq<Token>, top: bool)
    requires Stretch(b, false)
    ensures Stretch([Token.Not] + b, top)
  {
    StretchOfOne(Token.Not, false);
    StretchAppend([Token.Not], b, false);
  }

  lemma StretchWrapped(b: seq<Token>, top: bool)
    requires Stretch(b, false)
    ensures Stretch([Open] + b + [Close], top)
  {
    var ts := [Open] + b + [Close];
    assert [Open][..0] == [] && [Open][..1] == [Open] && [Close][..0] == [] && [Close][..1] == [Close];
    assert Depth([Open]) == 1 && Depth([Close]) == -1;
    DepthAppend([Open] + b, [Close]);
    DepthAppend([Open], b);
    forall k | 0 <= k <= |ts|
      ensures Depth(ts[..k]) >= 0
    {
      DepthOfPrefix([Open] + b, [Close], k);
      if k <= |b| + 1 {
        DepthOfPrefix([Open], b, k);
      }
    }
  }

  // ---- what the grammar accepts -----------------------------------------

  /** A conjunction ends where the tokens, an alternative or a group ends. */
  predicate Stops(ts: seq<Token>, at: nat) {
    at >= |ts| || ts[at].Or? || ts[at].Close?
  }

  function Consumed(ts: seq<Token>, p: Progress, q: Progress): seq<Token>
    requires p.position <= q.position <= |ts|
  {
    ts[p.position..q.position]
  }

  /** Parsing from `p` to `q` read exactly the conditions `leaves` and counted them. */
  ghost predicate Accounts(ts: seq<Token>, p: Progress, q: Progress, top: bool, leaves: seq<Condition>) {
    && p.position <= q.position <= |ts|
    && leaves == TermConditions(Consumed(ts, p, q))
    && q.predicates == p.predicates + |leaves|
    && (leaves != [] ==> q.predicates <= MAX_FILTER_PREDICATES)
    && Stretch(Consumed(ts, p, q), top)
  }

  /** No rule ends right after a negation, so the next rule's first token is never negated. */
  ghost predicate EndsClean(ts: seq<Token>, p: Progress, q: Progress) {
    p.position < q.position <= |ts| ==> !ts[q.position - 1].Not?
  }

  lemma AccountsAppend(
    ts: seq<Token>, p: Progress, q: Progress, r: Progress, top: bool, a: seq<Condition>, b: seq<Condition>)
    requires Accounts(ts, p, q, top, a) && Accounts(ts, q, r, top, b) && EndsClean(ts, p, q)
    ensures Accounts(ts, p, r, top, a + b)
  {
    hide Stretch, TermConditions;
    assert Consumed(ts, p, r) == Consumed(ts, p, q) + Consumed(ts, q, r);
    ConditionsAppend(Consumed(ts, p, q), Consumed(ts, q, r));
    StretchAppend(Consumed(ts, p, q), Consumed(ts, q, r), top);
  }

  /** Passing over an `and` or an `or`. */
  lemma AccountsOperator(ts: seq<Token>, p: Progress, top: bool)
    requires p.position < |ts| && (ts[p.position].And? || ts[p.position].Or?)
    ensures Accounts(ts, p, Moved(p), top, []) && EndsClean(ts, p, Moved(p))
  {
    assert Consumed(ts, p, Moved(p)) == [ts[p.position]];
    StretchOfOne(ts[p.position], top);
  }

  lemma TermAccounts(ts: seq<Token>, p: Progress, top: bool)
    requires p.position < |ts| && ts[p.position].Term? && Unary(ts, p, top).Ok?
    ensures var r := Unary(ts, p, top).value;
            && Accounts(ts, p, r.progress, top, OptionLeaves(r.value))
            && AllNormal(Listed(r.value)) && EndsClean(ts, p, r.progress)
  {
    var token := ts[p.position];
    var r := Unary(ts, p, top).value;
    assert Consumed(ts, p, r.progress) == [token];
    StretchOfOne(token, top);
    assert [token][1..] == [];
    if r.value.Some? {
      OneLeaf(r.value.value);
    }
  }

  lemma NegationAccounts(ts: seq<Token>, p: Progress, q: Progress, top: bool, e: Expression)
    requires p.position < |ts| && ts[p.position].Not?
    requires Accounts(ts, Moved(p), q, false, OptionLeaves(Some(e)))
    ensures Accounts(ts, p, q, top, OptionLeaves(Some(Expression.Not(e))))
  {
    hide Stretch, TermConditions, Leaves, LeavesOf;
    var seg := Consumed(ts, Moved(p), q);
    ConsumedNext(ts, p, q);
    StretchNegated(seg, top);
    ConditionsAppend([Token.Not], seg);
    NoCondition(Token.Not);
    SameLeaves(e);
    assert [] + TermConditions(seg) == TermConditions(seg);
  }

  lemma ConsumedNext(ts: seq<Token>, p: Progress, q: Progress)
    requires p.position < q.position <= |ts|
    ensures Consumed(ts, p, q) == [ts[p.position]] + Consumed(ts, Moved(p), q)
  {
  }

  lemma SameLeaves(e: Expression)
    ensures OptionLeaves(Some(Expression.Not(e))) == OptionLeaves(Some(e))
  {
    OneLeaf(e);
    OneLeaf(Expression.Not(e));
  }

  lemma GroupAccounts(ts: seq<Token>, p: Progress, q: Progress, top: bool, leaves: seq<Condition>)
    requires At(ts, p, Open) && At(ts, q, Close)
    requires Accounts(ts, Moved(p), q, false, leaves)
    ensures Accounts(ts, p, Moved(q), top, leaves)
  {
    hide Stretch, TermConditions;
    var seg := Consumed(ts, Moved(p), q);
    assert Consumed(ts, p, Moved(q)) == [Open] + seg + [Close];
    StretchWrapped(seg, top);
    ConditionsAppend([Open] + seg, [Close]);
    ConditionsAppend([Open], seg);
    NoCondition(Open);
    NoCondition(Close);
  }

  lemma {:induction false} UnaryAccounts(ts: seq<Token>, p: Progress, top: bool)
    requires p.position <= |ts| && Unary(ts, p, top).Ok?
    ensures var r := Unary(ts, p, top).value;
            && Accounts(ts, p, r.progress, top, OptionLeaves(r.value))
            && AllNormal(Listed(r.value)) && EndsClean(ts, p, r.progress)
    decreases |ts| - p.position, 0
  {
    hide Accounts, ReadTerm, Alternatives;
    match ts[p.position]
    case Not =>
      UnaryAccounts(ts, Moved(p), false);
      var inner := Unary(ts, Moved(p), false).value;
      NegationAccounts(ts, p, inner.progress, top, inner.value.value);
      assert Listed(inner.value)[0] == inner.value.value;
    case Open =>
      AlternativesAccount(ts, Moved(p), false);
      var inner := Alternatives(ts, Moved(p), false).value;
      GroupAccounts(ts, p, inner.progress, top, OptionLeaves(inner.value));
    case Term(key, value) =>
      TermAccounts(ts, p, top);
  }

  lemma NothingConsumed(ts: seq<Token>, p: Progress, top: bool)
    requires p.position <= |ts|
    ensures Accounts(ts, p, p, top, [])
  {
    assert Consumed(ts, p, p) == [];
  }

  lemma {:induction false} ConditionsAccount(ts: seq<Token>, p: Progress, top: bool)
    requires p.position <= |ts| && Conditions(ts, p, top).Ok?
    ensures var r := Conditions(ts, p, top).value;
            && Accounts(ts, p, r.progress, top, LeavesOf(r.value))
            && AllNormal(r.value) && EndsClean(ts, p, r.progress)
    decreases |ts| - p.position, 1
  {
    hide Accounts, Unary;
    if p.position == |ts| || ts[p.position].Or? || ts[p.position].Close? {
      NothingConsumed(ts, p, top);
    } else if ts[p.position].And? {
      var r := Conditions(ts, Moved(p), top).value;
      AccountsOperator(ts, p, top);
      ConditionsAccount(ts, Moved(p), top);
      AccountsAppend(ts, p, Moved(p), r.progress, top, [], LeavesOf(r.value));
      assert [] + LeavesOf(r.value) == LeavesOf(r.value);
    } else {
      var first := Unary(ts, p, top).value;
      var rest := Conditions(ts, first.progress, top).value;
      UnaryAccounts(ts, p, top);
      ConditionsAccount(ts, first.progress, top);
      AccountsAppend(ts, p, first.progress, rest.progress, top, OptionLeaves(first.value), LeavesOf(rest.value));
      LeavesAppend(Listed(first.value), rest.value);
    }
  }

  lemma CollapseKeepsLeaves(parts: seq<Expression>, combined: Expression)
    requires combined == All(parts) || combined == Any(parts)
    requires AllNormal(parts)
    ensures OptionLeaves(Collapse(parts, combined)) == LeavesOf(parts)
    ensures AllNormal(Listed(Collapse(parts, combined)))
  {
    if |parts| == 1 {
      assert [parts[0]] == parts;
    } else if |parts| >= 2 {
      OneLeaf(combined);
    }
  }

  lemma {:induction false} BranchAccounts(ts: seq<Token>, p: Progress, top: bool)
    requires p.position <= |ts| && Branch(ts, p, top).Ok?
    ensures var r := Branch(ts, p, top).value;
            && Accounts(ts, p, r.progress, top, OptionLeaves(r.value))
            && AllNormal(Listed(r.value)) && EndsClean(ts, p, r.progress)
    decreases |ts| - p.position, 2
  {
    ConditionsAccount(ts, p, top);
    var conditions := Conditions(ts, p, top).value.value;
    CollapseKeepsLeaves(conditions, All(conditions));
  }

  lemma {:induction false} BranchesAccount(ts: seq<Token>, p: Progress, top: bool)
    requires p.position <= |ts| && Branches(ts, p, top).Ok?
    ensures var r := Branches(ts, p, top).value;
            && Accounts(ts, p, r.progress, top, LeavesOf(r.value))
            && AllNormal(r.value) && EndsClean(ts, p, r.progress)
    decreases |ts| - p.position, 3
  {
    hide Accounts, Branch, LeavesOf, AllNormal;
    BranchAccounts(ts, p, top);
    var branch := Branch(ts, p, top).value;
    if At(ts, branch.progress, Or) {
      var q := Moved(branch.progress);
      var rest := Branches(ts, q, top).value;
      BranchesAccount(ts, q, top);
      AccountsOperator(ts, branch.progress, top);
      AccountsAppend(ts, p, branch.progress, q, top, OptionLeaves(branch.value), []);
      assert OptionLeaves(branch.value) + [] == OptionLeaves(branch.value);
      AccountsAppend(ts, p, q, rest.progress, top, OptionLeaves(branch.value), LeavesOf(rest.value));
      LeavesAppend(Listed(branch.value), rest.value);
      NormalAppend(Listed(branch.value), rest.value);
    }
  }

  lemma NormalAppend(a: seq<Expression>, b: seq<Expression>)
    requires AllNormal(a) && AllNormal(b)
    ensures AllNormal(a + b)
  {
  }

  lemma {:induction false} AlternativesAccount(ts: seq<Token>, p: Progress, top: bool)
    requires p.position <= |ts| && Alternatives(ts, p, top).Ok?
    ensures var r := Alternatives(ts, p, top).value;
            && Accounts(ts, p, r.progress, top, OptionLeaves(r.value))
            && AllNormal(Listed(r.value)) && EndsClean(ts, p, r.progress)
    decreases |ts| - p.position, 4
  {
    BranchesAccount(ts, p, top);
    var branches := Branches(ts, p, top).value.value;
    CollapseKeepsLeaves(branches, Any(branches));
  }

  /**
   * Every accepted filter: parentheses balance, modifiers stand only at the top level,
   * the leaves of the tree are exactly the non-modifier terms in source order, there
   * are at most 32 of them, and no combination has fewer than two parts.
   */
  lemma AcceptedFilters(input: string)
    requires ParseFilter(input).Ok?
    ensures Lex(input).Ok?
    ensures
      var ts, q := Lex(input).value, ParseFilter(input).value;
      && ts != []
      && Balanced(ts) && ModifiersAtTop(ts, true) && TermsReadable(ts)
      && OptionLeaves(q.expression) == TermConditions(ts)
      && |TermConditions(ts)| <= MAX_FILTER_PREDICATES
      && (q.expression.Some? ==> Normal(q.expression.value))
  {
    var ts := Lex(input).value;
    AlternativesAccount(ts, START, true);
    var r := Alternatives(ts, START, true).value;
    assert Consumed(ts, START, r.progress) == ts;
    assert r.value.Some? ==> Listed(r.value)[0] == r.value.value;
  }
}
