/** The recursive-descent parser: its grammar as functions, and the mutable parser that follows them. */
module FilterParser {
  import opened Wrappers
  import opened Text
  import opened FilterLexer
  import opened FilterValues

  const MAX_FILTER_LENGTH := 1_024
  const MAX_FILTER_PREDICATES := 32

  datatype Expression =
    | All(children: seq<Expression>)
    | Any(children: seq<Expression>)
    | Not(inner: Expression)
    | Leaf(condition: Condition)

  datatype Query = Query(expression: Option<Expression>, sort: SortOrder, take: Option<Take>)

  /** What the parser has recorded besides its result. */
  datatype Progress = Progress(position: nat, predicates: nat, sort: Option<SortOrder>, take: Option<Take>)

  datatype Parsed<+T> = Parsed(progress: Progress, value: T)

  type Outcome<+T> = Result<Parsed<T>, FilterError>

  const START := Progress(0, 0, None, None)

  // ---- the grammar -------------------------------------------------------

  function Moved(p: Progress): Progress {
    p.(position := p.position + 1)
  }

  predicate At(ts: seq<Token>, p: Progress, token: Token) {
    p.position < |ts| && ts[p.position] == token
  }

  /** Nothing, the only part, or a combination of at least two parts. */
  function Collapse(parts: seq<Expression>, combined: Expression): Option<Expression> {
    if parts == [] then None else if |parts| == 1 then Some(parts[0]) else Some(combined)
  }

  function Listed(part: Option<Expression>): seq<Expression> {
    if part.Some? then [part.value] else []
  }

  /** The parts already collected, in front of those still to come. */
  function Behind(collected: seq<Expression>, rest: Outcome<seq<Expression>>): Outcome<seq<Expression>> {
    match rest
    case Ok(parsed) => Ok(Parsed(parsed.progress, collected + parsed.value))
    case Err(e) => Err(e)
  }

  lemma BehindLaws(a: seq<Expression>, b: seq<Expression>, rest: Outcome<seq<Expression>>)
    ensures Behind([], rest) == rest
    ensures Behind(a, Behind(b, rest)) == Behind(a + b, rest)
    ensures rest.Ok? && rest.value.value == [] ==> Behind(a, rest) == Ok(Parsed(rest.value.progress, a))
  {
    if rest.Ok? {
      assert [] + rest.value.value == rest.value.value;
      assert a + (b + rest.value.value) == (a + b) + rest.value.value;
      assert a + [] == a;
    }
  }

  /** Records a modifier. Repeating it with the same value is harmless. */
  function Record(p: Progress, key: string, meaning: Meaning): Result<Progress, FilterError> {
    match meaning
    case Order(sort) =>
      if p.sort.Some? && p.sort.value != sort then Err(RepeatedModifier(key)) else Ok(p.(sort := Some(sort)))
    case Cap(take) =>
      if p.take.Some? && p.take.value != take then Err(RepeatedModifier(key)) else Ok(p.(take := Some(take)))
    case Leaf(_) => Ok(p)
  }

  function ReadTerm(p: Progress, key: Option<string>, value: string, top: bool): Outcome<Option<Expression>> {
    if key.Some? && IsModifierKey(key.value) then
      if !top then Err(MisplacedModifier(key.value))
      else
        var meaning :- ParseModifier(key.value, value);
        var p1 :- Record(p, key.value, meaning);
        Ok(Parsed(p1, None))
    else
      var condition :- ParseCondition(key, value);
      if p.predicates + 1 > MAX_FILTER_PREDICATES then Err(TooManyPredicates)
      else Ok(Parsed(p.(predicates := p.predicates + 1), Some(Expression.Leaf(condition))))
  }

  function Unary(ts: seq<Token>, p: Progress, top: bool): (r: Outcome<Option<Expression>>)
    requires p.position <= |ts|
    ensures r.Ok? ==> p.position < r.value.progress.position <= |ts|
    decreases |ts| - p.position, 0
  {
    if p.position == |ts| then Err(DanglingOperator)
    else
      match ts[p.position]
      case Not =>
        var inner :- Unary(ts, Moved(p), false);
        if inner.value.None? then Err(DanglingOperator)
        else Ok(Parsed(inner.progress, Some(Expression.Not(inner.value.value))))
      case Open =>
        var inner :- Alternatives(ts, Moved(p), false);
        if !At(ts, inner.progress, Close) then Err(UnbalancedParentheses)
        else Ok(Parsed(Moved(inner.progress), inner.value))
      case Close => Err(UnbalancedParentheses)
      case Term(key, value) => ReadTerm(Moved(p), key, value, top)
      case And => Err(DanglingOperator)
      case Or => Err(DanglingOperator)
  }

  /** The conditions up to the next `or`, closing parenthesis or end. */
  function Conditions(ts: seq<Token>, p: Progress, top: bool): (r: Outcome<seq<Expression>>)
    requires p.position <= |ts|
    ensures r.Ok? ==> p.position <= r.value.progress.position <= |ts|
    decreases |ts| - p.position, 1
  {
    if p.position == |ts| || ts[p.position].Or? || ts[p.position].Close? then Ok(Parsed(p, []))
    else if ts[p.position].And? then
      if p.position + 1 == |ts| then Err(DanglingOperator) else Conditions(ts, Moved(p), top)
    else
      var first :- Unary(ts, p, top);
      Behind(Listed(first.value), Conditions(ts, first.progress, top))
  }

  function Branch(ts: seq<Token>, p: Progress, top: bool): (r: Outcome<Option<Expression>>)
    requires p.position <= |ts|
    ensures r.Ok? ==> p.position <= r.value.progress.position <= |ts|
    decreases |ts| - p.position, 2
  {
    var conditions :- Conditions(ts, p, top);
    Ok(Parsed(conditions.progress, Collapse(conditions.value, All(conditions.value))))
  }

  /** The branches separated by `or`. */
  function Branches(ts: seq<Token>, p: Progress, top: bool): (r: Outcome<seq<Expression>>)
    requires p.position <= |ts|
    ensures r.Ok? ==> p.position <= r.value.progress.position <= |ts|
    decreases |ts| - p.position, 3
  {
    var branch :- Branch(ts, p, top);
    if At(ts, branch.progress, Or) then
      if branch.progress.position + 1 == |ts| then Err(DanglingOperator)
      else Behind(Listed(branch.value), Branches(ts, Moved(branch.progress), top))
    else Ok(Parsed(branch.progress, Listed(branch.value)))
  }

  function Alternatives(ts: seq<Token>, p: Progress, top: bool): (r: Outcome<Option<Expression>>)
    requires p.position <= |ts|
    ensures r.Ok? ==> p.position <= r.value.progress.position <= |ts|
    decreases |ts| - p.position, 4
  {
    var branches :- Branches(ts, p, top);
    Ok(Parsed(branches.progress, Collapse(branches.value, Any(branches.value))))
  }

  function ParseTokens(ts: seq<Token>): Result<Query, FilterError> {
    if ts == [] then Err(Empty)
    else
      var parsed :- Alternatives(ts, START, true);
      if parsed.progress.position != |ts| then Err(UnbalancedParentheses)
      else Ok(Query(parsed.value, parsed.progress.sort.GetOr(Newest), parsed.progress.take))
  }

  function ParseFilter(input: string): Result<Query, FilterError> {
    if ByteLen(input) > MAX_FILTER_LENGTH then Err(TooLong)
    else
      var tokens :- Lex(input);
      ParseTokens(tokens)
  }

  // ---- the parser --------------------------------------------------------

  class Parser {
    const tokens: seq<Token>
    var position: nat
    var predicates: nat
    var sort: Option<SortOrder>
    var take: Option<Take>

    constructor (tokens: seq<Token>)
      ensures this.tokens == tokens && View() == START && Valid()
    {
      this.tokens := tokens;
      position, predicates, sort, take := 0, 0, None, None;
    }

    function View(): Progress
      reads this
    {
      Progress(position, predicates, sort, take)
    }

    predicate Valid()
      reads this
    {
      position <= |tokens|
    }

    /** A method agrees with the grammar: same error, or same value and same progress. */
    ghost predicate Agrees<T>(spec: Outcome<T>, result: Result<T, FilterError>)
      reads this
    {
      match spec
      case Ok(parsed) => Valid() && result == Ok(parsed.value) && View() == parsed.progress
      case Err(e) => result == Err(e)
    }

    method ParseQuery() returns (r: Result<Option<Expression>, FilterError>)
      requires Valid() && View() == START
      modifies this
      ensures
        match ParseTokens(tokens)
        case Ok(q) => r == Ok(q.expression) && sort.GetOr(Newest) == q.sort && take == q.take
        case Err(e) => r == Err(e)
    {
      if tokens == [] {
        return Err(Empty);
      }
      r := ParseAny(true);
      if r.Ok? && position != |tokens| {
        r := Err(UnbalancedParentheses);
      }
    }

    method ParseAny(top: bool) returns (r: Result<Option<Expression>, FilterError>)
      requires Valid()
      modifies this
      ensures Agrees(Alternatives(tokens, old(View()), top), r)
      decreases |tokens| - position, 4
    {
      hide Unary, Conditions, Branch;
      ghost var spec := Branches(tokens, View(), top);
      var alternatives: seq<Expression> := [];
      BehindLaws([], [], spec);
      while true
        invariant Valid() && old(position) <= position
        invariant spec == Behind(alternatives, Branches(tokens, View(), top))
        decreases |tokens| - position
      {
        ghost var before := alternatives;
        var branch := ParseAll(top);
        if branch.Err? {
          return Err(branch.error);
        }
        if branch.value.Some? {
          alternatives := alternatives + [branch.value.value];
        }
        assert alternatives == before + Listed(branch.value);
        if position < |tokens| && tokens[position].Or? {
          position := position + 1;
          if position == |tokens| {
            return Err(DanglingOperator);
          }
          BehindLaws(before, Listed(branch.value), Branches(tokens, View(), top));
        } else {
          break;
        }
      }
      return Ok(Collapse(alternatives, Any(alternatives)));
    }

    method ParseAll(top: bool) returns (r: Result<Option<Expression>, FilterError>)
      requires Valid()
      modifies this
      ensures Agrees(Branch(tokens, old(View()), top), r)
      decreases |tokens| - position, 2
    {
      hide Unary, Collapse;
      ghost var spec := Conditions(tokens, View(), top);
      var conditions: seq<Expression> := [];
      BehindLaws([], [], spec);
      while true
        invariant Valid() && old(position) <= position
        invariant spec == Behind(conditions, Conditions(tokens, View(), top))
        decreases |tokens| - position
      {
        if position == |tokens| || tokens[position].Or? || tokens[position].Close? {
          break;
        } else if tokens[position].And? {
          position := position + 1;
          if position == |tokens| {
            return Err(DanglingOperator);
          }
        } else {
          var condition := ParseUnary(top);
          if condition.Err? {
            return Err(condition.error);
          }
          BehindLaws(conditions, Listed(condition.value), Conditions(tokens, View(), top));
          if condition.value.Some? {
            conditions := conditions + [condition.value.value];
          } else {
            assert conditions + [] == conditions;
          }
        }
      }
      BehindLaws(conditions, [], Conditions(tokens, View(), top));
      return Ok(Collapse(conditions, All(conditions)));
    }

    method ParseUnary(top: bool) returns (r: Result<Option<Expression>, FilterError>)
      requires Valid()
      modifies this
      ensures Agrees(Unary(tokens, old(View()), top), r)
      decreases |tokens| - position, 0
    {
      if position == |tokens| {
        return Err(DanglingOperator);
      }
      match tokens[position]
      case Not =>
        position := position + 1;
        var inner := ParseUnary(false);
        if inner.Err? {
          return inner;
        }
        if inner.value.None? {
          return Err(DanglingOperator);
        }
        return Ok(Some(Expression.Not(inner.value.value)));
      case Open =>
        position := position + 1;
        var inner := ParseAny(false);
        if inner.Err? {
          return inner;
        }
        if position == |tokens| || !tokens[position].Close? {
          return Err(UnbalancedParentheses);
        }
        position := position + 1;
        return inner;
      case Close => return Err(UnbalancedParentheses);
      case Term(key, value) =>
        position := position + 1;
        r := ParseTerm(key, value, top);
      case And => return Err(DanglingOperator);
      case Or => return Err(DanglingOperator);
    }

    method ParseTerm(key: Option<string>, value: string, top: bool) returns (r: Result<Option<Expression>, FilterError>)
      requires Valid()
      modifies this`predicates, this`sort, this`take
      ensures Agrees(ReadTerm(old(View()), key, value, top), r)
    {
      if key.Some? && IsModifierKey(key.value) {
        var recorded := Modifier(key.value, value, top);
        return if recorded.Some? then Err(recorded.value) else Ok(None);
      }
      var condition := ParseCondition(key, value);
      if condition.Err? {
        return Err(condition.error);
      }
      predicates := predicates + 1;
      if predicates > MAX_FILTER_PREDICATES {
        return Err(TooManyPredicates);
      }
      return Ok(Some(Expression.Leaf(condition.value)));
    }

    /** Records a modifier, or says why it cannot. */
    method Modifier(key: string, value: string, top: bool) returns (problem: Option<FilterError>)
      requires Valid() && IsModifierKey(key)
      modifies this`sort, this`take
      ensures
        match ReadTerm(old(View()), Some(key), value, top)
        case Ok(parsed) => problem.None? && View() == parsed.progress
        case Err(e) => problem == Some(e)
    {
      if !top {
        return Some(MisplacedModifier(key));
      }
      match ParseModifier(key, value)
      case Err(e) => return Some(e);
      case Ok(Order(order)) =>
        if sort.Some? && sort.value != order {
          return Some(RepeatedModifier(key));
        }
        sort := Some(order);
        return None;
      case Ok(Cap(cap)) =>
        if take.Some? && take.value != cap {
          return Some(RepeatedModifier(key));
        }
        take := Some(cap);
        return None;
      case Ok(Leaf(_)) =>
        return None;
    }
  }

  method Parse(input: string) returns (r: Result<Query, FilterError>)
    ensures r == ParseFilter(input)
  {
    if ByteLen(input) > MAX_FILTER_LENGTH {
      return Err(TooLong);
    }
    var tokens := Tokenize(input);
    if tokens.Err? {
      return Err(tokens.error);
    }
    var parser := new Parser(tokens.value);
    var expression := parser.ParseQuery();
    if expression.Err? {
      return Err(expression.error);
    }
    return Ok(Query(expression.value, parser.sort.GetOr(Newest), parser.take));
  }
}
