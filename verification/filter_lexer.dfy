/** The filter language's tokens: `tokenize`, `word_token` and `unquote`. */
module FilterLexer {
  import opened Wrappers
  import opened Text

  datatype FilterError =
    | TooLong
    | TooManyPredicates
    | UnterminatedQuote
    | UnbalancedParentheses
    | DanglingOperator
    | UnknownKey(key: string)
    | InvalidValue(key: string)
    | MisplacedModifier(key: string)
    | RepeatedModifier(key: string)
    | Empty

  datatype Token = Open | Close | Or | And | Not | Term(key: Option<string>, value: string)

  predicate IsQuote(c: char) {
    c == '\'' || c == '"'
  }

  /** What ends an unquoted word. */
  predicate EndsWord(c: char) {
    c == '(' || c == ')' || IsWhitespace(c)
  }

  /** How much more of `s` belongs to a word begun in quote state `quote`, and the state it ends in. */
  function WordScan(s: string, quote: Option<char>): (r: (nat, Option<char>))
    ensures r.0 <= |s|
  {
    if s == "" then (0, quote)
    else if quote.None? && EndsWord(s[0]) then (0, None)
    else
      var next :=
        if quote.None? then (if IsQuote(s[0]) then Some(s[0]) else None)
        else if s[0] == quote.value then None
        else quote;
      var (n, last) := WordScan(s[1..], next);
      (1 + n, last)
  }

  function Unquote(value: string): string {
    var t := Trim(value);
    if |t| >= 2 && IsQuote(t[0]) && t[|t| - 1] == t[0] then t[1..|t| - 1] else t
  }

  function WordToken(raw: string): Token {
    var lower := Lower(raw);
    if lower == "or" then Or
    else if lower == "and" then And
    else if lower == "not" then Not
    else
      var colon := IndexOf(raw, ':');
      if 0 < colon < |raw| then Term(Some(Lower(raw[..colon])), Unquote(raw[colon + 1..]))
      else Term(None, Unquote(raw))
  }

  function Prepend(tokens: seq<Token>, rest: Result<seq<Token>, FilterError>): Result<seq<Token>, FilterError> {
    match rest
    case Ok(more) => Ok(tokens + more)
    case Err(e) => Err(e)
  }

  lemma PrependLaws(a: seq<Token>, b: seq<Token>, rest: Result<seq<Token>, FilterError>)
    ensures Prepend([], rest) == rest
    ensures Prepend(a, Prepend(b, rest)) == Prepend(a + b, rest)
  {
    if rest.Ok? {
      assert [] + rest.value == rest.value;
      assert a + (b + rest.value) == (a + b) + rest.value;
    }
  }

  lemma PrependAll(tokens: seq<Token>)
    ensures Prepend(tokens, Ok([])) == Ok(tokens)
    ensures forall e: FilterError :: Prepend(tokens, Err(e)) == Err(e)
  {
    assert tokens + [] == tokens;
  }

  /** The tokens of a text. The first character of a word is kept without opening a quote. */
  function Lex(s: string): Result<seq<Token>, FilterError>
    decreases |s|
  {
    if s == "" then Ok([])
    else if IsWhitespace(s[0]) then Lex(s[1..])
    else if s[0] == '(' then Prepend([Open], Lex(s[1..]))
    else if s[0] == ')' then Prepend([Close], Lex(s[1..]))
    else if s[0] == '-' then Prepend([Not], Lex(s[1..]))
    else
      var (n, last) := WordScan(s[1..], None);
      if last.Some? then Err(UnterminatedQuote)
      else Prepend([WordToken(s[..1 + n])], Lex(s[1 + n..]))
  }

  /** The inner loop: the word that starts at `start`, and whether its last quote was closed. */
  method ReadWord(input: string, start: nat) returns (raw: string, quote: Option<char>)
    requires start < |input|
    ensures var (n, last) := WordScan(input[start..][1..], None);
            raw == input[start..][..1 + n] && quote == last
  {
    var rest := input[start..];
    var at := start + 1;
    raw, quote := [input[start]], None;
    assert input[at..] == rest[1..];
    while at < |input| && !(quote.None? && EndsWord(input[at]))
      invariant at == start + |raw| <= |input| && 1 <= |raw|
      invariant raw == rest[..|raw|]
      invariant WordScan(rest[1..], None) ==
                (|raw| - 1 + WordScan(input[at..], quote).0, WordScan(input[at..], quote).1)
    {
      var next := input[at];
      assert input[at..][1..] == input[at + 1..];
      if quote.None? {
        if IsQuote(next) {
          quote := Some(next);
        }
      } else if next == quote.value {
        quote := None;
      }
      raw := raw + [next];
      at := at + 1;
    }
  }

  method Tokenize(input: string) returns (r: Result<seq<Token>, FilterError>)
    ensures r == Lex(input)
  {
    hide WordToken, IsWhitespace, WordScan, Prepend;
    var tokens: seq<Token> := [];
    var at := 0;
    assert input[0..] == input;
    PrependLaws([], [], Lex(input));
    while at < |input|
      invariant at <= |input|
      invariant Lex(input) == Prepend(tokens, Lex(input[at..]))
    {
      var c := input[at];
      var rest := input[at..];
      assert rest[1..] == input[at + 1..];
      if IsWhitespace(c) {
        at := at + 1;
      } else if c == '(' || c == ')' || c == '-' {
        var token := if c == '(' then Open else if c == ')' then Close else Not;
        PrependLaws(tokens, [token], Lex(input[at + 1..]));
        tokens := tokens + [token];
        at := at + 1;
      } else {
        var raw, quote := ReadWord(input, at);
        if quote.Some? {
          PrependAll(tokens);
          return Err(UnterminatedQuote);
        }
        assert rest[|raw|..] == input[at + |raw|..];
        PrependLaws(tokens, [WordToken(raw)], Lex(rest[|raw|..]));
        tokens := tokens + [WordToken(raw)];
        at := at + |raw|;
      }
    }
    assert input[at..] == "";
    PrependAll(tokens);
    return Ok(tokens);
  }
}
