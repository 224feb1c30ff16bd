/**
 * What each word of a filter is: the operators in any letter case, keys, quoted and bare
 * values; that `and` between operands means nothing, and that `not` reads as `-`.
 */
module FilterWords {
  import opened Wrappers
  import opened Text
  import opened FilterLexer
  import opened FilterValues
  import opened FilterParser

  const UPPER := "ABCDEFGHIJKLMNOPQRSTUVWXYZ"
  const LOWER := "abcdefghijklmnopqrstuvwxyz"

  // ---- one word ----------------------------------------------------------

  /** Lower case replaces each capital by its small letter, and nothing else. */
  lemma LowerIsByLetter(c: char)
    ensures forall i :: 0 <= i < 26 ==> LowerChar(UPPER[i]) == LOWER[i]
    ensures c !in UPPER ==> LowerChar(c) == c
  {
    if 'A' <= c <= 'Z' {
      assert UPPER[c as int - 'A' as int] == c;
    }
  }

  predicate IsOr(raw: string) {
    |raw| == 2 && raw[0] in "oO" && raw[1] in "rR"
  }

  predicate IsAnd(raw: string) {
    |raw| == 3 && raw[0] in "aA" && raw[1] in "nN" && raw[2] in "dD"
  }

  predicate IsNot(raw: string) {
    |raw| == 3 && raw[0] in "nN" && raw[1] in "oO" && raw[2] in "tT"
  }

  /** The three operators, in any letter case; every other word is a term. */
  lemma OperatorWords(raw: string)
    ensures WordToken(raw) == Or <==> IsOr(raw)
    ensures WordToken(raw) == And <==> IsAnd(raw)
    ensures WordToken(raw) == Token.Not <==> IsNot(raw)
    ensures WordToken(raw).Term? <==> !IsOr(raw) && !IsAnd(raw) && !IsNot(raw)
  {
    var lower := Lower(raw);
    assert lower == "or" <==> |lower| == 2 && lower[0] == 'o' && lower[1] == 'r';
    assert lower == "and" <==> |lower| == 3 && lower[0] == 'a' && lower[1] == 'n' && lower[2] == 'd';
    assert lower == "not" <==> |lower| == 3 && lower[0] == 'n' && lower[1] == 'o' && lower[2] == 't';
  }

  /** Before the first colon stands the key, after it the value. */
  lemma KeyedWord(key: string, value: string)
    requires key != "" && ':' !in key
    ensures WordToken(key + ":" + value) == Term(Some(Lower(key)), Unquote(value))
  {
    hide Unquote, Lower;
    var raw := key + ":" + value;
    OperatorWords(raw);
    assert raw[|key|] == ':';
    assert raw == key + [':'] + value;
    IndexOfFirst(key, ':', value);
    assert raw[..|key|] == key && raw[|key| + 1..] == value;
    if raw != "" {
      NoColonInOperators(raw, |key|);
    }
  }

  lemma NoColonInOperators(raw: string, at: nat)
    requires at < |raw| && raw[at] == ':'
    ensures !IsOr(raw) && !IsAnd(raw) && !IsNot(raw)
  {
  }

  /** A word without a key, or with an empty one, is a value. */
  lemma BareWord(raw: string)
    requires !IsOr(raw) && !IsAnd(raw) && !IsNot(raw) && (':' !in raw || raw[0] == ':')
    ensures WordToken(raw) == Term(None, Unquote(raw))
  {
    hide Unquote;
    OperatorWords(raw);
    if ':' in raw {
      assert raw == "" + [':'] + raw[1..];
      IndexOfFirst("", ':', raw[1..]);
    }
  }

  predicate Blank(s: string) {
    AllOf(s, IsWhitespace)
  }

  /** The value is in quotes, both of the same kind. */
  predicate Enclosed(value: string) {
    |value| >= 2 && IsQuote(value[0]) && value[|value| - 1] == value[0]
  }

  /** One pair of quotes is removed, and keeps what is inside as it is. */
  lemma QuotedValue(before: string, quote: char, inner: string, after: string)
    requires Blank(before) && Blank(after) && IsQuote(quote)
    ensures Unquote(before + ([quote] + inner + [quote]) + after) == inner
  {
    hide TrimBy;
    var value := [quote] + inner + [quote];
    assert value[0] == quote && value[|value| - 1] == quote && value[1..|value| - 1] == inner;
    TrimMeans(before, value, after, IsWhitespace);
  }

  /** Any other value is what is left between the blanks. */
  lemma UnquotedValue(before: string, value: string, after: string)
    requires Blank(before) && Blank(after) && Trimmed(value) && !Enclosed(value)
    ensures Unquote(before + value + after) == value
  {
    hide TrimBy;
    TrimMeans(before, value, after, IsWhitespace);
  }

  // ---- words in a text ---------------------------------------------------

  lemma {:induction false} ScanAppend(word: string, quote: Option<char>, blank: char, rest: string)
    requires WordScan(word, quote).1.None? && IsWhitespace(blank)
    ensures WordScan(word + [blank] + rest, quote) == WordScan(word, quote)
  {
    hide IsWhitespace;
    var s := word + [blank] + rest;
    if word == "" {
      assert s[0] == blank;
    } else if !(quote.None? && EndsWord(word[0])) {
      var next :=
        if quote.None? then (if IsQuote(word[0]) then Some(word[0]) else None)
        else if word[0] == quote.value then None
        else quote;
      assert s[1..] == word[1..] + [blank] + rest;
      ScanAppend(word[1..], next, blank, rest);
    }
  }

  /** A blank separates: what stands before it and what follows are read apart. */
  lemma {:induction false} LexAppend(s: string, blank: char, rest: string)
    requires Lex(s).Ok? && IsWhitespace(blank)
    ensures Lex(s + [blank] + rest) == Prepend(Lex(s).value, Lex(rest))
    decreases |s|
  {
    hide IsWhitespace, WordToken, Prepend;
    var t := s + [blank] + rest;
    if s == "" {
      assert t[1..] == rest;
      PrependLaws([], [], Lex(rest));
    } else if IsWhitespace(s[0]) {
      assert t[1..] == s[1..] + [blank] + rest;
      LexAppend(s[1..], blank, rest);
    } else if s[0] == '(' || s[0] == ')' || s[0] == '-' {
      var token := if s[0] == '(' then Open else if s[0] == ')' then Close else Token.Not;
      assert t[1..] == s[1..] + [blank] + rest;
      PrependKeepsErrors([token], Lex(s[1..]));
      LexAppend(s[1..], blank, rest);
      PrependLaws([token], Lex(s[1..]).value, Lex(rest));
    } else {
      var (n, last) := WordScan(s[1..], None);
      assert t[1..] == s[1..] + [blank] + rest;
      ScanAppend(s[1..], None, blank, rest);
      var word, more := [WordToken(s[..1 + n])], s[1 + n..];
      assert t[..1 + n] == s[..1 + n] && t[1 + n..] == more + [blank] + rest;
      PrependKeepsErrors(word, Lex(more));
      LexAppend(more, blank, rest);
      PrependLaws(word, Lex(more).value, Lex(rest));
    }
  }

  lemma PrependKeepsErrors(tokens: seq<Token>, rest: Result<seq<Token>, FilterError>)
    ensures Prepend(tokens, rest).Ok? <==> rest.Ok?
    ensures rest.Ok? ==> Prepend(tokens, rest).value == tokens + rest.value
  {
  }

  predicate Letters(word: string) {
    forall i :: 0 <= i < |word| ==> 'A' <= word[i] <= 'Z' || 'a' <= word[i] <= 'z'
  }

  lemma OperatorsAreLetters(word: string)
    requires IsAnd(word) || IsNot(word)
    ensures Letters(word)
  {
  }

  /** A whole word of letters, read alone. */
  lemma LetterWordLexes(word: string)
    requires word != "" && Letters(word)
    ensures Lex(word) == Ok([WordToken(word)])
  {
    hide WordToken, Prepend, WordScan;
    ScanLetters(word[1..]);
    assert word[..|word|] == word && word[|word|..] == "";
    PrependAll([WordToken(word)]);
    assert Lex("") == Ok([]);
  }

  lemma {:induction false} ScanLetters(s: string)
    requires Letters(s)
    ensures WordScan(s, None) == (|s|, None)
  {
    if s != "" {
      ScanLetters(s[1..]);
    }
  }

  // ---- an `and` between operands -------------------------------------------

  /** The same place in a token list and in that list with a token inserted at `k`. */
  predicate SamePlace(k: nat, p: Progress, q: Progress) {
    && q == p.(position := q.position)
    && ((p.position <= k && q.position == p.position) || (p.position >= k && q.position == p.position + 1))
  }

  /** The same result, at the same place. */
  predicate SameOutcome<T(==)>(k: nat, r: Outcome<T>, s: Outcome<T>) {
    match r
    case Err(e) => s == Err(e)
    case Ok(parsed) => s.Ok? && s.value.value == parsed.value && SamePlace(k, parsed.progress, s.value.progress)
  }

  /** An `and` may be put between `a` and `b`: it is not last, and nothing waits to be negated. */
  predicate MayJoin(a: seq<Token>, b: seq<Token>) {
    b != [] && (a != [] ==> a[|a| - 1] != Token.Not)
  }

  lemma TokensAround(a: seq<Token>, b: seq<Token>, p: Progress, q: Progress)
    requires MayJoin(a, b) && SamePlace(|a|, p, q) && p.position <= |a + b|
    ensures q.position <= |a + [And] + b|
    ensures q.position != |a| ==>
              && (p.position == |a + b| <==> q.position == |a + [And] + b|)
              && (p.position < |a + b| ==> (a + b)[p.position] == (a + [And] + b)[q.position])
    ensures q.position == |a| ==> p.position == |a| && (a + [And] + b)[q.position] == And && |a| < |a + b|
  {
  }

  lemma ReadTermSame(k: nat, p: Progress, q: Progress, key: Option<string>, value: string, top: bool)
    requires SamePlace(k, p, q)
    ensures SameOutcome(k, ReadTerm(p, key, value, top), ReadTerm(q, key, value, top))
  {
    hide ParseCondition, ParseModifier;
  }

  lemma {:induction false} UnarySame(a: seq<Token>, b: seq<Token>, p: Progress, q: Progress, top: bool)
    requires MayJoin(a, b) && SamePlace(|a|, p, q) && p.position <= |a + b| && q.position != |a|
    requires q.position <= |a + [And] + b|
    ensures SameOutcome(|a|, Unary(a + b, p, top), Unary(a + [And] + b, q, top))
    decreases |a + [And] + b| - q.position, 0
  {
    hide ReadTerm;
    var ts, us := a + b, a + [And] + b;
    TokensAround(a, b, p, q);
    if p.position < |ts| {
      match ts[p.position]
      case Not =>
        UnarySame(a, b, Moved(p), Moved(q), false);
      case Open =>
        AlternativesSame(a, b, Moved(p), Moved(q), false);
        var inner := Alternatives(ts, Moved(p), false);
        if inner.Ok? {
          TokensAround(a, b, inner.value.progress, Alternatives(us, Moved(q), false).value.progress);
        }
      case Term(key, value) =>
        ReadTermSame(|a|, Moved(p), Moved(q), key, value, top);
      case _ =>
    }
  }

  /** The conditions are the same, and end away from the inserted token. */
  lemma {:induction false} ConditionsSame(a: seq<Token>, b: seq<Token>, p: Progress, q: Progress, top: bool)
    requires MayJoin(a, b) && SamePlace(|a|, p, q) && p.position <= |a + b| && q.position <= |a + [And] + b|
    ensures SameOutcome(|a|, Conditions(a + b, p, top), Conditions(a + [And] + b, q, top))
    ensures var s := Conditions(a + [And] + b, q, top); s.Ok? ==> s.value.progress.position != |a|
    decreases |a + [And] + b| - q.position, 1
  {
    hide Unary;
    var ts, us := a + b, a + [And] + b;
    TokensAround(a, b, p, q);
    if q.position == |a| {
      ConditionsSame(a, b, p, Moved(q), top);
    } else if p.position < |ts| && ts[p.position].And? {
      if p.position + 1 < |ts| {
        ConditionsSame(a, b, Moved(p), Moved(q), top);
      }
    } else if p.position < |ts| && !ts[p.position].Or? && !ts[p.position].Close? {
      UnarySame(a, b, p, q, top);
      var first := Unary(ts, p, top);
      if first.Ok? {
        ConditionsSame(a, b, first.value.progress, Unary(us, q, top).value.progress, top);
      }
    }
  }

  lemma {:induction false} BranchesSame(a: seq<Token>, b: seq<Token>, p: Progress, q: Progress, top: bool)
    requires MayJoin(a, b) && SamePlace(|a|, p, q) && p.position <= |a + b| && q.position <= |a + [And] + b|
    ensures SameOutcome(|a|, Branches(a + b, p, top), Branches(a + [And] + b, q, top))
    ensures var s := Branches(a + [And] + b, q, top); s.Ok? ==> s.value.progress.position != |a|
    decreases |a + [And] + b| - q.position, 3
  {
    hide Conditions;
    var ts, us := a + b, a + [And] + b;
    ConditionsSame(a, b, p, q, top);
    var branch, other := Branch(ts, p, top), Branch(us, q, top);
    if branch.Ok? {
      TokensAround(a, b, branch.value.progress, other.value.progress);
      if At(ts, branch.value.progress, Or) && branch.value.progress.position + 1 < |ts| {
        BranchesSame(a, b, Moved(branch.value.progress), Moved(other.value.progress), top);
      }
    }
  }

  lemma {:induction false} AlternativesSame(a: seq<Token>, b: seq<Token>, p: Progress, q: Progress, top: bool)
    requires MayJoin(a, b) && SamePlace(|a|, p, q) && p.position <= |a + b| && q.position <= |a + [And] + b|
    ensures SameOutcome(|a|, Alternatives(a + b, p, top), Alternatives(a + [And] + b, q, top))
    ensures var s := Alternatives(a + [And] + b, q, top); s.Ok? ==> s.value.progress.position != |a|
    decreases |a + [And] + b| - q.position, 4
  {
    hide Branches;
    BranchesSame(a, b, p, q, top);
  }

  /** Between tokens an `and` changes nothing, neither a result nor an error. */
  lemma AndMeansNothing(a: seq<Token>, b: seq<Token>)
    requires MayJoin(a, b)
    ensures ParseTokens(a + [And] + b) == ParseTokens(a + b)
  {
    hide Alternatives;
    AlternativesSame(a, b, START, START, true);
    var parsed := Alternatives(a + b, START, true);
    if parsed.Ok? {
      TokensAround(a, b, parsed.value.progress, Alternatives(a + [And] + b, START, true).value.progress);
    }
  }

  // ---- in texts ----------------------------------------------------------

  /** The tokens of a text that ends in a blank, a word and a blank, and goes on. */
  lemma WordInside(before: string, word: string, after: string)
    requires Lex(before).Ok? && Lex(word).Ok?
    ensures Lex(before + " " + word + " " + after) == Prepend(Lex(before).value + Lex(word).value, Lex(after))
    ensures Lex(before + " " + after) == Prepend(Lex(before).value, Lex(after))
  {
    hide Lex;
    LexAppend(before, ' ', after);
    LexAppend(before, ' ', word + " " + after);
    LexAppend(word, ' ', after);
    assert before + " " + word + " " + after == before + " " + (word + " " + after);
    PrependLaws(Lex(before).value, Lex(word).value, Lex(after));
  }

  /** An `and`, in any letter case, between two operands of a filter leaves its meaning unchanged. */
  lemma AndBetweenOperands(before: string, word: string, after: string)
    requires IsAnd(word) && Lex(before).Ok? && (Lex(after).Ok? ==> MayJoin(Lex(before).value, Lex(after).value))
    requires ByteLen(before + " " + word + " " + after) <= 1_024
    ensures ParseFilter(before + " " + word + " " + after) == ParseFilter(before + " " + after)
  {
    hide Lex, ParseTokens, ByteLen, WordToken, Letters;
    OperatorsAreLetters(word);
    LetterWordLexes(word);
    OperatorWords(word);
    WordInside(before, word, after);
    hide IsAnd;
    ShorterInBytes(before, " " + word, " " + after);
    assert before + " " + word + " " + after == before + (" " + word) + (" " + after);
    assert before + " " + after == before + (" " + after);
    if Lex(after).Ok? {
      AndMeansNothing(Lex(before).value, Lex(after).value);
    }
  }

  lemma ShorterInBytes(a: string, b: string, c: string)
    ensures ByteLen(a + c) <= ByteLen(a + b + c)
  {
    Utf8Append(a, c);
    Utf8Append(a + b, c);
    Utf8Append(a, b);
  }

  /** `not`, in any letter case, reads as a minus sign. */
  lemma NotReadsAsMinus(before: string, word: string, after: string)
    requires IsNot(word) && Lex(before).Ok?
    requires ByteLen(before + " " + word + " " + after) <= 1_024
    ensures ParseFilter(before + " " + word + " " + after) == ParseFilter(before + " -" + after)
  {
    hide Lex, ParseTokens, ByteLen, WordToken, Letters;
    OperatorsAreLetters(word);
    LetterWordLexes(word);
    OperatorWords(word);
    WordInside(before, word, after);
    LexAppend(before, ' ', "-" + after);
    assert before + " -" + after == before + " " + ("-" + after);
    MinusLexes(after);
    PrependLaws(Lex(before).value, [Token.Not], Lex(after));
    MinusIsShorter(before, word, after);
  }

  lemma MinusLexes(after: string)
    ensures Lex("-" + after) == Prepend([Token.Not], Lex(after))
  {
    assert ("-" + after)[1..] == after;
  }

  lemma MinusIsShorter(before: string, word: string, after: string)
    requires word != ""
    ensures ByteLen(before + " -" + after) <= ByteLen(before + " " + word + " " + after)
  {
    Utf8Append(before + " -", after);
    Utf8Append(before, " -");
    Utf8Append(before + " " + word + " ", after);
    Utf8Append(before + " " + word, " ");
    Utf8Append(before + " ", word);
    Utf8Append(before, " ");
    assert " -"[1..] == "-" && "-"[1..] == "" && " "[1..] == "";
    assert |Utf8(word)| >= 1;
  }
}
