/** Compiling glob terms to SQL LIKE patterns. */
module FilterLike {
  import opened Text

  // ---- the two pattern languages -----------------------------------------

  /** A glob: `*` stands for any run of characters, everything else for itself. */
  predicate GlobMatch(g: string, s: string)
    decreases |g| + |s|
  {
    if g == "" then s == ""
    else if g[0] == '*' then GlobMatch(g[1..], s) || (s != "" && GlobMatch(g, s[1..]))
    else s != "" && s[0] == g[0] && GlobMatch(g[1..], s[1..])
  }

  /** SQL LIKE: `%` is any run, `_` any character, `\` makes the next character literal. */
  predicate LikeMatch(p: string, s: string)
    decreases |p| + |s|
  {
    if p == "" then s == ""
    else if p[0] == '%' then LikeMatch(p[1..], s) || (s != "" && LikeMatch(p, s[1..]))
    else if p[0] == '_' then s != "" && LikeMatch(p[1..], s[1..])
    else if p[0] == '\\' then |p| >= 2 && s != "" && s[0] == p[1] && LikeMatch(p[2..], s[1..])
    else s != "" && s[0] == p[0] && LikeMatch(p[1..], s[1..])
  }

  predicate StartsWith(s: string, c: char) {
    s != "" && s[0] == c
  }

  predicate EndsWith(s: string, c: char) {
    s != "" && s[|s| - 1] == c
  }

  // ---- compilation -------------------------------------------------------

  /** What one character of a term becomes. */
  function Piece(c: char): string {
    if c == '*' then "%" else if c == '%' || c == '_' || c == '\\' then ['\\', c] else [c]
  }

  function Pieces(term: string): string {
    if term == "" then "" else Piece(term[0]) + Pieces(term[1..])
  }

  lemma {:induction false} PiecesAppend(a: string, b: string)
    ensures Pieces(a + b) == Pieces(a) + Pieces(b)
  {
    if a == "" {
      assert a + b == b;
    } else {
      assert (a + b)[1..] == a[1..] + b;
      PiecesAppend(a[1..], b);
    }
  }

  lemma PiecesNext(term: string, i: nat)
    requires i < |term|
    ensures Pieces(term[..i + 1]) == Pieces(term[..i]) + Piece(term[i])
  {
    assert term[..i + 1] == term[..i] + [term[i]];
    PiecesAppend(term[..i], [term[i]]);
    assert [term[i]][1..] == "";
  }

  function LikePattern(term: string): string {
    (if StartsWith(term, '*') then "" else "%") + Pieces(term) + (if EndsWith(term, '*') then "" else "%")
  }

  /** A location without the slashes around it. */
  function Location(term: string): string {
    TrimBy(term, c => c == '/')
  }

  /** The term is its location between slashes, and the location has none at either end. */
  lemma LocationMeans(term: string) returns (before: string, after: string)
    ensures term == before + Location(term) + after
    ensures AllOf(before, c => c == '/') && AllOf(after, c => c == '/') && Tight(Location(term), c => c == '/')
  {
    before, after := TrimParts(term, c => c == '/');
  }

  function PrefixPattern(term: string): string {
    var pattern := Pieces(Location(term));
    if EndsWith(pattern, '%') then pattern else pattern + "%"
  }

  method CompileLike(term: string) returns (pattern: string)
    ensures pattern == LikePattern(term)
  {
    hide Pieces;
    pattern := "";
    if !StartsWith(term, '*') {
      pattern := pattern + "%";
    }
    ghost var start := pattern;
    assert Pieces(term[..0]) == "" by { StarPiece(); }
    for i := 0 to |term|
      invariant pattern == start + Pieces(term[..i])
    {
      PiecesNext(term, i);
      assert start + Pieces(term[..i + 1]) == pattern + Piece(term[i]);
      match term[i]
      case '*' => pattern := pattern + "%";
      case '%' => pattern := pattern + "\\" + [term[i]];
      case '_' => pattern := pattern + "\\" + [term[i]];
      case '\\' => pattern := pattern + "\\" + [term[i]];
      case other => pattern := pattern + [other];
    }
    assert term[..|term|] == term;
    if !EndsWith(term, '*') {
      pattern := pattern + "%";
    }
  }

  method CompilePrefix(term: string) returns (pattern: string)
    ensures pattern == PrefixPattern(term)
  {
    pattern := "";
    var location := Location(term);
    for i := 0 to |location|
      invariant pattern == Pieces(location[..i])
    {
      PiecesNext(location, i);
      match location[i]
      case '*' => pattern := pattern + "%";
      case '%' => pattern := pattern + "\\" + [location[i]];
      case '_' => pattern := pattern + "\\" + [location[i]];
      case '\\' => pattern := pattern + "\\" + [location[i]];
      case other => pattern := pattern + [other];
    }
    assert location[..|location|] == location;
    if !EndsWith(pattern, '%') {
      pattern := pattern + "%";
    }
  }

  // ---- meaning -----------------------------------------------------------

  /** Translating character by character keeps the meaning. */
  lemma {:induction false} PiecesMean(g: string, s: string)
    ensures LikeMatch(Pieces(g), s) <==> GlobMatch(g, s)
    decreases |g| + |s|
  {
    if g != "" {
      var p, rest := Pieces(g), Pieces(g[1..]);
      if g[0] == '*' {
        assert p[1..] == rest;
        PiecesMean(g[1..], s);
        if s != "" {
          PiecesMean(g, s[1..]);
        }
      } else {
        assert p[|Piece(g[0])|..] == rest;
        if s != "" {
          PiecesMean(g[1..], s[1..]);
        }
      }
    }
  }

  lemma {:induction false} StarMatchesAll(s: string)
    ensures GlobMatch("*", s)
  {
    assert "*"[1..] == "";
    if s != "" {
      StarMatchesAll(s[1..]);
    }
  }

  lemma {:induction false} FinalStars(g: string, s: string)
    ensures GlobMatch(g + "**", s) <==> GlobMatch(g + "*", s)
    decreases |g| + |s|
  {
    if g == "" {
      assert g + "**" == "**" && g + "*" == "*" && "**"[1..] == "*";
      StarMatchesAll(s);
    } else {
      assert (g + "**")[1..] == g[1..] + "**" && (g + "*")[1..] == g[1..] + "*";
      FinalStars(g[1..], s);
      if s != "" {
        FinalStars(g[1..], s[1..]);
        FinalStars(g, s[1..]);
      }
    }
  }

  lemma {:induction false} FirstStars(g: string, s: string)
    ensures GlobMatch("**" + g, s) <==> GlobMatch("*" + g, s)
    decreases |s|
  {
    assert ("**" + g)[1..] == "*" + g;
    if s != "" {
      FirstStars(g, s[1..]);
      assert ("*" + g)[1..] == g;
    }
  }

  lemma StarInFront(g: string, value: string)
    requires StartsWith(g, '*')
    ensures GlobMatch("*" + g, value) <==> GlobMatch(g, value)
  {
    assert g == "*" + g[1..] && "*" + g == "**" + g[1..];
    FirstStars(g[1..], value);
  }

  lemma StarBehind(g: string, value: string)
    requires EndsWith(g, '*')
    ensures GlobMatch(g + "*", value) <==> GlobMatch(g, value)
  {
    var head := g[..|g| - 1];
    assert g == head + "*" && g + "*" == head + "**";
    FinalStars(head, value);
  }

  /** The term with a star on both sides, added only where there is none. */
  function Starred(term: string): string {
    (if StartsWith(term, '*') then "" else "*") + term + (if EndsWith(term, '*') then "" else "*")
  }

  lemma PatternIsPieces(term: string)
    ensures LikePattern(term) == Pieces(Starred(term))
  {
    hide Pieces;
    var first := if StartsWith(term, '*') then "" else "*";
    var last := if EndsWith(term, '*') then "" else "*";
    PiecesAppend(first + term, last);
    PiecesAppend(first, term);
    StarPiece();
  }

  lemma StarPiece()
    ensures Pieces("") == "" && Pieces("*") == "%"
  {
    assert "*"[1..] == "";
  }

  /** A term means: the value contains it, whatever stands around it. */
  lemma LikeMeansContains(term: string, value: string)
    ensures LikeMatch(LikePattern(term), value) <==> GlobMatch("*" + term + "*", value)
  {
    hide LikeMatch, GlobMatch, LikePattern, Pieces;
    PatternIsPieces(term);
    PiecesMean(Starred(term), value);
    if StartsWith(term, '*') {
      StarInFront(term + "*", value);
      assert "*" + (term + "*") == "*" + term + "*";
    }
    if EndsWith(term, '*') {
      StarBehind("*" + term, value);
      if StartsWith(term, '*') {
        StarBehind(term, value);
        assert Starred(term) == term;
      } else {
        assert Starred(term) == "*" + term;
      }
    } else if StartsWith(term, '*') {
      assert Starred(term) == term + "*";
    } else {
      assert Starred(term) == "*" + term + "*";
    }
  }

  lemma {:induction false} LastPiece(term: string)
    ensures EndsWith(Pieces(term), '%') <==> EndsWith(term, '*') || EndsWith(term, '%')
  {
    if term != "" {
      PiecesNext(term, |term| - 1);
      assert term[..|term| - 1 + 1] == term;
    }
  }

  lemma {:induction false} LastCharacterMatches(g: string, s: string)
    requires g != "" && g[|g| - 1] != '*' && GlobMatch(g, s)
    ensures EndsWith(s, g[|g| - 1])
    decreases |g| + |s|
  {
    if g[0] == '*' {
      if GlobMatch(g[1..], s) {
        LastCharacterMatches(g[1..], s);
      } else {
        LastCharacterMatches(g, s[1..]);
      }
    } else if |g| > 1 {
      LastCharacterMatches(g[1..], s[1..]);
    } else {
      assert g[1..] == "";
    }
  }

  /** A value matched by a term: the term with its stars left out. */
  function WithoutStars(g: string): string {
    if g == "" then "" else (if g[0] == '*' then "" else [g[0]]) + WithoutStars(g[1..])
  }

  lemma MatchLiteral(c: char, g: string, s: string)
    requires c != '*'
    ensures GlobMatch([c] + g, [c] + s) == GlobMatch(g, s)
  {
    assert ([c] + g)[1..] == g && ([c] + s)[1..] == s;
  }

  lemma MatchNothing(g: string, s: string)
    requires GlobMatch(g, s)
    ensures GlobMatch("*" + g, s)
  {
    assert ("*" + g)[1..] == g;
  }

  lemma WithoutFirst(g: string, below: string)
    ensures WithoutStars(g) + below ==
            if g == "" then below
            else if g[0] == '*' then WithoutStars(g[1..]) + below
            else [g[0]] + (WithoutStars(g[1..]) + below)
  {
  }

  lemma {:induction false} BelowMatches(g: string, below: string)
    ensures GlobMatch(g + "*", WithoutStars(g) + below)
  {
    hide GlobMatch, WithoutStars;
    WithoutFirst(g, below);
    if g == "" {
      assert g + "*" == "*";
      StarMatchesAll(below);
    } else {
      var rest, s := g[1..] + "*", WithoutStars(g[1..]) + below;
      BelowMatches(g[1..], below);
      assert g + "*" == [g[0]] + rest;
      if g[0] == '*' {
        MatchNothing(rest, s);
      } else {
        MatchLiteral(g[0], rest, s);
      }
    }
  }

  /** What the compiled location pattern matches, for every term and value. */
  lemma PrefixMeans(term: string, value: string)
    ensures LikeMatch(PrefixPattern(term), value) <==>
            GlobMatch(if EndsWith(Location(term), '%') then Location(term) else Location(term) + "*", value)
  {
    var u := Location(term);
    LastPiece(u);
    if EndsWith(u, '*') {
      var head := u[..|u| - 1];
      assert u == head + "*" && u + "*" == head + "**";
      FinalStars(head, value);
      PiecesMean(u, value);
    } else if EndsWith(u, '%') {
      PiecesMean(u, value);
    } else {
      PiecesAppend(u, "*");
      assert "*"[1..] == "";
      assert Pieces("*") == "%";
      PiecesMean(u + "*", value);
    }
  }

  /**
   * A location is a prefix exactly when, without the slashes around it, it does not end in a
   * literal `%`: there the compiled pattern already ends in `%`, so no wildcard is added.
   */
  lemma PrefixIsPrefixIff(term: string)
    ensures (forall value :: LikeMatch(PrefixPattern(term), value) <==> GlobMatch(Location(term) + "*", value))
            <==> !EndsWith(Location(term), '%')
  {
    var u := Location(term);
    forall value
      ensures !EndsWith(u, '%') ==> (LikeMatch(PrefixPattern(term), value) <==> GlobMatch(u + "*", value))
    {
      PrefixMeans(term, value);
    }
    if EndsWith(u, '%') {
      var value := WithoutStars(u) + "a";
      BelowMatches(u, "a");
      PrefixMeans(term, value);
      if GlobMatch(u, value) {
        LastCharacterMatches(u, value);
        assert false;
      }
      assert LikeMatch(PrefixPattern(term), value) != GlobMatch(u + "*", value);
    }
  }

  /** Below a location: everything that continues it is matched. */
  lemma LocationCoversTree(term: string, below: string)
    requires !EndsWith(Location(term), '%')
    ensures LikeMatch(PrefixPattern(term), WithoutStars(Location(term)) + below)
  {
    PrefixMeans(term, WithoutStars(Location(term)) + below);
    BelowMatches(Location(term), below);
  }
}
