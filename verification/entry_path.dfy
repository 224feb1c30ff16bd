/** Entry names and drive-relative paths. */
module EntryPaths {
  import opened Wrappers
  import opened Text

  const MAX_ENTRY_NAME_BYTES := 255
  const MAX_ENTRY_PATH_BYTES := 2_048
  const DRIVE_ROOT_PATH := "."

  datatype NameError = EmptyName | NameTooLong(bytes: nat) | ContainsNul | ContainsSlash | Reserved
  datatype PathError = EmptyPath | PathTooLong(bytes: nat) | Segment(error: NameError)

  // ---- splitting and joining ---------------------------------------------

  /** The pieces between separators; there is always at least one. */
  function Split(s: string, c: char): (pieces: seq<string>)
    ensures pieces != []
  {
    var at := IndexOf(s, c);
    if at == |s| then [s] else [s[..at]] + Split(s[at + 1..], c)
  }

  function JoinWith(pieces: seq<string>, c: char): string {
    if pieces == [] then ""
    else if |pieces| == 1 then pieces[0]
    else pieces[0] + [c] + JoinWith(pieces[1..], c)
  }

  predicate Without(pieces: seq<string>, c: char) {
    forall i :: 0 <= i < |pieces| ==> c !in pieces[i]
  }

  lemma NoSeparator(s: string, c: char)
    requires c !in s
    ensures Split(s, c) == [s]
  {
  }

  lemma SplitFirst(first: string, c: char, rest: string)
    requires c !in first
    ensures Split(first + [c] + rest, c) == [first] + Split(rest, c)
  {
    var s := first + [c] + rest;
    IndexOfFirst(first, c, rest);
    assert s[..|first|] == first && s[|first| + 1..] == rest;
  }

  lemma {:induction false} SplitUndoesJoin(pieces: seq<string>, c: char)
    requires pieces != [] && Without(pieces, c)
    ensures Split(JoinWith(pieces, c), c) == pieces
  {
    if |pieces| == 1 {
      NoSeparator(pieces[0], c);
    } else {
      SplitFirst(pieces[0], c, JoinWith(pieces[1..], c));
      SplitUndoesJoin(pieces[1..], c);
    }
  }

  lemma {:induction false} JoinUndoesSplit(s: string, c: char)
    ensures JoinWith(Split(s, c), c) == s && Without(Split(s, c), c)
    decreases |s|
  {
    var at := IndexOf(s, c);
    if at < |s| {
      JoinUndoesSplit(s[at + 1..], c);
      assert s == s[..at] + [c] + s[at + 1..];
      assert Split(s, c)[1..] == Split(s[at + 1..], c);
    }
  }

  lemma {:induction false} JoinNext(pieces: seq<string>, piece: string, c: char)
    requires pieces != []
    ensures JoinWith(pieces + [piece], c) == JoinWith(pieces, c) + [c] + piece
  {
    if |pieces| == 1 {
      assert (pieces + [piece])[1..] == [piece];
    } else {
      assert (pieces + [piece])[1..] == pieces[1..] + [piece];
      JoinNext(pieces[1..], piece, c);
    }
  }

  // ---- names -------------------------------------------------------------

  function NewName(value: string): Result<string, NameError> {
    var t := Trim(value);
    if t == "" then Err(EmptyName)
    else if ByteLen(t) > MAX_ENTRY_NAME_BYTES then Err(NameTooLong(ByteLen(t)))
    else if '\0' in t then Err(ContainsNul)
    else if '/' in t then Err(ContainsSlash)
    else if t == "." || t == ".." then Err(Reserved)
    else Ok(t)
  }

  /** The names the constructor can produce. */
  predicate IsName(name: string) {
    && name != "" && Trimmed(name) && ByteLen(name) <= 255
    && '\0' !in name && '/' !in name && name != "." && name != ".."
  }

  /** A constructed name is valid, and constructing it again changes nothing. */
  lemma NameRoundTrip(value: string)
    ensures NewName(value).Ok? ==> IsName(NewName(value).value)
    ensures IsName(value) <==> NewName(value) == Ok(value)
  {
    TrimIsTight(value, IsWhitespace);
    if Trimmed(value) {
      TightIsKept(value, IsWhitespace);
    }
  }

  predicate AllNames(names: seq<string>) {
    forall i :: 0 <= i < |names| ==> IsName(names[i])
  }

  // ---- paths -------------------------------------------------------------

  datatype EntryPath = EntryPath(text: string)

  function Core(value: string): string {
    Trim(TrimBy(Trim(value), c => c == '/'))
  }

  /** Every piece as a name, or the first error. */
  function NamesOf(pieces: seq<string>): Result<seq<string>, NameError> {
    if pieces == [] then Ok([])
    else
      var first :- NewName(pieces[0]);
      var rest :- NamesOf(pieces[1..]);
      Ok([first] + rest)
  }

  function ParsePath(value: string): Result<EntryPath, PathError> {
    var core := Core(value);
    if core == "" then Err(EmptyPath)
    else
      match NamesOf(Split(core, '/'))
      case Err(e) => Err(Segment(e))
      case Ok(names) =>
        var text := JoinWith(names, '/');
        if ByteLen(text) > MAX_ENTRY_PATH_BYTES then Err(PathTooLong(ByteLen(text))) else Ok(EntryPath(text))
  }

  /** Slashes around a path change nothing: `/a/b/` is `a/b`. */
  lemma SlashesAround(before: string, path: string, after: string)
    requires AllOf(before, c => c == '/') && AllOf(after, c => c == '/') && Trimmed(path)
    ensures ParsePath(before + path + after) == ParsePath(path)
  {
    hide IsWhitespace, TrimBy;
    var whole := before + path + after;
    assert Trimmed(whole) by {
      SlashIsNoBlank();
    }
    TightIsKept(whole, IsWhitespace);
    TightIsKept(path, IsWhitespace);
    TrimAround(before, path, after, c => c == '/');
  }

  /** Nor do blanks around it, or between it and the slashes. */
  lemma BlanksAround(before: string, path: string, after: string)
    requires AllOf(before, IsWhitespace) && AllOf(after, IsWhitespace)
    ensures ParsePath(before + path + after) == ParsePath(path)
  {
    hide IsWhitespace, TrimBy;
    TrimAround(before, path, after, IsWhitespace);
  }

  lemma SlashIsNoBlank()
    ensures !IsWhitespace('/')
  {
  }

  lemma {:induction false} NamesOfNext(pieces: seq<string>, i: nat)
    requires i < |pieces| && NamesOf(pieces[..i]).Ok?
    ensures NamesOf(pieces[..i + 1]) ==
            if NewName(pieces[i]).Ok? then Ok(NamesOf(pieces[..i]).value + [NewName(pieces[i]).value])
            else Err(NewName(pieces[i]).error)
    ensures NewName(pieces[i]).Err? ==> NamesOf(pieces) == Err(NewName(pieces[i]).error)
  {
    hide NewName;
    if i == 0 {
      assert pieces[..1][1..] == [] && pieces[..0] == [];
      if NewName(pieces[0]).Ok? {
        var first := [NewName(pieces[0]).value];
        assert first + [] == first && [] + first == first;
      }
    } else {
      assert pieces[..i][1..] == pieces[1..][..i - 1] && pieces[..i + 1][1..] == pieces[1..][..i];
      NamesOfNext(pieces[1..], i - 1);
      assert pieces[..i][0] == pieces[..i + 1][0] == pieces[0] && pieces[1..][i - 1] == pieces[i];
      if NewName(pieces[i]).Ok? {
        var last := [NewName(pieces[i]).value];
        var first, rest := [NewName(pieces[0]).value], NamesOf(pieces[1..][..i - 1]).value;
        assert first + (rest + last) == (first + rest) + last;
      }
    }
  }

  lemma {:induction false} NamesAreNames(pieces: seq<string>)
    requires NamesOf(pieces).Ok?
    ensures AllNames(NamesOf(pieces).value) && |NamesOf(pieces).value| == |pieces|
  {
    hide NewName, IsName;
    if pieces != [] {
      NameRoundTrip(pieces[0]);
      NamesAreNames(pieces[1..]);
    }
  }

  /** Builds the normalized text segment by segment. */
  method NewPath(value: string) returns (r: Result<EntryPath, PathError>)
    ensures r == ParsePath(value)
  {
    hide NewName, IsName, Core;
    var core := Core(value);
    if core == "" {
      return Err(EmptyPath);
    }
    var pieces := Split(core, '/');
    var normalized := "";
    for i := 0 to |pieces|
      invariant NamesOf(pieces[..i]).Ok? && |NamesOf(pieces[..i]).value| == i
      invariant AllNames(NamesOf(pieces[..i]).value)
      invariant normalized == JoinWith(NamesOf(pieces[..i]).value, '/')
      invariant i == 0 <==> normalized == ""
    {
      ghost var names := NamesOf(pieces[..i]).value;
      NamesOfNext(pieces, i);
      var name := NewName(pieces[i]);
      if name.Err? {
        return Err(Segment(name.error));
      }
      NamesAreNames(pieces[..i + 1]);
      assert name.value != "" by { NameRoundTrip(pieces[i]); NameIsNotEmpty(name.value); }
      if normalized != "" {
        JoinNext(names, name.value, '/');
        normalized := normalized + "/";
      }
      normalized := normalized + name.value;
    }
    assert pieces[..|pieces|] == pieces;
    if ByteLen(normalized) > MAX_ENTRY_PATH_BYTES {
      return Err(PathTooLong(ByteLen(normalized)));
    }
    return Ok(EntryPath(normalized));
  }

  lemma NameIsNotEmpty(name: string)
    requires IsName(name)
    ensures name != "" && '/' !in name
  {
  }

  const DRIVE_ROOT := EntryPath(DRIVE_ROOT_PATH)

  function Segments(p: EntryPath): seq<string> {
    Split(p.text, '/')
  }

  /** The paths below a drive root. */
  predicate IsPath(p: EntryPath) {
    AllNames(Segments(p)) && ByteLen(p.text) <= 2_048
  }

  function Join(p: EntryPath, name: string): Result<EntryPath, PathError>
    requires IsName(name)
  {
    if p == DRIVE_ROOT then Ok(EntryPath(name))
    else
      var child := p.text + "/" + name;
      if ByteLen(child) > MAX_ENTRY_PATH_BYTES then Err(PathTooLong(ByteLen(child))) else Ok(EntryPath(child))
  }

  /** The position of the last separator, or the length when there is none. */
  function LastIndexOf(s: string, c: char): (i: nat)
    ensures i <= |s|
    ensures i < |s| ==> s[i] == c
    ensures forall k :: i < k < |s| ==> s[k] != c
    ensures i == |s| ==> c !in s
  {
    if s == "" then 0
    else if s[|s| - 1] == c then |s| - 1
    else
      var i := LastIndexOf(s[..|s| - 1], c);
      if i == |s| - 1 then |s| else i
  }

  function Name(p: EntryPath): string {
    var at := LastIndexOf(p.text, '/');
    if at == |p.text| then p.text else p.text[at + 1..]
  }

  function Parent(p: EntryPath): Option<EntryPath> {
    var at := LastIndexOf(p.text, '/');
    if at == |p.text| then None else Some(EntryPath(p.text[..at]))
  }

  // ---- theorems ----------------------------------------------------------

  lemma {:induction false} JoinedEnds(names: seq<string>)
    requires names != [] && AllNames(names)
    ensures var t := JoinWith(names, '/');
            t != "" && t[0] == names[0][0] && t[|t| - 1] == names[|names| - 1][|names[|names| - 1]| - 1]
  {
    if |names| > 1 {
      JoinedEnds(names[1..]);
    }
  }

  lemma NamesAreTight(names: seq<string>)
    requires names != [] && AllNames(names)
    ensures Core(JoinWith(names, '/')) == JoinWith(names, '/')
    ensures Without(names, '/')
  {
    var t := JoinWith(names, '/');
    JoinedEnds(names);
    var first, last := names[0], names[|names| - 1];
    assert first[0] != '/' && last[|last| - 1] != '/';
    TightIsKept(t, IsWhitespace);
    TightIsKept(t, c => c == '/');
  }

  lemma {:induction false} NamesAreKept(names: seq<string>)
    requires AllNames(names)
    ensures NamesOf(names) == Ok(names)
  {
    hide IsName, NewName;
    if names != [] {
      NameRoundTrip(names[0]);
      NamesAreKept(names[1..]);
      assert [names[0]] + names[1..] == names;
    }
  }

  /** Parsing gives a valid path, and only a valid path parses to itself. */
  lemma ParsedPathIsPath(value: string)
    ensures ParsePath(value).Ok? ==> IsPath(ParsePath(value).value)
    ensures IsPath(EntryPath(value)) ==> ParsePath(value) == Ok(EntryPath(value))
  {
    hide IsName, NewName, Core;
    if ParsePath(value).Ok? {
      var names := NamesOf(Split(Core(value), '/')).value;
      NamesAreNames(Split(Core(value), '/'));
      NamesAreTight(names);
      SplitUndoesJoin(names, '/');
    }
    if IsPath(EntryPath(value)) {
      var names := Split(value, '/');
      JoinUndoesSplit(value, '/');
      NamesAreTight(names);
      NamesAreKept(names);
      EmptyIsNoPath();
    }
  }

  lemma EmptyIsNoPath()
    ensures !IsPath(EntryPath(""))
  {
    NoSeparator("", '/');
    assert !IsName(Segments(EntryPath(""))[0]);
  }

  /** Re-parsing a parsed path returns it. */
  lemma ReparseIsIdentity(value: string)
    requires ParsePath(value).Ok?
    ensures ParsePath(ParsePath(value).value.text) == ParsePath(value)
  {
    hide ParsePath;
    ParsedPathIsPath(value);
    ParsedPathIsPath(ParsePath(value).value.text);
  }

  /** The drive's root is no valid path, so it never collides with one. */
  lemma DriveRootIsNoPath()
    ensures !IsPath(DRIVE_ROOT) && forall value :: ParsePath(value) != Ok(DRIVE_ROOT)
  {
    NoSeparator(".", '/');
    assert !IsName(Segments(DRIVE_ROOT)[0]);
    forall value
      ensures ParsePath(value) != Ok(DRIVE_ROOT)
    {
      ParsedPathIsPath(value);
    }
  }

  // ---- joining -----------------------------------------------------------

  lemma {:induction false} SplitLast(s: string, c: char, last: string)
    requires c !in last
    ensures Split(s + [c] + last, c) == Split(s, c) + [last]
    decreases |s|
  {
    var at := IndexOf(s, c);
    if at == |s| {
      SplitFirst(s, c, last);
      NoSeparator(last, c);
    } else {
      var first, rest := s[..at], s[at + 1..];
      assert s == first + [c] + rest;
      assert s + [c] + last == first + [c] + (rest + [c] + last);
      SplitFirst(first, c, rest + [c] + last);
      SplitLast(rest, c, last);
    }
  }

  /** A child of a path, or of the drive's root, is a path. */
  lemma JoinGivesPath(p: EntryPath, name: string)
    requires (IsPath(p) || p == DRIVE_ROOT) && IsName(name) && Join(p, name).Ok?
    ensures IsPath(Join(p, name).value)
    ensures Segments(Join(p, name).value) == if p == DRIVE_ROOT then [name] else Segments(p) + [name]
  {
    if p == DRIVE_ROOT {
      NoSeparator(name, '/');
    } else {
      assert p.text + "/" + name == p.text + ['/'] + name;
      SplitLast(p.text, '/', name);
    }
  }

  lemma LastSeparator(before: string, c: char, last: string)
    requires c !in last
    ensures LastIndexOf(before + [c] + last, c) == |before|
  {
    var s := before + [c] + last;
    assert s[|before|] == c && s[|before| + 1..] == last;
    forall i: nat | |before| < i < |s|
      ensures s[i] != c
    {
      assert s[i] == last[i - |before| - 1];
    }
  }

  /** Below a folder that is not the drive's root, `parent` and `name` undo `join`. */
  lemma JoinIsUndone(p: EntryPath, name: string)
    requires IsName(name) && Join(p, name).Ok?
    ensures var child := Join(p, name).value;
            Name(child) == name && (Parent(child) == if p == DRIVE_ROOT then None else Some(p))
  {
    hide LastIndexOf, ByteLen, IsName;
    NameIsNotEmpty(name);
    assert p == DRIVE_ROOT ==> LastIndexOf(name, '/') == |name| by { NoLast(name, '/'); }
    var child := p.text + "/" + name;
    assert child == p.text + ['/'] + name;
    LastSeparator(p.text, '/', name);
    assert child[..|p.text|] == p.text && child[|p.text| + 1..] == name;
  }

  lemma NoLast(s: string, c: char)
    requires c !in s
    ensures LastIndexOf(s, c) == |s|
  {
  }

  lemma PrefixIsShorter(before: string, rest: string)
    ensures ByteLen(before) <= ByteLen(before + rest)
  {
    Utf8Append(before, rest);
  }

  /** And `join` undoes them: every path is its parent's child of its own name. */
  lemma PathIsItsParentsChild(p: EntryPath)
    requires IsPath(p)
    ensures IsName(Name(p))
    ensures Parent(p).None? ==> Join(DRIVE_ROOT, Name(p)) == Ok(p)
    ensures Parent(p).Some? ==> IsPath(Parent(p).value) && Join(Parent(p).value, Name(p)) == Ok(p)
  {
    hide IsName, ByteLen, Split;
    var s := p.text;
    var at := LastIndexOf(s, '/');
    if at == |s| {
      NoSeparator(s, '/');
      assert IsName(Segments(p)[0]);
    } else {
      var before, last := s[..at], s[at + 1..];
      assert s == before + ['/'] + last && s == before + "/" + last;
      SplitLast(before, '/', last);
      assert Segments(p)[|Segments(p)| - 1] == last;
      assert forall i :: 0 <= i < |Split(before, '/')| ==> Split(before, '/')[i] == Segments(p)[i];
      assert s == before + ("/" + last);
      PrefixIsShorter(before, "/" + last);
      DriveRootIsNoPath();
    }
  }

  /** Folding `join` over names, from a folder. */
  function JoinAll(p: EntryPath, names: seq<string>): Result<EntryPath, PathError>
    requires AllNames(names)
    decreases |names|
  {
    if names == [] then Ok(p)
    else
      var child :- Join(p, names[0]);
      JoinAll(child, names[1..])
  }

  lemma {:induction false} JoinAllLast(p: EntryPath, names: seq<string>, last: string)
    requires AllNames(names) && IsName(last)
    ensures JoinAll(p, names + [last]) ==
            match JoinAll(p, names) case Ok(q) => Join(q, last) case Err(e) => Err(e)
    decreases |names|
  {
    hide IsName, Join;
    if names == [] {
      assert (names + [last])[1..] == [];
    } else {
      assert (names + [last])[1..] == names[1..] + [last];
      match Join(p, names[0])
      case Ok(child) => JoinAllLast(child, names[1..], last);
      case Err(_) =>
    }
  }

  /** Folding `join` over a path's segments, from the drive's root, rebuilds the path. */
  lemma {:induction false} FoldRebuildsPath(p: EntryPath)
    requires IsPath(p)
    ensures JoinAll(DRIVE_ROOT, Segments(p)) == Ok(p)
    decreases |p.text|
  {
    hide IsName, Join;
    PathIsItsParentsChild(p);
    match Parent(p)
    case None =>
      NoSeparator(p.text, '/');
      JoinAllLast(DRIVE_ROOT, [], Name(p));
      assert [] + [Name(p)] == [Name(p)] == Segments(p);
    case Some(parent) =>
      FoldRebuildsPath(parent);
      JoinGivesPath(parent, Name(p));
      assert parent != DRIVE_ROOT by { DriveRootIsNoPath(); }
      JoinAllLast(DRIVE_ROOT, Segments(parent), Name(p));
  }
}
