/** Filter conditions and how the value of each key is read. */
module FilterValues {
  import opened Wrappers
  import opened Text
  import opened Calendar
  import opened FilterLexer

  datatype Date = Date(year: nat, month: nat, day: nat)
  datatype ActorKind = Carbon | Silicon
  datatype Selector = Selector(kind: Option<ActorKind>, id: string)
  datatype EntryKind = File | Folder
  datatype RenderKind =
    Image | Video | Document | Spreadsheet | Presentation | Audio | Archive | Code | Unsupported
  datatype Access = Read | Write | Update | Delete | ManagePermissions

  datatype Condition =
    | ChangedAfter(day: Date)
    | ChangedBefore(day: Date)
    | ChangedBetween(first: Date, last: Date)
    | CreatedBy(selector: Selector)
    | SharedWith(selector: Selector)
    | AccessibleTo(selector: Selector)
    | Contains(term: string)
    | HasContent(term: string)
    | NameMatches(term: string)
    | IsKind(kind: EntryKind)
    | IsRender(render: RenderKind)
    | HasExtension(extension: string)
    | IsExpiring
    | IsSelfDestruct
    | InLocation(term: string)
    | HasPermission(access: Access)

  datatype SortOrder = Newest | Oldest
  datatype Take = Take(end: SortOrder, count: nat)

  const MAX_FILTER_TAKE := 100

  /** What one term means: a condition, a presentation order, or a result cap. */
  datatype Meaning = Leaf(condition: Condition) | Order(sort: SortOrder) | Cap(take: Take)

  type Reading<T> = Result<T, FilterError>

  predicate IsModifierKey(key: string) {
    key == "last" || key == "first" || key == "sort"
  }

  // ---- values ------------------------------------------------------------

  predicate OnlyStars(s: string) {
    forall i :: 0 <= i < |s| ==> s[i] == '*'
  }

  function Glob(key: string, value: string): Reading<string> {
    var t := Trim(value);
    if t == "" || OnlyStars(t) then Err(InvalidValue(key)) else Ok(t)
  }

  predicate ValidDate(d: Date) {
    d.year <= 9_999 && 1 <= d.month <= 12 && 1 <= d.day <= DaysInMonth(d.year, d.month)
  }

  predicate Later(a: Date, b: Date) {
    a.year > b.year || (a.year == b.year && (a.month > b.month || (a.month == b.month && a.day > b.day)))
  }

  function TwoDigits(s: string, at: nat): nat
    requires at + 2 <= |s| && IsDigit(s[at]) && IsDigit(s[at + 1])
  {
    10 * DigitValue(s[at]) + DigitValue(s[at + 1])
  }

  /** `DD-MM-YYYY` naming a real calendar day. */
  function ParseDate(key: string, value: string): Reading<Date> {
    var t := Trim(value);
    if |t| == 10 && t[2] == '-' && t[5] == '-'
       && (forall i :: 0 <= i < 10 && i != 2 && i != 5 ==> IsDigit(t[i]))
    then
      var d := Date(100 * TwoDigits(t, 6) + TwoDigits(t, 8), TwoDigits(t, 3), TwoDigits(t, 0));
      if ValidDate(d) then Ok(d) else Err(InvalidValue(key))
    else Err(InvalidValue(key))
  }

  function ParseBetween(key: string, value: string): Reading<Condition> {
    var at := IndexOf(value, '=');
    if at == |value| then Err(InvalidValue(key))
    else
      var first :- ParseDate(key, value[..at]);
      var last :- ParseDate(key, value[at + 1..]);
      if Later(first, last) then Err(InvalidValue(key)) else Ok(ChangedBetween(first, last))
  }

  /** The principal kind named by the first colon-separated segment, if any. */
  function KindOf(id: string): Option<ActorKind> {
    var at := IndexOf(id, ':');
    if at == |id| then None
    else if id[..at] == "c" then Some(Carbon)
    else if id[..at] == "si" then Some(Silicon)
    else None
  }

  function ParseActor(key: string, value: string): Reading<Selector> {
    var trimmed := Trim(value);
    var bare := if trimmed != "" && trimmed[0] == '@' then Trim(trimmed[1..]) else Trim(trimmed);
    var inner := Trim(if |bare| >= 2 && bare[0] == '{' && bare[|bare| - 1] == '}' then bare[1..|bare| - 1] else bare);
    if inner == "" || ByteLen(inner) > 255 then Err(InvalidValue(key))
    else Ok(Selector(KindOf(inner), inner))
  }

  function ParsePermission(key: string, value: string): Reading<Access> {
    var v := Lower(Trim(value));
    if v == "read" then Ok(Access.Read)
    else if v == "write" then Ok(Write)
    else if v == "update" then Ok(Update)
    else if v == "delete" then Ok(Delete)
    else if v == "manage_permissions" || v == "manage" then Ok(ManagePermissions)
    else Err(InvalidValue(key))
  }

  /** The words of `is:` that are not extensions. */
  function NamedIs(v: string): Option<Condition> {
    if v == "file" then Some(IsKind(File))
    else if v == "folder" || v == "directory" then Some(IsKind(Folder))
    else if v == "image" then Some(IsRender(Image))
    else if v == "video" then Some(IsRender(Video))
    else if v == "document" then Some(IsRender(Document))
    else if v == "spreadsheet" then Some(IsRender(Spreadsheet))
    else if v == "presentation" then Some(IsRender(Presentation))
    else if v == "audio" then Some(IsRender(Audio))
    else if v == "archive" then Some(IsRender(Archive))
    else if v == "code" then Some(IsRender(Code))
    else if v == "unsupported" then Some(IsRender(Unsupported))
    else if v == "expiring" then Some(IsExpiring)
    else if v == "self-destruct" || v == "self_destruct" || v == "selfdestruct" then Some(IsSelfDestruct)
    else None
  }

  predicate Plausible(v: string) {
    1 <= |v| <= 16 && forall i :: 0 <= i < |v| ==> IsAlphanumeric(v[i])
  }

  function ParseIs(key: string, value: string): Reading<Condition> {
    var v := Lower(TrimStart(Trim(value), c => c == '.'));
    match NamedIs(v)
    case Some(p) => Ok(p)
    case None => if Plausible(v) then Ok(HasExtension(v)) else Err(InvalidValue(key))
  }

  /** Decimal digits as an unsigned 16-bit number, leading zeros allowed. */
  function ParseDigits(s: string): Option<nat> {
    if s == "" then Some(0)
    else if !IsDigit(s[|s| - 1]) then None
    else
      match ParseDigits(s[..|s| - 1])
      case None => None
      case Some(high) =>
        var n := 10 * high + DigitValue(s[|s| - 1]);
        if n > 65_535 then None else Some(n)
  }

  function ParseU16(s: string): Option<nat> {
    var digits := if s != "" && s[0] == '+' then s[1..] else s;
    if digits == "" then None else ParseDigits(digits)
  }

  function ParseModifier(key: string, value: string): Reading<Meaning>
    requires IsModifierKey(key)
  {
    if key == "sort" then
      var v := Lower(value);
      if v == "newest" then Ok(Order(Newest))
      else if v == "oldest" then Ok(Order(Oldest))
      else Err(InvalidValue(key))
    else
      match ParseU16(value)
      case None => Err(InvalidValue(key))
      case Some(count) =>
        if 1 <= count <= MAX_FILTER_TAKE then Ok(Cap(Take(if key == "last" then Newest else Oldest, count)))
        else Err(InvalidValue(key))
  }

  /** The condition a non-modifier term states; a bare word means `contains`. */
  function ParseCondition(key: Option<string>, value: string): Reading<Condition> {
    var k := key.GetOr("contains");
    if k == "after" then var d :- ParseDate(k, value); Ok(ChangedAfter(d))
    else if k == "before" then var d :- ParseDate(k, value); Ok(ChangedBefore(d))
    else if k == "between" then ParseBetween(k, value)
    else if k == "from" then var a :- ParseActor(k, value); Ok(CreatedBy(a))
    else if k == "to" then var a :- ParseActor(k, value); Ok(SharedWith(a))
    else if k == "for" then var a :- ParseActor(k, value); Ok(AccessibleTo(a))
    else if k == "contains" then var g :- Glob(k, value); Ok(Contains(g))
    else if k == "has" then var g :- Glob(k, value); Ok(HasContent(g))
    else if k == "name" then var g :- Glob(k, value); Ok(NameMatches(g))
    else if k == "location" then var g :- Glob(k, value); Ok(InLocation(g))
    else if k == "permissions" || k == "permission" then var p :- ParsePermission(k, value); Ok(HasPermission(p))
    else if k == "is" then ParseIs(k, value)
    else Err(UnknownKey(k))
  }
}
