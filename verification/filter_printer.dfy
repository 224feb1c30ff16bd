/** A canonical printer for filter queries. */
module FilterPrinter {
  import opened Wrappers
  import opened Text
  import opened FilterLexer
  import opened FilterValues
  import opened FilterParser
  import opened FilterStructure

  // ---- one condition -----------------------------------------------------

  function KeyText(c: Condition): string {
    match c
    case ChangedAfter(_) => "after"
    case ChangedBefore(_) => "before"
    case ChangedBetween(_, _) => "between"
    case CreatedBy(_) => "from"
    case SharedWith(_) => "to"
    case AccessibleTo(_) => "for"
    case Contains(_) => "contains"
    case HasContent(_) => "has"
    case NameMatches(_) => "name"
    case InLocation(_) => "location"
    case HasPermission(_) => "permissions"
    case _ => "is"
  }

  function TwoDigitText(n: nat): string
    requires n < 100
  {
    [DigitChar(n / 10), DigitChar(n % 10)]
  }

  function DateText(d: Date): string
    requires ValidDate(d)
  {
    TwoDigitText(d.day) + "-" + TwoDigitText(d.month) + "-" + TwoDigitText(d.year / 100) + TwoDigitText(d.year % 100)
  }

  function RenderText(r: RenderKind): string {
    match r
    case Image => "image"
    case Video => "video"
    case Document => "document"
    case Spreadsheet => "spreadsheet"
    case Presentation => "presentation"
    case Audio => "audio"
    case Archive => "archive"
    case Code => "code"
    case Unsupported => "unsupported"
  }

  function AccessText(a: Access): string {
    match a
    case Read => "read"
    case Write => "write"
    case Update => "update"
    case Delete => "delete"
    case ManagePermissions => "manage"
  }

  predicate ReadableTerm(term: string) {
    term != "" && Trimmed(term) && !OnlyStars(term)
  }

  predicate ReadableSelector(s: Selector) {
    s.id != "" && Trimmed(s.id) && ByteLen(s.id) <= 255 && s.kind == KindOf(s.id)
  }

  /** The conditions the value parsers can produce. */
  predicate Readable(c: Condition) {
    match c
    case ChangedAfter(d) => ValidDate(d)
    case ChangedBefore(d) => ValidDate(d)
    case ChangedBetween(a, b) => ValidDate(a) && ValidDate(b) && !Later(a, b)
    case CreatedBy(s) => ReadableSelector(s)
    case SharedWith(s) => ReadableSelector(s)
    case AccessibleTo(s) => ReadableSelector(s)
    case Contains(t) => ReadableTerm(t)
    case HasContent(t) => ReadableTerm(t)
    case NameMatches(t) => ReadableTerm(t)
    case InLocation(t) => ReadableTerm(t)
    case HasExtension(x) => Plausible(x) && Lower(x) == x && NamedIs(x).None?
    case _ => true
  }

  function ValueText(c: Condition): string
    requires Readable(c)
  {
    match c
    case ChangedAfter(d) => DateText(d)
    case ChangedBefore(d) => DateText(d)
    case ChangedBetween(a, b) => DateText(a) + "=" + DateText(b)
    case CreatedBy(s) => "@{" + s.id + "}"
    case SharedWith(s) => "@{" + s.id + "}"
    case AccessibleTo(s) => "@{" + s.id + "}"
    case Contains(t) => t
    case HasContent(t) => t
    case NameMatches(t) => t
    case InLocation(t) => t
    case IsKind(k) => if k.File? then "file" else "folder"
    case IsRender(r) => RenderText(r)
    case HasExtension(x) => x
    case IsExpiring => "expiring"
    case IsSelfDestruct => "self-destruct"
    case HasPermission(a) => AccessText(a)
  }

  /** A value can be quoted when some quote character does not occur in it. */
  predicate Quotable(value: string) {
    '\'' !in value || '"' !in value
  }

  function QuoteFor(value: string): char {
    if '\'' in value then '"' else '\''
  }

  function WordText(key: string, value: string): string {
    key + ":" + [QuoteFor(value)] + value + [QuoteFor(value)]
  }

  // ---- expressions -------------------------------------------------------

  /** Normal form, with every leaf readable and quotable. */
  predicate Printable(e: Expression) {
    match e
    case All(children) => |children| >= 2 && forall i :: 0 <= i < |children| ==> Printable(children[i])
    case Any(children) => |children| >= 2 && forall i :: 0 <= i < |children| ==> Printable(children[i])
    case Not(inner) => Printable(inner)
    case Leaf(c) => Readable(c) && Quotable(ValueText(c))
  }

  predicate AllPrintable(es: seq<Expression>) {
    forall i :: 0 <= i < |es| ==> Printable(es[i])
  }

  function UnaryTokens(e: Expression): seq<Token>
    requires Printable(e)
    decreases e, 0
  {
    match e
    case Leaf(c) => [Term(Some(KeyText(c)), ValueText(c))]
    case Not(inner) => [Token.Not] + UnaryTokens(inner)
    case All(children) => [Open] + ListTokens(children) + [Close]
    case Any(children) => [Open] + OrTokens(children) + [Close]
  }

  function ListTokens(es: seq<Expression>): seq<Token>
    requires AllPrintable(es)
    decreases es, 0
  {
    if es == [] then [] else UnaryTokens(es[0]) + ListTokens(es[1..])
  }

  function AllTokens(e: Expression): seq<Token>
    requires Printable(e)
    decreases e, 1
  {
    if e.All? then ListTokens(e.children) else UnaryTokens(e)
  }

  function OrTokens(es: seq<Expression>): seq<Token>
    requires AllPrintable(es)
    decreases es, 0
  {
    if es == [] then []
    else if |es| == 1 then AllTokens(es[0])
    else AllTokens(es[0]) + [Or] + OrTokens(es[1..])
  }

  function AnyTokens(e: Expression): seq<Token>
    requires Printable(e)
  {
    if e.Any? then OrTokens(e.children) else AllTokens(e)
  }

  function UnaryText(e: Expression): string
    requires Printable(e)
    decreases e, 0
  {
    match e
    case Leaf(c) => WordText(KeyText(c), ValueText(c))
    case Not(inner) => "-" + UnaryText(inner)
    case All(children) => "(" + ListText(children) + ")"
    case Any(children) => "(" + OrText(children) + ")"
  }

  function ListText(es: seq<Expression>): string
    requires AllPrintable(es)
    decreases es, 0
  {
    if es == [] then ""
    else if |es| == 1 then UnaryText(es[0])
    else UnaryText(es[0]) + " " + ListText(es[1..])
  }

  function AllText(e: Expression): string
    requires Printable(e)
    decreases e, 1
  {
    if e.All? then ListText(e.children) else UnaryText(e)
  }

  function OrText(es: seq<Expression>): string
    requires AllPrintable(es)
    decreases es, 0
  {
    if es == [] then ""
    else if |es| == 1 then AllText(es[0])
    else AllText(es[0]) + " or " + OrText(es[1..])
  }

  function AnyText(e: Expression): string
    requires Printable(e)
  {
    if e.Any? then OrText(e.children) else AllText(e)
  }

  // ---- queries -----------------------------------------------------------

  function NatText(n: nat): string {
    if n < 10 then [DigitChar(n)] else NatText(n / 10) + [DigitChar(n % 10)]
  }

  function SortText(s: SortOrder): string {
    if s.Newest? then "newest" else "oldest"
  }

  function TakeKey(t: Take): string {
    if t.end.Newest? then "last" else "first"
  }

  predicate PrintableQuery(q: Query) {
    && (q.take.Some? ==> 1 <= q.take.value.count <= MAX_FILTER_TAKE)
    && (q.expression.Some? ==> Printable(q.expression.value) && |Leaves(q.expression.value)| <= MAX_FILTER_PREDICATES)
  }

  function ModifierTokens(q: Query): seq<Token> {
    [Term(Some("sort"), SortText(q.sort))]
    + (if q.take.Some? then [Term(Some(TakeKey(q.take.value)), NatText(q.take.value.count))] else [])
  }

  function QueryTokens(q: Query): seq<Token>
    requires PrintableQuery(q)
  {
    ModifierTokens(q) + (if q.expression.Some? then AnyTokens(q.expression.value) else [])
  }

  function QueryText(q: Query): string
    requires PrintableQuery(q)
  {
    WordText("sort", SortText(q.sort))
    + (if q.take.Some? then " " + WordText(TakeKey(q.take.value), NatText(q.take.value.count)) else "")
    + (if q.expression.Some? then " " + AnyText(q.expression.value) else "")
  }
}
