/** Moving a caller between drives, and the rights it has where it arrives. */
module Drives {
  import opened Wrappers
  import opened Text

  // ---- accounts ----------------------------------------------------------

  predicate IsLowerHex(c: char) {
    IsDigit(c) || 'a' <= c <= 'f'
  }

  /** A canonical lower-case UUID, or a legacy alphanumeric identifier. */
  predicate IsAccountUuid(s: string) {
    || (3 <= |s| <= 32 && forall i :: 0 <= i < |s| ==> IsAlphanumeric(s[i]))
    || (|s| == 36 && forall i :: 0 <= i < 36 ==>
          if i == 8 || i == 13 || i == 18 || i == 23 then s[i] == '-' else IsLowerHex(s[i]))
  }

  type AccountUuid = s: string | IsAccountUuid(s) witness "abc"

  predicate AllIn(s: string, letters: string) {
    forall i :: 0 <= i < |s| ==> s[i] in letters
  }

  /** The long form: groups of 8, 4, 4, 4 and 12 small hexadecimal digits, joined by dashes. */
  lemma LongAccountUuid(a: string, b: string, c: string, d: string, e: string)
    requires |a| == 8 && |b| == 4 && |c| == 4 && |d| == 4 && |e| == 12
    ensures IsAccountUuid(a + "-" + b + "-" + c + "-" + d + "-" + e) <==>
            AllIn(a, "0123456789abcdef") && AllIn(b, "0123456789abcdef") && AllIn(c, "0123456789abcdef")
            && AllIn(d, "0123456789abcdef") && AllIn(e, "0123456789abcdef")
  {
    hide IsLowerHex;
    var s := a + "-" + b + "-" + c + "-" + d + "-" + e;
    assert s[..8] == a && s[9..13] == b && s[14..18] == c && s[19..23] == d && s[24..] == e;
    assert s[8] == '-' && s[13] == '-' && s[18] == '-' && s[23] == '-';
    LowerHexDigits(a);
    LowerHexDigits(b);
    LowerHexDigits(c);
    LowerHexDigits(d);
    LowerHexDigits(e);
    GroupsOf(s);
  }

  lemma LowerHexDigits(s: string)
    ensures AllIn(s, "0123456789abcdef") <==> forall i :: 0 <= i < |s| ==> IsLowerHex(s[i])
  {
    forall i | 0 <= i < |s|
      ensures s[i] in "0123456789abcdef" <==> IsLowerHex(s[i])
    {
      LowerHexDigit(s[i]);
    }
  }

  lemma LowerHexDigit(c: char)
    ensures c in "0123456789abcdef" <==> IsLowerHex(c)
  {
    var digits := "0123456789abcdef";
    if '0' <= c <= '9' {
      assert digits[c as int - '0' as int] == c;
    } else if 'a' <= c <= 'f' {
      assert digits[c as int - 'a' as int + 10] == c;
    }
  }

  lemma GroupsOf(s: string)
    requires |s| == 36 && s[8] == '-' && s[13] == '-' && s[18] == '-' && s[23] == '-'
    ensures IsAccountUuid(s) <==>
            && (forall i :: 0 <= i < 8 ==> IsLowerHex(s[..8][i]))
            && (forall i :: 0 <= i < 4 ==> IsLowerHex(s[9..13][i]))
            && (forall i :: 0 <= i < 4 ==> IsLowerHex(s[14..18][i]))
            && (forall i :: 0 <= i < 4 ==> IsLowerHex(s[19..23][i]))
            && (forall i :: 0 <= i < 12 ==> IsLowerHex(s[24..][i]))
  {
    hide IsLowerHex;
    if forall i :: 0 <= i < 36 ==> if i == 8 || i == 13 || i == 18 || i == 23 then s[i] == '-' else IsLowerHex(s[i]) {
    } else {
      var i :| 0 <= i < 36 && i != 8 && i != 13 && i != 18 && i != 23 && !IsLowerHex(s[i]);
      if i < 8 {
        assert s[..8][i] == s[i];
      } else if i < 13 {
        assert s[9..13][i - 9] == s[i];
      } else if i < 18 {
        assert s[14..18][i - 14] == s[i];
      } else if i < 23 {
        assert s[19..23][i - 19] == s[i];
      } else {
        assert s[24..][i - 24] == s[i];
      }
    }
  }

  const DIGITS := "0123456789"
  const SMALL := "abcdefghijklmnopqrstuvwxyz"
  const CAPITALS := "ABCDEFGHIJKLMNOPQRSTUVWXYZ"

  /** Without dashes in the four places, only the short form: 3 to 32 letters and digits. */
  lemma ShortAccountUuid(s: string)
    requires |s| == 36 ==> s[8] != '-' || s[13] != '-' || s[18] != '-' || s[23] != '-'
    ensures IsAccountUuid(s) <==>
            3 <= |s| <= 32 && forall i :: 0 <= i < |s| ==> s[i] in DIGITS || s[i] in SMALL || s[i] in CAPITALS
  {
    forall i | 0 <= i < |s|
      ensures s[i] in DIGITS || s[i] in SMALL || s[i] in CAPITALS <==> IsAlphanumeric(s[i])
    {
      hide DIGITS, SMALL, CAPITALS;
      DigitOrNot(s[i]);
      SmallOrNot(s[i]);
      CapitalOrNot(s[i]);
    }
    hide DIGITS, SMALL, CAPITALS, IsAlphanumeric, IsLowerHex;
  }

  lemma DigitOrNot(c: char)
    ensures c in DIGITS <==> '0' <= c <= '9'
  {
    if '0' <= c <= '9' {
      assert DIGITS[c as int - '0' as int] == c;
    }
  }

  lemma SmallOrNot(c: char)
    ensures c in SMALL <==> 'a' <= c <= 'z'
  {
    if 'a' <= c <= 'z' {
      assert SMALL[c as int - 'a' as int] == c;
    }
  }

  lemma CapitalOrNot(c: char)
    ensures c in CAPITALS <==> 'A' <= c <= 'Z'
  {
    if 'A' <= c <= 'Z' {
      assert CAPITALS[c as int - 'A' as int] == c;
    }
  }

  datatype Kind = Carbon | Silicon

  datatype Credential = AccessToken | Proof(app: string, firstParty: bool)

  datatype Account = Account(uuid: AccountUuid, kind: Kind, credential: Credential) {
    function IssuingApp(): Option<string> {
      match credential case AccessToken => None case Proof(app, _) => Some(app)
    }

    /** The third-party app that may touch nothing but its own folder, if one acts here. */
    function ConfinedApp(): Option<string> {
      match credential
      case Proof(app, firstParty) => if firstParty then None else Some(app)
      case AccessToken => None
    }
  }

  datatype CustodyFacts = CustodyFacts(uuid: AccountUuid, kind: Kind, custodian: Option<AccountUuid>)

  predicate IsCustodianOf(custodian: AccountUuid, facts: CustodyFacts) {
    facts.kind == Silicon && facts.custodian == Some(custodian)
  }

  // ---- requests ----------------------------------------------------------

  datatype ActorRef = ActorRef(kind: Kind, id: AccountUuid)

  datatype Access = Owner | Custodian | Visitor

  datatype Mode = Bearer | OnBehalfOf(app: string) | FirstPartyOnBehalfOf(app: string)

  datatype Context = Context(
    account: Option<Account>, drive: AccountUuid, owner: ActorRef, actor: ActorRef,
    access: Access, creators: set<AccountUuid>, mode: Mode)
  {
    predicate HasOwnerRights() {
      access.Owner? || access.Custodian?
    }

    predicate IsCreator(creator: ActorRef) {
      creator.id in creators
    }

    function InDrive(owner: ActorRef, access: Access): Context {
      this.(drive := owner.id, owner := owner, access := access)
    }

    function WithCustodialSilicons(silicons: set<AccountUuid>): Context {
      this.(creators := creators + silicons)
    }
  }

  function ForDrive(owner: ActorRef, actor: ActorRef, access: Access, mode: Mode): Context {
    Context(None, owner.id, owner, actor, access, {actor.id}, mode)
  }

  function ModeOf(account: Account): Mode {
    match (account.IssuingApp(), account.ConfinedApp())
    case (Some(app), Some(_)) => OnBehalfOf(app)
    case (Some(app), None) => FirstPartyOnBehalfOf(app)
    case (None, _) => Bearer
  }

  /** A verified account acting in its own drive. */
  function ForAccount(account: Account): Context {
    var actor := ActorRef(account.kind, account.uuid);
    ForDrive(actor, actor, Owner, ModeOf(account)).(account := Some(account))
  }

  // ---- moving ------------------------------------------------------------

  datatype MoveError = NotFound | UnknownSelector | DirectoryFailed

  /** What Silicon Accounts and the database answer: custody, custodial Silicons, entries and names. */
  datatype Directory = Directory(
    custody: map<AccountUuid, Result<CustodyFacts, MoveError>>,
    silicons: map<AccountUuid, Result<set<AccountUuid>, MoveError>>,
    entries: map<nat, string>,
    names: map<string, AccountUuid>)
  {
    function Custody(uuid: AccountUuid): Result<CustodyFacts, MoveError> {
      if uuid in custody then custody[uuid] else Err(NotFound)
    }

    /** The Silicons a Carbon looks after; a confined app never carries them. */
    function CustodialSilicons(account: Account): Result<set<AccountUuid>, MoveError> {
      if account.kind != Carbon || account.ConfinedApp().Some? then Ok({})
      else if account.uuid in silicons then silicons[account.uuid]
      else Ok({})
    }
  }

  function EnterWithSharedRead(d: Directory, c: Context, drive: string, sharedRead: bool): Result<Context, MoveError> {
    match c.account
    case None => Ok(c)
    case Some(account) =>
      var custodial :- d.CustodialSilicons(account);
      if drive == account.uuid then Ok(c.InDrive(c.actor, Owner).WithCustodialSilicons(custodial))
      else if account.ConfinedApp().Some? && !sharedRead then Err(NotFound)
      else if !IsAccountUuid(drive) then Err(NotFound)
      else
        var facts :- d.Custody(drive);
        var access :=
          if account.ConfinedApp().None? && account.kind == Carbon && IsCustodianOf(account.uuid, facts)
          then Custodian else Visitor;
        Ok(c.InDrive(ActorRef(facts.kind, drive), access).WithCustodialSilicons(custodial))
  }

  function Enter(d: Directory, c: Context, drive: string): Result<Context, MoveError> {
    EnterWithSharedRead(d, c, drive, false)
  }

  function Own(d: Directory, c: Context): Result<Context, MoveError> {
    match c.account
    case None => Ok(c)
    case Some(account) => Enter(d, c, account.uuid)
  }

  function ForEntryWithSharedRead(d: Directory, c: Context, entry: nat, sharedRead: bool): Result<Context, MoveError> {
    if entry in d.entries then EnterWithSharedRead(d, c, d.entries[entry], sharedRead) else Own(d, c)
  }

  function Named(d: Directory, c: Context, selector: Option<string>): Result<Context, MoveError> {
    if selector.None? || Trim(selector.value) == "" then Own(d, c)
    else if Trim(selector.value) !in d.names then Err(UnknownSelector)
    else Enter(d, c, d.names[Trim(selector.value)])
  }

  datatype Move =
    | ToEntry(entry: nat)
    | ToDelegatedRead(entry: nat)
    | ToNamed(selector: Option<string>)
    | ToOwn
    | ToDrive(drive: string)

  function Apply(d: Directory, c: Context, m: Move): Result<Context, MoveError> {
    match m
    case ToEntry(entry) => ForEntryWithSharedRead(d, c, entry, false)
    case ToDelegatedRead(entry) => ForEntryWithSharedRead(d, c, entry, true)
    case ToNamed(selector) => Named(d, c, selector)
    case ToOwn => Own(d, c)
    case ToDrive(drive) => Enter(d, c, drive)
  }

  function Run(d: Directory, c: Context, moves: seq<Move>): Result<Context, MoveError>
    decreases |moves|
  {
    if moves == [] then Ok(c)
    else
      var next :- Apply(d, c, moves[0]);
      Run(d, next, moves[1..])
  }

  // ---- where a move leads, from the caller alone -------------------------

  /** The drive a move names, for one caller. */
  function Destination(d: Directory, account: Account, m: Move): string {
    match m
    case ToEntry(entry) => if entry in d.entries then d.entries[entry] else account.uuid
    case ToDelegatedRead(entry) => if entry in d.entries then d.entries[entry] else account.uuid
    case ToNamed(selector) =>
      if selector.Some? && Trim(selector.value) in d.names && Trim(selector.value) != ""
      then d.names[Trim(selector.value)] else account.uuid
    case ToOwn => account.uuid
    case ToDrive(drive) => drive
  }

  /** A third-party app acts. Access tokens and first-party apps are not confined. */
  predicate IsConfined(account: Account) {
    account.credential.Proof? && !account.credential.firstParty
  }

  /** The custodian rule: an unconfined Carbon, recorded as the custodian of the Silicon that owns the drive. */
  predicate LooksAfter(d: Directory, account: Account, drive: AccountUuid) {
    && !IsConfined(account) && account.kind == Carbon
    && d.Custody(drive).Ok? && d.Custody(drive).value.kind == Silicon
    && d.Custody(drive).value.custodian == Some(account.uuid)
  }

  /** The caller itself, and the Silicons an unconfined Carbon is recorded to look after. */
  function Creators(d: Directory, account: Account): set<AccountUuid> {
    if account.kind == Carbon && !IsConfined(account) && account.uuid in d.silicons && d.silicons[account.uuid].Ok?
    then {account.uuid} + d.silicons[account.uuid].value
    else {account.uuid}
  }

  /** How the request is made, by its credential. */
  predicate ModeFits(credential: Credential, mode: Mode) {
    match mode
    case Bearer => credential == AccessToken
    case OnBehalfOf(app) => credential == Proof(app, false)
    case FirstPartyOnBehalfOf(app) => credential == Proof(app, true)
  }

  /** A context of this caller whose creators are those of the directory, or fewer. */
  predicate Carries(d: Directory, account: Account, c: Context) {
    && c.account == Some(account) && c.actor == ActorRef(account.kind, account.uuid)
    && ModeFits(account.credential, c.mode)
    && account.uuid in c.creators && c.creators <= Creators(d, account)
  }

  /** The context in a drive, said without any history. */
  ghost predicate IsArrival(d: Directory, account: Account, drive: string, c: Context) {
    && IsAccountUuid(drive) && Carries(d, account, c) && c.creators == Creators(d, account)
    && c.drive == drive && c.owner.id == drive
    && (drive == account.uuid ==> c.access == Owner && c.owner.kind == account.kind)
    && (drive != account.uuid ==>
          && d.Custody(drive).Ok? && c.owner.kind == d.Custody(drive).value.kind
          && c.access == if LooksAfter(d, account, drive) then Custodian else Visitor)
  }

  lemma EnteredIsArrival(d: Directory, account: Account, c: Context, drive: string, sharedRead: bool)
    requires Carries(d, account, c) && EnterWithSharedRead(d, c, drive, sharedRead).Ok?
    ensures IsArrival(d, account, drive, EnterWithSharedRead(d, c, drive, sharedRead).value)
    ensures IsConfined(account) && drive != account.uuid ==> sharedRead
  {
  }

  /** One move forgets everything but the caller. */
  lemma MoveIsArrival(d: Directory, account: Account, c: Context, m: Move)
    requires Carries(d, account, c) && Apply(d, c, m).Ok?
    ensures IsArrival(d, account, Destination(d, account, m), Apply(d, c, m).value)
    ensures IsConfined(account) && Destination(d, account, m) != account.uuid ==> m.ToDelegatedRead?
  {
    hide EnterWithSharedRead, Carries, IsArrival;
    EnterNeedsAccount(d, account, c);
    match m
    case ToEntry(entry) =>
      EnteredIsArrival(d, account, c, Destination(d, account, m), false);
    case ToDelegatedRead(entry) =>
      if entry in d.entries {
        EnteredIsArrival(d, account, c, d.entries[entry], true);
      } else {
        EnteredIsArrival(d, account, c, account.uuid, false);
      }
    case ToNamed(selector) =>
      EnteredIsArrival(d, account, c, Destination(d, account, m), false);
    case ToOwn =>
      EnteredIsArrival(d, account, c, account.uuid, false);
    case ToDrive(drive) =>
      EnteredIsArrival(d, account, c, drive, false);
  }

  lemma EnterNeedsAccount(d: Directory, account: Account, c: Context)
    requires Carries(d, account, c)
    ensures c.account == Some(account)
  {
  }

  lemma ArrivalCarries(d: Directory, account: Account, drive: string, c: Context)
    requires IsArrival(d, account, drive, c)
    ensures Carries(d, account, c)
  {
  }

  // ---- which moves succeed -----------------------------------------------

  /** The move names a drive that the directory does not know by that name. */
  predicate NamesUnknown(d: Directory, m: Move) {
    m.ToNamed? && m.selector.Some? && Trim(m.selector.value) != "" && Trim(m.selector.value) !in d.names
  }

  /** The Silicons an unconfined Carbon looks after were asked for, and the answer failed. */
  predicate CreatorsUnknown(d: Directory, account: Account) {
    account.kind == Carbon && !IsConfined(account) && account.uuid in d.silicons && d.silicons[account.uuid].Err?
  }

  /** Why a move is refused, if it is: an unknown name, an answer that failed, a drive out of reach, or no drive. */
  function Refusal(d: Directory, account: Account, m: Move): Option<MoveError> {
    var drive := Destination(d, account, m);
    if NamesUnknown(d, m) then Some(UnknownSelector)
    else if CreatorsUnknown(d, account) then Some(d.silicons[account.uuid].error)
    else if drive == account.uuid then None
    else if IsConfined(account) && !m.ToDelegatedRead? then Some(NotFound)
    else if !IsAccountUuid(drive) || drive !in d.custody then Some(NotFound)
    else if d.custody[drive].Err? then Some(d.custody[drive].error)
    else None
  }

  /** A move succeeds exactly when nothing refuses it, whatever moves came before. */
  lemma MoveSucceedsIff(d: Directory, account: Account, c: Context, m: Move)
    requires Carries(d, account, c)
    ensures match Refusal(d, account, m)
            case Some(e) => Apply(d, c, m) == Err(e)
            case None => Apply(d, c, m).Ok?
  {
  }

  // ---- theorems ----------------------------------------------------------

  /** After any non-empty run of successful moves, only the caller and the last drive matter. */
  lemma {:induction false} RunIsArrival(d: Directory, account: Account, c: Context, moves: seq<Move>)
    requires moves != [] && Carries(d, account, c) && Run(d, c, moves).Ok?
    ensures IsArrival(d, account, Destination(d, account, moves[|moves| - 1]), Run(d, c, moves).value)
    decreases |moves|
  {
    hide Apply, IsArrival, Carries, Destination;
    var next := Apply(d, c, moves[0]).value;
    MoveIsArrival(d, account, c, moves[0]);
    if |moves| > 1 {
      ArrivalCarries(d, account, Destination(d, account, moves[0]), next);
      RunIsArrival(d, account, next, moves[1..]);
    }
  }

  lemma ArrivalIsUnique(d: Directory, account: Account, drive: string, a: Context, b: Context)
    requires IsArrival(d, account, drive, a) && IsArrival(d, account, drive, b)
    ensures a == b
  {
  }

  /** A verified account starts as the owner of its own drive. */
  lemma StartIsHome(d: Directory, account: Account)
    ensures var c := ForAccount(account);
            && c.drive == account.uuid && c.owner == c.actor == ActorRef(account.kind, account.uuid)
            && c.account == Some(account) && c.HasOwnerRights() && c.creators == {account.uuid}
            && ModeFits(account.credential, c.mode)
  {
  }

  lemma StartCarries(d: Directory, account: Account)
    ensures Carries(d, account, ForAccount(account))
  {
  }

  /** Two histories of one caller that end in the same drive end in the same context. */
  lemma HistoryIndependence(d: Directory, account: Account, left: seq<Move>, right: seq<Move>)
    requires left != [] && right != []
    requires Run(d, ForAccount(account), left).Ok? && Run(d, ForAccount(account), right).Ok?
    requires Destination(d, account, left[|left| - 1]) == Destination(d, account, right[|right| - 1])
    ensures Run(d, ForAccount(account), left) == Run(d, ForAccount(account), right)
  {
    hide Run, IsArrival, Carries, ForAccount, Destination;
    StartCarries(d, account);
    RunIsArrival(d, account, ForAccount(account), left);
    RunIsArrival(d, account, ForAccount(account), right);
    ArrivalIsUnique(d, account, Destination(d, account, left[|left| - 1]),
                    Run(d, ForAccount(account), left).value, Run(d, ForAccount(account), right).value);
  }

  /** Owner rights, after any run: the caller's own drive, or one of a Silicon it looks after. */
  lemma OwnerRightsIff(d: Directory, account: Account, moves: seq<Move>)
    requires moves != [] && Run(d, ForAccount(account), moves).Ok?
    ensures var c := Run(d, ForAccount(account), moves).value;
            c.HasOwnerRights() <==> c.drive == account.uuid || LooksAfter(d, account, c.drive)
  {
    hide Run, ForAccount, Destination;
    StartCarries(d, account);
    RunIsArrival(d, account, ForAccount(account), moves);
  }

  /** Creator rights, after any run: the caller's own, and those of the Silicons an unconfined Carbon looks after. */
  lemma CreatorRightsIff(d: Directory, account: Account, moves: seq<Move>, creator: ActorRef)
    requires moves != [] && Run(d, ForAccount(account), moves).Ok?
    ensures Run(d, ForAccount(account), moves).value.IsCreator(creator) <==>
            || creator.id == account.uuid
            || (account.kind == Carbon && !IsConfined(account) && account.uuid in d.silicons
                && d.silicons[account.uuid].Ok? && creator.id in d.silicons[account.uuid].value)
  {
    hide Run, ForAccount, Destination;
    StartCarries(d, account);
    RunIsArrival(d, account, ForAccount(account), moves);
  }

  /** A confined app leaves its own drive only to read, and never with owner or borrowed creator rights. */
  lemma {:induction false} ConfinedAppStaysHome(d: Directory, account: Account, moves: seq<Move>)
    requires IsConfined(account) && moves != [] && Run(d, ForAccount(account), moves).Ok?
    ensures var c, last := Run(d, ForAccount(account), moves).value, moves[|moves| - 1];
            && c.creators == {account.uuid}
            && (c.drive != account.uuid ==> last.ToDelegatedRead? && c.access == Visitor)
  {
    hide Run, ForAccount, Destination, Apply, EnterWithSharedRead;
    StartCarries(d, account);
    RunIsArrival(d, account, ForAccount(account), moves);
    LastMove(d, account, ForAccount(account), moves);
  }

  lemma {:induction false} LastMove(d: Directory, account: Account, c: Context, moves: seq<Move>)
    requires moves != [] && Carries(d, account, c) && Run(d, c, moves).Ok?
    ensures var last := moves[|moves| - 1];
            IsConfined(account) && Destination(d, account, last) != account.uuid ==> last.ToDelegatedRead?
    decreases |moves|
  {
    hide Apply, IsArrival, Carries, Destination;
    MoveIsArrival(d, account, c, moves[0]);
    if |moves| > 1 {
      ArrivalCarries(d, account, Destination(d, account, moves[0]), Apply(d, c, moves[0]).value);
      LastMove(d, account, Apply(d, c, moves[0]).value, moves[1..]);
    }
  }

  /**
   * A context without a verified account already names its drive, and keeps it: nothing but
   * an unknown name stops it.
   */
  lemma {:induction false} AnonymousContextsStay(d: Directory, c: Context, moves: seq<Move>)
    requires c.account.None?
    ensures Run(d, c, moves) ==
            if exists i :: 0 <= i < |moves| && NamesUnknown(d, moves[i]) then Err(UnknownSelector) else Ok(c)
  {
    if moves != [] {
      AnonymousContextsStay(d, c, moves[1..]);
      assert NamesUnknown(d, moves[0]) <==> Apply(d, c, moves[0]).Err?;
      assert forall i :: 0 <= i < |moves| - 1 ==> moves[1..][i] == moves[i + 1];
      if i :| 0 < i < |moves| && NamesUnknown(d, moves[i]) {
        assert NamesUnknown(d, moves[1..][i - 1]);
      }
    }
  }
}
