/** Evaluating a filter from database answers consumed by position. */
module FilterEval {
  import opened Wrappers
  import opened FilterValues
  import opened FilterParser
  import opened FilterStructure

  // ---- which leaves the database answers ---------------------------------

  /** The conditions persistence answers, in order: all but the permission ones. */
  function Asked(conditions: seq<Condition>): seq<Condition> {
    if conditions == [] then []
    else (if conditions[0].HasPermission? then [] else [conditions[0]]) + Asked(conditions[1..])
  }

  lemma {:induction false} AskedAppend(a: seq<Condition>, b: seq<Condition>)
    ensures Asked(a + b) == Asked(a) + Asked(b)
  {
    if a == [] {
      assert a + b == b;
    } else {
      assert (a + b)[1..] == a[1..] + b;
      AskedAppend(a[1..], b);
    }
  }

  function Count(e: Expression): nat {
    |Asked(Leaves(e))|
  }

  function CountOf(es: seq<Expression>): nat {
    |Asked(LeavesOf(es))|
  }

  lemma CountNext(es: seq<Expression>, i: nat)
    requires i < |es|
    ensures CountOf(es[..i + 1]) == CountOf(es[..i]) + Count(es[i])
    ensures CountOf(es[..i + 1]) <= CountOf(es)
  {
    assert es[..i + 1] == es[..i] + [es[i]];
    LeavesAppend(es[..i], [es[i]]);
    OneLeaf(es[i]);
    AskedAppend(LeavesOf(es[..i]), Leaves(es[i]));
    assert es == es[..i + 1] + es[i + 1..];
    LeavesAppend(es[..i + 1], es[i + 1..]);
    AskedAppend(LeavesOf(es[..i + 1]), LeavesOf(es[i + 1..]));
  }

  // ---- what a filter means -----------------------------------------------

  /** Where the answers of child `i` begin: after those of its elder siblings. */
  function StartOf(es: seq<Expression>, i: nat, start: nat): nat
    requires i < |es|
  {
    start + CountOf(es[..i])
  }

  /** The Boolean value of a filter whose k-th asked leaf has answer `start + k`. */
  predicate Denote(e: Expression, access: seq<Access>, answers: seq<bool>, start: nat)
    decreases e
  {
    match e
    case Leaf(c) => if c.HasPermission? then c.access in access else start < |answers| && answers[start]
    case Not(inner) => !Denote(inner, access, answers, start)
    case All(children) =>
      forall i :: 0 <= i < |children| ==> Denote(children[i], access, answers, StartOf(children, i, start))
    case Any(children) =>
      exists i :: 0 <= i < |children| && Denote(children[i], access, answers, StartOf(children, i, start))
  }

  predicate RequiresPolicyEvaluation(e: Expression) {
    match e
    case Leaf(c) => c.HasPermission?
    case Not(inner) => RequiresPolicyEvaluation(inner)
    case All(children) => exists i :: 0 <= i < |children| && RequiresPolicyEvaluation(children[i])
    case Any(children) => exists i :: 0 <= i < |children| && RequiresPolicyEvaluation(children[i])
  }

  // ---- the evaluator -----------------------------------------------------

  /** The database answers, handed out one at a time. */
  class Answers {
    const all: seq<bool>
    var taken: nat

    constructor (all: seq<bool>)
      ensures this.all == all && taken == 0
    {
      this.all := all;
      taken := 0;
    }

    predicate Valid()
      reads this
    {
      taken <= |all|
    }

    method Next() returns (answer: Option<bool>)
      requires Valid()
      modifies this
      ensures Valid()
      ensures answer == if old(taken) < |all| then Some(all[old(taken)]) else None
      ensures taken == if old(taken) < |all| then old(taken) + 1 else old(taken)
    {
      if taken == |all| {
        return None;
      }
      answer := Some(all[taken]);
      taken := taken + 1;
    }
  }

  /** What evaluating `e` from answer `start` on returns, and how many answers it uses up. */
  ghost predicate Evaluated(e: Expression, access: seq<Access>, all: seq<bool>, start: nat, r: Option<bool>, taken: nat)
  {
    if start + Count(e) <= |all| then taken == start + Count(e) && r == Some(Denote(e, access, all, start))
    else taken == |all| && r == None
  }

  lemma OneCount(e: Expression)
    requires e.Leaf?
    ensures Count(e) == if e.condition.HasPermission? then 0 else 1
  {
    assert Leaves(e) == [e.condition] && [e.condition][1..] == [];
    assert Asked([]) == [];
  }

  method MatchesInner(e: Expression, access: seq<Access>, answers: Answers) returns (r: Option<bool>)
    requires answers.Valid()
    modifies answers
    ensures answers.Valid()
    ensures Evaluated(e, access, answers.all, old(answers.taken), r, answers.taken)
    decreases e
  {
    hide Count, CountOf;
    ghost var start, given := answers.taken, answers.all;
    match e
    case Leaf(c) =>
      OneCount(e);
      if c.HasPermission? {
        return Some(c.access in access);
      }
      r := answers.Next();
    case Not(inner) =>
      assert Count(e) == Count(inner) by { NotCount(inner); }
      var value := MatchesInner(inner, access, answers);
      return if value.Some? then Some(!value.value) else None;
    case All(children) =>
      assert Count(e) == CountOf(children) by { ListCount(children); }
      var all := true;
      assert CountOf(children[..0]) == 0 by { NoCount(children); }
      for i := 0 to |children|
        invariant answers.Valid() && StartOfNext(children, i, start) == answers.taken
        invariant all <==> forall j :: 0 <= j < i ==> Denote(children[j], access, given, StartOf(children, j, start))
      {
        CountNext(children, i);
        var value := MatchesInner(children[i], access, answers);
        if value.None? {
          return None;
        }
        all := all && value.value;
      }
      assert children[..|children|] == children;
      return Some(all);
    case Any(children) =>
      assert Count(e) == CountOf(children) by { ListCount(children); }
      var any := false;
      assert CountOf(children[..0]) == 0 by { NoCount(children); }
      for i := 0 to |children|
        invariant answers.Valid() && StartOfNext(children, i, start) == answers.taken
        invariant any <==> exists j :: 0 <= j < i && Denote(children[j], access, given, StartOf(children, j, start))
      {
        CountNext(children, i);
        var value := MatchesInner(children[i], access, answers);
        if value.None? {
          return None;
        }
        any := any || value.value;
      }
      assert children[..|children|] == children;
      return Some(any);
  }

  function StartOfNext(es: seq<Expression>, i: nat, start: nat): nat
    requires i <= |es|
  {
    start + CountOf(es[..i])
  }

  lemma NotCount(inner: Expression)
    ensures Count(Not(inner)) == Count(inner)
  {
  }

  lemma ListCount(es: seq<Expression>)
    ensures Count(All(es)) == CountOf(es) && Count(Any(es)) == CountOf(es)
  {
  }

  lemma NoCount(es: seq<Expression>)
    ensures CountOf(es[..0]) == 0
  {
  }

  /** A value exactly when every asked leaf has one answer and no answer is left over; then the right one. */
  method Matches(e: Expression, access: seq<Access>, database: seq<bool>) returns (r: Option<bool>)
    ensures r == if |database| == Count(e) then Some(Denote(e, access, database, 0)) else None
  {
    hide Denote, Count;
    var answers := new Answers(database);
    r := MatchesInner(e, access, answers);
    if r.Some? {
      var extra := answers.Next();
      if extra.Some? {
        r := None;
      }
    }
  }

  // ---- theorems ----------------------------------------------------------

  /** Policy evaluation is required exactly when some leaf is not asked of the database. */
  lemma {:induction false} PolicyLeaves(e: Expression)
    ensures RequiresPolicyEvaluation(e) <==> exists c :: c in Leaves(e) && c.HasPermission?
    decreases e, 0
  {
    match e
    case Leaf(c) => assert c in Leaves(e);
    case Not(inner) => PolicyLeaves(inner);
    case All(children) => PolicyLeavesOf(children);
    case Any(children) => PolicyLeavesOf(children);
  }

  lemma {:induction false} PolicyLeavesOf(es: seq<Expression>)
    ensures (exists i :: 0 <= i < |es| && RequiresPolicyEvaluation(es[i])) <==>
            exists c :: c in LeavesOf(es) && c.HasPermission?
    decreases es, 1
  {
    if es != [] {
      var first, rest := es[0], es[1..];
      PolicyLeaves(first);
      PolicyLeavesOf(rest);
      assert forall i :: 0 <= i < |rest| ==> rest[i] == es[i + 1];
      assert forall c :: c in LeavesOf(es) <==> c in Leaves(first) || c in LeavesOf(rest);
    }
  }

  /** Without a permission leaf, the caller's access does not matter. */
  lemma {:induction false} AccessIsIrrelevant(
    e: Expression, one: seq<Access>, other: seq<Access>, answers: seq<bool>, start: nat)
    requires !RequiresPolicyEvaluation(e)
    ensures Denote(e, one, answers, start) == Denote(e, other, answers, start)
    decreases e
  {
    match e
    case Leaf(_) =>
    case Not(inner) => AccessIsIrrelevant(inner, one, other, answers, start);
    case _ =>
      var children := e.children;
      forall i | 0 <= i < |children|
        ensures Denote(children[i], one, answers, StartOf(children, i, start)) ==
                Denote(children[i], other, answers, StartOf(children, i, start))
      {
        AccessIsIrrelevant(children[i], one, other, answers, StartOf(children, i, start));
      }
  }

  /** The truth of a filter when `holds` says which conditions hold. */
  predicate Truth(e: Expression, holds: Condition -> bool)
    decreases e
  {
    match e
    case Leaf(c) => holds(c)
    case Not(inner) => !Truth(inner, holds)
    case All(children) => forall i :: 0 <= i < |children| ==> Truth(children[i], holds)
    case Any(children) => exists i :: 0 <= i < |children| && Truth(children[i], holds)
  }

  function Answered(conditions: seq<Condition>, holds: Condition -> bool): seq<bool> {
    seq(|conditions|, i requires 0 <= i < |conditions| => holds(conditions[i]))
  }

  /**
   * Handing answers out by position keeps the meaning: when the database answers the
   * asked leaves in source order, the evaluator's value is the filter's truth.
   */
  lemma {:induction false} PositionsKeepMeaning(
    e: Expression, holds: Condition -> bool, access: seq<Access>, answers: seq<bool>, start: nat)
    requires forall a :: holds(HasPermission(a)) == (a in access)
    requires start + Count(e) <= |answers|
    requires answers[start..start + Count(e)] == Answered(Asked(Leaves(e)), holds)
    ensures Denote(e, access, answers, start) == Truth(e, holds)
    decreases e
  {
    match e
    case Leaf(c) =>
      OneCount(e);
      if !c.HasPermission? {
        assert Asked(Leaves(e))[0] == c;
        assert answers[start] == answers[start..start + Count(e)][0];
      }
    case Not(inner) => PositionsKeepMeaning(inner, holds, access, answers, start);
    case _ =>
      var children := e.children;
      forall i | 0 <= i < |children|
        ensures Denote(children[i], access, answers, StartOf(children, i, start)) == Truth(children[i], holds)
      {
        ChildAnswers(children, i, holds, answers, start);
        PositionsKeepMeaning(children[i], holds, access, answers, StartOf(children, i, start));
      }
  }

  /** The stretch of answers given to child `i` answers exactly its asked leaves. */
  lemma ChildAnswers(es: seq<Expression>, i: nat, holds: Condition -> bool, answers: seq<bool>, start: nat)
    requires i < |es| && start + CountOf(es) <= |answers|
    requires answers[start..start + CountOf(es)] == Answered(Asked(LeavesOf(es)), holds)
    ensures var s := StartOf(es, i, start);
            s + Count(es[i]) <= |answers| && answers[s..s + Count(es[i])] == Answered(Asked(Leaves(es[i])), holds)
  {
    hide *;
    AskedAround(es, i);
    var a, b, c := Asked(LeavesOf(es[..i])), Asked(Leaves(es[i])), Asked(LeavesOf(es[i + 1..]));
    CountsAreLengths(es, i, start);
    AnsweredMiddle(a, b, c, holds, answers, start);
  }

  lemma CountsAreLengths(es: seq<Expression>, i: nat, start: nat)
    requires i < |es|
    ensures Count(es[i]) == |Asked(Leaves(es[i]))| && CountOf(es) == |Asked(LeavesOf(es))|
    ensures StartOf(es, i, start) == start + |Asked(LeavesOf(es[..i]))|
  {
  }

  lemma LeavesAround(es: seq<Expression>, i: nat)
    requires i < |es|
    ensures LeavesOf(es) == LeavesOf(es[..i]) + (Leaves(es[i]) + LeavesOf(es[i + 1..]))
  {
    hide *;
    LeavesAppend(es[..i], [es[i]] + es[i + 1..]);
    LeavesAppend([es[i]], es[i + 1..]);
    OneLeaf(es[i]);
    assert es[..i] + ([es[i]] + es[i + 1..]) == es;
  }

  lemma AskedAround(es: seq<Expression>, i: nat)
    requires i < |es|
    ensures Asked(LeavesOf(es)) == Asked(LeavesOf(es[..i])) + (Asked(Leaves(es[i])) + Asked(LeavesOf(es[i + 1..])))
  {
    hide *;
    LeavesAround(es, i);
    var mine, after := Leaves(es[i]), LeavesOf(es[i + 1..]);
    AskedAppend(LeavesOf(es[..i]), mine + after);
    AskedAppend(mine, after);
  }

  lemma AnsweredMiddle(
    a: seq<Condition>, b: seq<Condition>, c: seq<Condition>, holds: Condition -> bool, answers: seq<bool>, start: nat)
    requires start + |a + (b + c)| <= |answers|
    requires answers[start..start + |a + (b + c)|] == Answered(a + (b + c), holds)
    ensures answers[start + |a|..start + |a| + |b|] == Answered(b, holds)
  {
    var all := a + (b + c);
    forall k | 0 <= k < |b|
      ensures answers[start + |a| + k] == holds(b[k])
    {
      assert all[|a| + k] == b[k];
      assert answers[start..start + |all|][|a| + k] == holds(all[|a| + k]);
    }
  }
}
