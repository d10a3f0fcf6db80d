/** Effective rights are a meet: they do not depend on the order of the operands, they are exactly the
    strictest ceiling over the common scope, and narrowing an operand never widens them. */
module EffectiveRightsProofs {
  import opened Options
  import opened Sequences
  import Sorting
  import opened Sums
  import opened EffectiveRights

  // ---------------------------------------------------------------- counting

  lemma {:induction false} CountIsNat(kind: Kind, operands: seq<Operand>)
    ensures OfKind(kind, operands) >= 0
    ensures OfKind(kind, operands) > 0 <==> exists o :: o in operands && o.kind == kind
  {
    if operands != [] {
      var front, last := operands[..|operands| - 1], operands[|operands| - 1];
      CountIsNat(kind, front);
      SplitLast(operands);
    }
  }

  function ParsesTo(env: Env, o: Operand): RawOperand -> int {
    (r: RawOperand) => if Parsed(env, r).0 == Some(o) then 1 else 0
  }

  lemma {:induction false} OperandsCount(env: Env, raws: seq<RawOperand>, o: Operand)
    ensures multiset(Operands(env, raws))[o] == Sum(ParsesTo(env, o), raws)
  {
    if raws != [] {
      OperandsCount(env, raws[..|raws| - 1], o);
    }
  }

  lemma OperandsPermuted(env: Env, a: seq<RawOperand>, b: seq<RawOperand>)
    requires multiset(a) == multiset(b)
    ensures multiset(Operands(env, a)) == multiset(Operands(env, b))
  {
    forall o ensures multiset(Operands(env, a))[o] == multiset(Operands(env, b))[o] {
      OperandsCount(env, a, o);
      OperandsCount(env, b, o);
      SumPermuted(ParsesTo(env, o), a, b);
    }
  }

  lemma SameMembers<T>(a: seq<T>, b: seq<T>)
    requires multiset(a) == multiset(b)
    ensures |a| == |b|
    ensures forall x :: x in a <==> x in b
  {
    assert |multiset(a)| == |a| && |multiset(b)| == |b|;
    forall x ensures x in a <==> x in b {
      Sorting.InMultiset(a, x);
      Sorting.InMultiset(b, x);
    }
  }

  /** No kind occurs twice. */
  ghost predicate KindsOnce(operands: seq<Operand>) {
    forall k: Kind :: OfKind(k, operands) <= 1
  }

  lemma {:induction false} OnceMeansOne(operands: seq<Operand>, x: Operand, y: Operand)
    requires OfKind(x.kind, operands) <= 1 && x in operands && y in operands && x.kind == y.kind
    ensures x == y
  {
    var front, last := operands[..|operands| - 1], operands[|operands| - 1];
    SplitLast(operands);
    CountIsNat(x.kind, front);
    if last.kind != x.kind {
      OnceMeansOne(front, x, y);
    }
  }

  // ---------------------------------------------------------------- order of the operands

  lemma NoTiesByKind(operands: seq<Operand>)
    requires KindsOnce(operands)
    ensures Sorting.TotalPreorder(Sorting.ByKey(AtMost, KindRank))
    ensures Sorting.NoTies(Sorting.ByKey(AtMost, KindRank), operands)
  {
    var leq := Sorting.ByKey(AtMost, KindRank);
    forall x, y ensures leq(x, y) == (KindRank(x) <= KindRank(y)) {
      ByRank(x, y);
    }
    forall x, y | x in operands && y in operands && leq(x, y) && leq(y, x) ensures x == y {
      OnceMeansOne(operands, x, y);
    }
  }

  lemma ByRank(x: Operand, y: Operand)
    ensures Sorting.ByKey(AtMost, KindRank)(x, y) == (KindRank(x) <= KindRank(y))
  {
    var leq := Sorting.ByKey(AtMost, KindRank);
    assert leq(x, y) == AtMost(KindRank(x), KindRank(y));
  }

  lemma SameFirstProfile(a: seq<Operand>, b: seq<Operand>)
    requires multiset(a) == multiset(b) && KindsOnce(a)
    ensures FirstProfile(a) == FirstProfile(b)
  {
    SameMembers(a, b);
    if FirstProfile(a).Some? && FirstProfile(b).Some? {
      OnceMeansOne(a, FirstProfile(a).value, FirstProfile(b).value);
    }
  }

  lemma IntersectionIsCommon(operands: seq<Operand>, d: Domain, x: string)
    ensures x in Intersection(operands, d) <==> operands != [] && forall o | o in operands :: x in o.scope.Get(d)
  {
    if operands != [] {
      assert operands == [operands[0]] + operands[1..];
    }
  }

  lemma SameIntersection(a: seq<Operand>, b: seq<Operand>, d: Domain)
    requires multiset(a) == multiset(b)
    ensures Intersection(a, d) == Intersection(b, d)
  {
    SameMembers(a, b);
    forall x ensures x in Intersection(a, d) <==> x in Intersection(b, d) {
      IntersectionIsCommon(a, d, x);
      IntersectionIsCommon(b, d, x);
    }
  }

  lemma SameEffectiveScope(a: seq<Operand>, b: seq<Operand>)
    requires multiset(a) == multiset(b)
    ensures EffectiveScope(a) == EffectiveScope(b)
  {
    SameMembers(a, b);
    SameIntersection(a, b, ACTIONS);
    SameIntersection(a, b, RESOURCES);
    SameIntersection(a, b, FIELDS);
    SameIntersection(a, b, PURPOSES);
    SameIntersection(a, b, EFFECTS);
  }

  lemma SameKindIssues(a: seq<Operand>, b: seq<Operand>)
    requires multiset(a) == multiset(b)
    ensures KindIssues(a) == KindIssues(b)
    ensures KindsOnce(a) == KindsOnce(b)
  {
    forall k: Kind ensures OfKind(k, a) == OfKind(k, b) {
      SumPermuted(IsKind(k), a, b);
    }
  }

  lemma SameIssues(env: Env, a: RawInput, b: RawInput)
    requires a.(operands := None) == b.(operands := None) && a.operands.Some? && b.operands.Some?
    requires multiset(a.operands.value) == multiset(b.operands.value) && KindsOnce(Operands(env, a.operands.value))
    ensures Issues(env, a) == Issues(env, b)
  {
    var p, q := Operands(env, a.operands.value), Operands(env, b.operands.value);
    OperandsPermuted(env, a.operands.value, b.operands.value);
    SameMembers(a.operands.value, b.operands.value);
    assert ParseIssues(env, a.operands.value) == ParseIssues(env, b.operands.value);
    SameKindIssues(p, q);
    SameFirstProfile(p, q);
    SameMembers(p, q);
    SameIssuesAgainst(Bound(env, a.actor), Bound(env, a.tenant), p, q);
  }

  lemma SameIssuesAgainst(actor: Option<string>, tenant: Option<string>, p: seq<Operand>, q: seq<Operand>)
    requires FirstProfile(p) == FirstProfile(q) && forall o :: o in p <==> o in q
    ensures BindingIssues(actor, tenant, p) == BindingIssues(actor, tenant, q)
  {
    match FirstProfile(p)
    case None =>
    case Some(profile) => assert IssuesAgainst(actor, tenant, profile, p) == IssuesAgainst(actor, tenant, profile, q);
  }

  lemma SameBuild(env: Env, digest: string, actor: Option<string>, tenant: Option<string>, p: seq<Operand>,
                  q: seq<Operand>, issues: set<Issue>)
    requires multiset(p) == multiset(q) && KindsOnce(p)
    ensures ByKind(p) == ByKind(q)
    ensures BuildResult(env, digest, actor, tenant, p, issues) == BuildResult(env, digest, actor, tenant, q, issues)
  {
    NoTiesByKind(p);
    Sorting.SortForgetsOrder(Sorting.ByKey(AtMost, KindRank), p, q);
    SameFirstProfile(p, q);
    SameEffectiveScope(p, q);
    SameMembers(p, q);
    assert FinalIssues(p, issues) == FinalIssues(q, issues);
  }

  /** With at most one readable operand of each kind, the whole result, its digest included, does not
      depend on the order of the operands. */
  lemma OrderDoesNotMatter(env: Env, a: RawInput, b: RawInput)
    requires a.(operands := None) == b.(operands := None) && a.operands.Some? && b.operands.Some?
    requires multiset(a.operands.value) == multiset(b.operands.value) && KindsOnce(Operands(env, a.operands.value))
    ensures Compiled(env, a) == Compiled(env, b)
  {
    var p, q := Operands(env, a.operands.value), Operands(env, b.operands.value);
    OperandsPermuted(env, a.operands.value, b.operands.value);
    SameIssues(env, a, b);
    SameBuild(env, InputDigest(env, a), Bound(env, a.actor), Bound(env, a.tenant), p, q, Issues(env, a));
    assert InputDigest(env, a) == InputDigest(env, b);
  }

  // ---------------------------------------------------------------- the meet

  function Strictness(c: Outcome): nat {
    match c
    case ALLOW => 0
    case ESCALATE => 1
    case DENY => 2
  }

  function Stricter(a: Outcome, b: Outcome): Outcome {
    if Strictness(a) < Strictness(b) then b else a
  }

  /** The most restrictive ceiling of all operands. */
  function Strictest(operands: seq<Operand>): Outcome {
    if operands == [] then ALLOW
    else Stricter(operands[0].ceiling, Strictest(operands[1..]))
  }

  lemma {:induction false} StrictestByCeilings(operands: seq<Operand>)
    ensures Strictest(operands)
      == if SomeCeiling(operands, DENY) then DENY else if SomeCeiling(operands, ESCALATE) then ESCALATE else ALLOW
  {
    if operands != [] {
      StrictestByCeilings(operands[1..]);
      assert operands == [operands[0]] + operands[1..];
    }
  }

  /** Nothing is wrong with the input or any operand, each kind is there once, and all are bound to the
      actor, the tenant and the profile. */
  ghost predicate Coherent(env: Env, input: RawInput) {
    var operands := Operands(env, RawOperands(input));
    && InputIssues(env, input) == {}
    && (forall r | r in RawOperands(input) :: Parsed(env, r).1 == {})
    && (forall k: Kind :: OfKind(k, operands) == 1)
    && BindingsHold(Some(input.actor), Some(input.tenant), operands)
  }

  ghost predicate BindingsHold(actor: Option<string>, tenant: Option<string>, operands: seq<Operand>) {
    forall o, p | o in operands && p in operands && p.kind == PROFILE ::
      && actor == Some(o.actor) && tenant == Some(o.tenant)
      && o.profileId == p.profileId && o.profileGeneration == p.profileGeneration
  }

  lemma NoBindingIssues(actor: Option<string>, tenant: Option<string>, operands: seq<Operand>)
    requires OfKind(PROFILE, operands) == 1
    ensures BindingIssues(actor, tenant, operands) == {} <==> BindingsHold(actor, tenant, operands)
  {
    CountIsNat(PROFILE, operands);
    var profile := FirstProfile(operands).value;
    if BindingIssues(actor, tenant, operands) == {} {
      forall o, p | o in operands && p in operands && p.kind == PROFILE
        ensures actor == Some(o.actor) && tenant == Some(o.tenant)
             && o.profileId == p.profileId && o.profileGeneration == p.profileGeneration
      {
        OnceMeansOne(operands, p, profile);
        forall i ensures i !in BindingIssuesOf(actor, tenant, profile, o) {
          assert i in BindingIssuesOf(actor, tenant, profile, o) ==> i in IssuesAgainst(actor, tenant, profile, operands);
        }
        assert BINDING_MISMATCH !in BindingIssuesOf(actor, tenant, profile, o);
        assert OPERAND_GENERATION_STALE !in BindingIssuesOf(actor, tenant, profile, o);
      }
    }
  }

  lemma NoKindIssues(operands: seq<Operand>)
    ensures KindIssues(operands) == {} <==> forall k: Kind :: OfKind(k, operands) == 1
  {
    forall k: Kind ensures OfKind(k, operands) >= 0 {
      CountIsNat(k, operands);
    }
    assert OPERAND_MISSING in KindIssues(operands) <==> exists k: Kind :: OfKind(k, operands) == 0;
    assert OPERAND_DUPLICATE in KindIssues(operands) <==> exists k: Kind :: OfKind(k, operands) > 1;
  }

  lemma NoParseIssues(env: Env, raws: seq<RawOperand>)
    ensures ParseIssues(env, raws) == {} <==> forall r | r in raws :: Parsed(env, r).1 == {}
  {
    if ParseIssues(env, raws) == {} {
      forall r | r in raws ensures Parsed(env, r).1 == {} {
        forall i ensures i !in Parsed(env, r).1 {
          assert i in Parsed(env, r).1 ==> i in ParseIssues(env, raws);
        }
      }
    }
  }

  /** The compiler finds no issue exactly in coherent inputs. */
  lemma NoIssuesExactly(env: Env, input: RawInput)
    ensures Issues(env, input) == {} <==> Coherent(env, input)
  {
    var operands := Operands(env, RawOperands(input));
    NoParseIssues(env, RawOperands(input));
    NoKindIssues(operands);
    if InputIssues(env, input) == {} && OfKind(PROFILE, operands) == 1 {
      NoBindingIssues(Some(input.actor), Some(input.tenant), operands);
    }
  }

  lemma {:induction false} EveryKindCounts(operands: seq<Operand>)
    ensures |operands| == OfKind(PROFILE, operands) + OfKind(ASSIGNMENT, operands) + OfKind(CAPABILITY, operands)
                          + OfKind(CONSTRAINT, operands)
  {
    if operands != [] {
      EveryKindCounts(operands[..|operands| - 1]);
    }
  }

  /** The outcome, for every input whatsoever: the most restrictive ceiling where the input is coherent
      and something is common to all four scopes in every domain, and otherwise a denial. */
  lemma OutcomeIsMeet(env: Env, input: RawInput)
    ensures var operands := Operands(env, RawOperands(input));
      Compiled(env, input).core.outcome
        == if Coherent(env, input) && !SomeEmpty(EffectiveScope(operands)) then Strictest(operands) else DENY
  {
    var operands := Operands(env, RawOperands(input));
    NoIssuesExactly(env, input);
    StrictestByCeilings(operands);
    if Coherent(env, input) {
      EveryKindCounts(operands);
    }
    OutcomeFrom(operands, Issues(env, input));
  }

  lemma OutcomeFrom(operands: seq<Operand>, issues: set<Issue>)
    ensures issues != {} ==> OutcomeOf(operands, issues) == DENY
    ensures issues == {} && |operands| == 4 && SomeEmpty(EffectiveScope(operands)) ==> OutcomeOf(operands, issues) == DENY
    ensures SomeCeiling(operands, DENY) ==> OutcomeOf(operands, issues) == DENY
    ensures issues == {} && !SomeCeiling(operands, DENY) && !(|operands| == 4 && SomeEmpty(EffectiveScope(operands)))
      ==> OutcomeOf(operands, issues) == if SomeCeiling(operands, ESCALATE) then ESCALATE else ALLOW
  {
    var all := FinalIssues(operands, issues);
    assert SomeCeiling(operands, DENY) ==> EXPLICIT_DENY in all;
    assert |operands| == 4 && SomeEmpty(EffectiveScope(operands)) ==> EMPTY_INTERSECTION in all;
    assert issues <= all;
  }

  // ---------------------------------------------------------------- narrowing

  /** small is big with a smaller scope and a ceiling at least as strict. */
  ghost predicate Narrower(small: Operand, big: Operand) {
    && small == big.(scope := small.scope, ceiling := small.ceiling)
    && small.scope.Within(big.scope)
    && Strictness(big.ceiling) <= Strictness(small.ceiling)
  }

  /** Every operand is as it was, or reads without an issue before and after and is narrower. */
  ghost predicate NarrowerRaw(env: Env, small: RawOperand, big: RawOperand) {
    || small == big
    || (&& Parsed(env, small).1 == {} && Parsed(env, big).1 == {}
        && Parsed(env, small).0.Some? && Parsed(env, big).0.Some?
        && Narrower(Parsed(env, small).0.value, Parsed(env, big).0.value))
  }

  ghost predicate AllNarrower(small: seq<Operand>, big: seq<Operand>) {
    |small| == |big| && forall i | 0 <= i < |big| :: Narrower(small[i], big[i])
  }

  lemma {:induction false} OperandsNarrower(env: Env, small: seq<RawOperand>, big: seq<RawOperand>)
    requires |small| == |big| && forall i | 0 <= i < |big| :: NarrowerRaw(env, small[i], big[i])
    ensures AllNarrower(Operands(env, small), Operands(env, big))
    ensures ParseIssues(env, small) == ParseIssues(env, big)
  {
    if big != [] {
      var n := |big| - 1;
      OperandsNarrower(env, small[..n], big[..n]);
      assert NarrowerRaw(env, small[n], big[n]);
      SplitLast(small);
      SplitLast(big);
      ParseIssuesPush(env, small[..n], small[n]);
      ParseIssuesPush(env, big[..n], big[n]);
    }
  }

  lemma {:induction false} SameKindCounts(small: seq<Operand>, big: seq<Operand>, k: Kind)
    requires AllNarrower(small, big)
    ensures OfKind(k, small) == OfKind(k, big)
  {
    if big != [] {
      var n := |big| - 1;
      assert Narrower(small[n], big[n]);
      SameKindCounts(small[..n], big[..n], k);
    }
  }

  lemma {:induction false} ProfileNarrower(small: seq<Operand>, big: seq<Operand>)
    requires AllNarrower(small, big)
    ensures FirstProfile(small).Some? <==> FirstProfile(big).Some?
    ensures FirstProfile(small).Some? ==> Narrower(FirstProfile(small).value, FirstProfile(big).value)
  {
    if big != [] {
      assert Narrower(small[0], big[0]);
      ProfileNarrower(small[1..], big[1..]);
    }
  }

  lemma {:induction false} SameIssuesNarrower(actor: Option<string>, tenant: Option<string>, p: Operand, q: Operand,
                                              small: seq<Operand>, big: seq<Operand>)
    requires AllNarrower(small, big) && Narrower(p, q)
    ensures IssuesAgainst(actor, tenant, p, small) == IssuesAgainst(actor, tenant, q, big)
  {
    if big != [] {
      var n := |big| - 1;
      assert Narrower(small[n], big[n]);
      SameIssuesNarrower(actor, tenant, p, q, small[..n], big[..n]);
      SplitLast(small);
      SplitLast(big);
      IssuesAgainstPush(actor, tenant, p, small[..n], small[n]);
      IssuesAgainstPush(actor, tenant, q, big[..n], big[n]);
    }
  }

  lemma IntersectionShrinks(small: seq<Operand>, big: seq<Operand>, d: Domain)
    requires AllNarrower(small, big)
    ensures Intersection(small, d) <= Intersection(big, d)
  {
    forall x | x in Intersection(small, d) ensures x in Intersection(big, d) {
      IntersectionIsCommon(small, d, x);
      IntersectionIsCommon(big, d, x);
      forall o | o in big ensures x in o.scope.Get(d) {
        var i :| 0 <= i < |big| && big[i] == o;
        assert Narrower(small[i], big[i]) && small[i] in small;
      }
    }
  }

  lemma ScopeShrinks(small: seq<Operand>, big: seq<Operand>)
    requires AllNarrower(small, big)
    ensures EffectiveScope(small).Within(EffectiveScope(big))
  {
    forall d: Domain ensures EffectiveScope(small).Get(d) <= EffectiveScope(big).Get(d) {
      IntersectionShrinks(small, big, d);
    }
  }

  lemma {:induction false} StrictestRises(small: seq<Operand>, big: seq<Operand>)
    requires AllNarrower(small, big)
    ensures Strictness(Strictest(big)) <= Strictness(Strictest(small))
  {
    if big != [] {
      assert Narrower(small[0], big[0]);
      StrictestRises(small[1..], big[1..]);
    }
  }

  lemma SameIssuesWhenNarrower(env: Env, small: RawInput, big: RawInput)
    requires small.(operands := None) == big.(operands := None) && small.operands.Some? && big.operands.Some?
    requires |small.operands.value| == |big.operands.value|
    requires forall i | 0 <= i < |big.operands.value| ::
      NarrowerRaw(env, small.operands.value[i], big.operands.value[i])
    ensures Issues(env, small) == Issues(env, big)
  {
    var p, q := Operands(env, small.operands.value), Operands(env, big.operands.value);
    OperandsNarrower(env, small.operands.value, big.operands.value);
    forall k: Kind ensures OfKind(k, p) == OfKind(k, q) {
      SameKindCounts(p, q, k);
    }
    ProfileNarrower(p, q);
    if FirstProfile(p).Some? {
      SameIssuesNarrower(Bound(env, small.actor), Bound(env, small.tenant), FirstProfile(p).value,
                         FirstProfile(q).value, p, q);
    }
  }

  /** Shrinking scopes and lowering ceilings never enlarges the effective scope or raises the outcome. */
  lemma NarrowingIsMonotone(env: Env, small: RawInput, big: RawInput)
    requires small.(operands := None) == big.(operands := None) && small.operands.Some? && big.operands.Some?
    requires |small.operands.value| == |big.operands.value|
    requires forall i | 0 <= i < |big.operands.value| ::
      NarrowerRaw(env, small.operands.value[i], big.operands.value[i])
    ensures var r, s := Compiled(env, small).core, Compiled(env, big).core;
      r.effectiveScope.Within(s.effectiveScope) && Strictness(s.outcome) <= Strictness(r.outcome)
  {
    var p, q := Operands(env, small.operands.value), Operands(env, big.operands.value);
    OperandsNarrower(env, small.operands.value, big.operands.value);
    SameIssuesWhenNarrower(env, small, big);
    NoIssuesExactly(env, small);
    NoIssuesExactly(env, big);
    ScopeShrinks(p, q);
    StrictestRises(p, q);
    OutcomeIsMeet(env, small);
    OutcomeIsMeet(env, big);
    if SomeEmpty(EffectiveScope(q)) {
      var d: Domain :| EffectiveScope(q).Get(d) == {};
      assert EffectiveScope(p).Get(d) <= EffectiveScope(q).Get(d);
    }
  }

  // ---------------------------------------------------------------- the result verifier

  /** What the result verifier checks of a compiled result beyond the shapes of its members. */
  predicate Verified(env: Env, r: Rights) {
    && env.digestResult(r.core) == r.resultDigest
    && Sorting.Distinct(Map(KindOf, r.core.ceilings))
    && forall i | 0 <= i < |r.core.ceilings| ::
         env.isBound(r.core.ceilings[i].operandId) && IsPositiveGeneration(r.core.ceilings[i].generation)
  }

  function KindOf(c: Ceiling): Kind { c.kind }

  lemma {:induction false} OnceExactly(operands: seq<Operand>)
    ensures KindsOnce(operands) <==> Sorting.Distinct(Map(KindRank, operands))
  {
    if operands != [] {
      var front, last := operands[..|operands| - 1], operands[|operands| - 1];
      OnceExactly(front);
      SplitLast(operands);
      assert Map(KindRank, operands) == Map(KindRank, front) + [KindRank(last)];
      Sorting.DistinctPush(Map(KindRank, front), KindRank(last));
      CountIsNat(last.kind, front);
      OncePush(front, last);
      RankAmong(front, last);
    }
  }

  lemma OncePush(front: seq<Operand>, last: Operand)
    ensures KindsOnce(front + [last]) <==> KindsOnce(front) && OfKind(last.kind, front) <= 0
  {
    forall k: Kind ensures OfKind(k, front + [last]) == OfKind(k, front) + if k == last.kind then 1 else 0 {
      SumPush(IsKind(k), front, last);
    }
  }

  lemma RankAmong(front: seq<Operand>, last: Operand)
    ensures KindRank(last) in Map(KindRank, front) <==> exists o :: o in front && o.kind == last.kind
  {
    var ranks := Map(KindRank, front);
    if o :| o in front && o.kind == last.kind {
      var i :| 0 <= i < |front| && front[i] == o;
      assert ranks[i] == KindRank(last);
    }
    if KindRank(last) in ranks {
      var i :| 0 <= i < |ranks| && ranks[i] == KindRank(last);
      assert front[i] in front && front[i].kind == last.kind;
    }
  }

  lemma SortedOnce(operands: seq<Operand>)
    ensures Sorting.Distinct(Map(KindRank, ByKind(operands))) <==> Sorting.Distinct(Map(KindRank, operands))
  {
    var ranks := Map(KindRank, operands);
    Sorting.SortCommutesWithKey(AtMost, KindRank, operands);
    if Sorting.Distinct(ranks) {
      Sorting.DistinctSurvivesPermutation(ranks, Sorting.Sort(AtMost, ranks));
    }
    if Sorting.Distinct(Sorting.Sort(AtMost, ranks)) {
      Sorting.DistinctSurvivesPermutation(Sorting.Sort(AtMost, ranks), ranks);
    }
  }

  lemma {:induction false} OperandsAreValid(env: Env, raws: seq<RawOperand>, o: Operand)
    requires o in Operands(env, raws)
    ensures env.isBound(o.operandId) && IsPositiveGeneration(o.generation)
  {
    var front := raws[..|raws| - 1];
    if o in Operands(env, front) {
      OperandsAreValid(env, front, o);
    }
  }

  lemma CeilingKinds(env: Env, sorted: seq<Operand>)
    ensures var ceilings := Map((o: Operand) => CeilingOf(env, o), sorted);
      Sorting.Distinct(Map(KindOf, ceilings)) <==> Sorting.Distinct(Map(KindRank, sorted))
  {
    var kinds := Map(KindOf, Map((o: Operand) => CeilingOf(env, o), sorted));
    var ranks := Map(KindRank, sorted);
    forall i, j | 0 <= i < j < |sorted| ensures kinds[i] != kinds[j] <==> ranks[i] != ranks[j] {
    }
  }

  ghost predicate AllValid(env: Env, operands: seq<Operand>) {
    forall i | 0 <= i < |operands| :: env.isBound(operands[i].operandId) && IsPositiveGeneration(operands[i].generation)
  }

  lemma AssembledVerifies(env: Env, inputDigest: string, actor: Option<string>, tenant: Option<string>,
                          profile: Option<Operand>, scope: Scope, sorted: seq<Operand>, issues: set<Issue>,
                          outcome: Outcome)
    requires AllValid(env, sorted)
    ensures Verified(env, Assemble(env, inputDigest, actor, tenant, profile, scope, sorted, issues, outcome))
      <==> Sorting.Distinct(Map(KindRank, sorted))
  {
    CeilingKinds(env, sorted);
    var r := Assemble(env, inputDigest, actor, tenant, profile, scope, sorted, issues, outcome);
    assert r.core.ceilings == Map((o: Operand) => CeilingOf(env, o), sorted);
  }

  lemma SortedAreValid(env: Env, raws: seq<RawOperand>)
    ensures AllValid(env, ByKind(Operands(env, raws)))
  {
    var operands := Operands(env, raws);
    var sorted := ByKind(operands);
    SameMembers(operands, sorted);
    forall i | 0 <= i < |sorted| ensures env.isBound(sorted[i].operandId) && IsPositiveGeneration(sorted[i].generation) {
      assert sorted[i] in operands;
      OperandsAreValid(env, raws, sorted[i]);
    }
  }

  lemma BuiltVerifies(env: Env, inputDigest: string, actor: Option<string>, tenant: Option<string>,
                      raws: seq<RawOperand>, issues: set<Issue>)
    ensures var operands := Operands(env, raws);
      Verified(env, BuildResult(env, inputDigest, actor, tenant, operands, issues)) <==> KindsOnce(operands)
  {
    var operands := Operands(env, raws);
    SortedAreValid(env, raws);
    SortedOnce(operands);
    OnceExactly(operands);
    AssembledVerifies(env, inputDigest, actor, tenant, FirstProfile(operands), EffectiveScope(operands),
                      ByKind(operands), FinalIssues(operands, issues), OutcomeOf(operands, issues));
  }

  /** The result verifier refuses a result of the compiler exactly when two readable operands were of one
      kind; such a denial cannot be rendered. */
  lemma CompiledVerifiesExactly(env: Env, input: RawInput)
    ensures Verified(env, Compiled(env, input)) <==> KindsOnce(Operands(env, RawOperands(input)))
  {
    BuiltVerifies(env, InputDigest(env, input), Bound(env, input.actor), Bound(env, input.tenant), RawOperands(input),
                  Issues(env, input));
  }

  lemma OperandsPush(env: Env, front: seq<RawOperand>, last: RawOperand)
    ensures Operands(env, front + [last])
         == Operands(env, front) + (match Parsed(env, last).0 case None => [] case Some(o) => [o])
  {
    TakeFront(front, last);
  }

  lemma {:induction false} ReadableIsOperand(env: Env, raws: seq<RawOperand>, raw: RawOperand)
    requires raw in raws && Parsed(env, raw).0.Some?
    ensures Parsed(env, raw).0.value in Operands(env, raws)
  {
    var front, last := raws[..|raws| - 1], raws[|raws| - 1];
    if raw != last {
      SplitLast(raws);
      ReadableIsOperand(env, front, raw);
    }
  }

  /** Handing in a readable operand a second time, in any input at all, gives a result its own verifier
      refuses. */
  lemma RepeatedOperandUnverified(env: Env, input: RawInput, raw: RawOperand)
    requires input.operands.Some? && raw in input.operands.value && Parsed(env, raw).0.Some?
    ensures !Verified(env, Compiled(env, input.(operands := Some(input.operands.value + [raw]))))
  {
    var raws, o := input.operands.value, Parsed(env, raw).0.value;
    CompiledVerifiesExactly(env, input.(operands := Some(raws + [raw])));
    OperandsPush(env, raws, raw);
    ReadableIsOperand(env, raws, raw);
    OncePush(Operands(env, raws), o);
    PresentIsCounted(Operands(env, raws), o);
  }

  lemma {:induction false} PresentIsCounted(operands: seq<Operand>, o: Operand)
    requires o in operands
    ensures OfKind(o.kind, operands) > 0
  {
    var front, last := operands[..|operands| - 1], operands[|operands| - 1];
    SplitLast(operands);
    SumPush(IsKind(o.kind), front, last);
    CountIsNat(o.kind, front);
    if o != last {
      PresentIsCounted(front, o);
    }
  }

  /** Such an input exists for every actor and tenant and every known value of each domain. */
  lemma UnverifiedResult(env: Env, actor: string, tenant: string, values: Domain -> string) returns (input: RawInput)
    requires env.isBound(actor) && env.isBound(tenant) && forall d: Domain :: values(d) in env.known(d)
    ensures InputIssues(env, input) == {} && ParseIssues(env, RawOperands(input)) == {}
    ensures !Verified(env, Compiled(env, input))
  {
    var one := (d: Domain) => Some([values(d)]);
    var lists := RawLists(one(ACTIONS), one(RESOURCES), one(FIELDS), one(PURPOSES), one(EFFECTS));
    var raw := RawOperand(Some(PROFILE), true, actor, tenant, actor, 1, actor, 1, Some(ALLOW), Some(lists));
    SingletonsParse(env, lists, values, |DOMAINS|);
    var single := RawInput(true, true, actor, tenant, Some([raw]));
    RepeatedOperandUnverified(env, single, raw);
    input := single.(operands := Some([raw] + [raw]));
  }

  lemma {:induction false} SingletonsParse(env: Env, lists: RawLists, values: Domain -> string, n: nat)
    requires n <= |DOMAINS|
    requires forall d: Domain :: values(d) in env.known(d) && lists.Get(d) == Some([values(d)])
    ensures AllWellFormed(lists, n) && ScopeIssues(env, lists, n) == {}
  {
    if n > 0 {
      SingletonsParse(env, lists, values, n - 1);
    }
  }
}
