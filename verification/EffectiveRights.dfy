/** Effective rights: four operands, one of each kind, meet in one scope and one outcome. Lists that the
    program keeps sorted and free of repetitions are sets here. */
module EffectiveRights {
  import opened Numbers
  import opened Options
  import opened Sequences
  import Sorting
  import opened Sums

  datatype Kind = ASSIGNMENT | CAPABILITY | CONSTRAINT | PROFILE

  datatype Outcome = ALLOW | ESCALATE | DENY

  datatype Issue =
    | BINDING_MISMATCH | EMPTY_INTERSECTION | EXPLICIT_DENY | INPUT_SCHEMA | OPERAND_CONFLICT | OPERAND_DUPLICATE
    | OPERAND_GENERATION_STALE | OPERAND_KIND_UNKNOWN | OPERAND_MISSING | OPERAND_SCHEMA | SCOPE_UNKNOWN

  datatype Domain = ACTIONS | RESOURCES | FIELDS | PURPOSES | EFFECTS

  /** The domains in the order in which they are checked. */
  const DOMAINS := [ACTIONS, RESOURCES, FIELDS, PURPOSES, EFFECTS]

  const KINDS := [PROFILE, ASSIGNMENT, CAPABILITY, CONSTRAINT]

  datatype Scope = Scope(actions: set<string>, resources: set<string>, fields: set<string>, purposes: set<string>,
                         effects: set<string>)
  {
    function Get(d: Domain): set<string> {
      match d
      case ACTIONS => actions
      case RESOURCES => resources
      case FIELDS => fields
      case PURPOSES => purposes
      case EFFECTS => effects
    }

    predicate Within(s: Scope) {
      forall d: Domain :: Get(d) <= s.Get(d)
    }
  }

  const NOTHING := Scope({}, {}, {}, {}, {})

  /** A list as it comes in: None is no array of strings. */
  type RawList = Option<seq<string>>

  /** A scope as it comes in: None is no record with exactly the five members. */
  type RawScope = Option<RawLists>

  datatype RawLists = RawLists(actions: RawList, resources: RawList, fields: RawList, purposes: RawList, effects: RawList)
  {
    function Get(d: Domain): RawList {
      match d
      case ACTIONS => actions
      case RESOURCES => resources
      case FIELDS => fields
      case PURPOSES => purposes
      case EFFECTS => effects
    }
  }

  /** The members of an operand as it comes in; an unknown kind or ceiling is None. */
  datatype RawOperand =
    | NoRecord
    | RawOperand(kind: Option<Kind>, keysExact: bool, operandId: string, tenant: string, actor: string,
                 generation: int, profileId: string, profileGeneration: int, ceiling: Option<Outcome>, scope: RawScope)

  datatype RawInput = RawInput(keysExact: bool, schemaKnown: bool, actor: string, tenant: string,
                               operands: Option<seq<RawOperand>>)

  datatype Operand = Operand(
    kind: Kind, operandId: string, tenant: string, actor: string, generation: int, profileId: string,
    profileGeneration: int, ceiling: Outcome, scope: Scope)

  datatype Ceiling = Ceiling(kind: Kind, operandId: string, generation: int, ceiling: Outcome, scope: Scope,
                             operandDigest: string)

  datatype Fact = CeilingContributed(source: Kind, ceiling: Outcome) | FailClosed(issue: Issue) | Decided(outcome: Outcome)

  datatype ResultCore = ResultCore(
    inputDigest: string, actor: Option<string>, tenant: Option<string>, profileId: Option<string>,
    profileGeneration: Option<int>, outcome: Outcome, effectiveScope: Scope, ceilings: seq<Ceiling>,
    reasonFacts: seq<Fact>, issues: set<Issue>)

  datatype Rights = Rights(core: ResultCore, resultDigest: string)

  /** What an input digest is taken of. */
  datatype InputMaterial = Invalid(issues: set<Issue>) | Normalized(actor: string, tenant: string, operands: seq<Operand>)

  /** Identifier shapes, the known values of each domain, hashes. */
  datatype Env = Env(isBound: string -> bool, known: Domain -> set<string>, digestInput: InputMaterial -> string,
                     digestOperand: Operand -> string, digestResult: ResultCore -> string)

  predicate IsPositiveGeneration(g: int) {
    0 < g <= MAX_SAFE_INTEGER
  }

  // ---------------------------------------------------------------- parsing

  function ListIssues(env: Env, d: Domain, list: seq<string>): set<Issue> {
    (if Sorting.Distinct(list) then {} else {OPERAND_CONFLICT})
    + (if exists x :: x in list && x !in env.known(d) then {SCOPE_UNKNOWN} else {})
  }

  predicate WellFormed(list: RawList) {
    list.Some? && list.value != []
  }

  /** The issues of the first n domains, up to the first that is no list. */
  function ScopeIssues(env: Env, lists: RawLists, n: nat): set<Issue>
    requires n <= |DOMAINS|
  {
    if n == 0 then {}
    else
      var d := DOMAINS[n - 1];
      ScopeIssues(env, lists, n - 1)
      + (if !AllWellFormed(lists, n - 1) then {}
         else if !WellFormed(lists.Get(d)) then {OPERAND_SCHEMA}
         else ListIssues(env, d, lists.Get(d).value))
  }

  predicate AllWellFormed(lists: RawLists, n: nat)
    requires n <= |DOMAINS|
  {
    forall i | 0 <= i < n :: WellFormed(lists.Get(DOMAINS[i]))
  }

  function Entries(list: RawList): set<string> {
    match list
    case None => {}
    case Some(s) => Sorting.Elements(s)
  }

  function ScopeOf(lists: RawLists): Scope {
    Scope(Entries(lists.actions), Entries(lists.resources), Entries(lists.fields), Entries(lists.purposes),
          Entries(lists.effects))
  }

  function ParsedScope(env: Env, scope: RawScope): (Option<Scope>, set<Issue>) {
    match scope
    case None => (None, {OPERAND_SCHEMA})
    case Some(lists) =>
      (if AllWellFormed(lists, |DOMAINS|) then Some(ScopeOf(lists)) else None, ScopeIssues(env, lists, |DOMAINS|))
  }

  function Parsed(env: Env, raw: RawOperand): (Option<Operand>, set<Issue>) {
    if raw.NoRecord? then (None, {OPERAND_SCHEMA})
    else if raw.kind.None? then (None, {OPERAND_KIND_UNKNOWN})
    else if !raw.keysExact || !env.isBound(raw.operandId) || !env.isBound(raw.tenant) || !env.isBound(raw.actor)
            || !env.isBound(raw.profileId) || raw.ceiling.None?
    then (None, {OPERAND_SCHEMA})
    else if !IsPositiveGeneration(raw.generation) || !IsPositiveGeneration(raw.profileGeneration) then
      (None, {OPERAND_GENERATION_STALE})
    else
      var (scope, issues) := ParsedScope(env, raw.scope);
      (if scope.None? then None
       else Some(Operand(raw.kind.value, raw.operandId, raw.tenant, raw.actor, raw.generation, raw.profileId,
                         raw.profileGeneration, raw.ceiling.value, scope.value)),
       issues)
  }

  /** Collects the issues of a scope into the set it is given, as the program's shared set does. */
  method ValidateScope(env: Env, scope: RawScope, before: set<Issue>) returns (r: Option<Scope>, issues: set<Issue>)
    ensures r == ParsedScope(env, scope).0 && issues == before + ParsedScope(env, scope).1
  {
    issues := before;
    if scope.None? {
      return None, issues + {OPERAND_SCHEMA};
    }
    var lists := scope.value;
    for n := 0 to |DOMAINS|
      invariant AllWellFormed(lists, n)
      invariant issues == before + ScopeIssues(env, lists, n)
    {
      var d := DOMAINS[n];
      var candidate := lists.Get(d);
      if candidate.None? || candidate.value == [] {
        issues := issues + {OPERAND_SCHEMA};
        StopsHere(env, lists, n);
        return None, issues;
      }
      if |Sorting.Elements(candidate.value)| != |candidate.value| {
        issues := issues + {OPERAND_CONFLICT};
      }
      if exists x :: x in candidate.value && x !in env.known(d) {
        issues := issues + {SCOPE_UNKNOWN};
      }
      Sorting.DistinctBySize(candidate.value);
    }
    r := Some(ScopeOf(lists));
  }

  lemma StopsHere(env: Env, lists: RawLists, n: nat)
    requires n < |DOMAINS| && AllWellFormed(lists, n) && !WellFormed(lists.Get(DOMAINS[n]))
    ensures !AllWellFormed(lists, |DOMAINS|)
    ensures ScopeIssues(env, lists, |DOMAINS|) == ScopeIssues(env, lists, n) + {OPERAND_SCHEMA}
  {
    StopsBefore(env, lists, n, |DOMAINS|);
  }

  lemma {:induction false} StopsBefore(env: Env, lists: RawLists, n: nat, m: nat)
    requires n < m <= |DOMAINS| && AllWellFormed(lists, n) && !WellFormed(lists.Get(DOMAINS[n]))
    ensures !AllWellFormed(lists, m)
    ensures ScopeIssues(env, lists, m) == ScopeIssues(env, lists, n) + {OPERAND_SCHEMA}
  {
    if n + 1 < m {
      StopsBefore(env, lists, n, m - 1);
    }
  }

  method ParseOperand(env: Env, raw: RawOperand, before: set<Issue>) returns (r: Option<Operand>, issues: set<Issue>)
    ensures r == Parsed(env, raw).0 && issues == before + Parsed(env, raw).1
  {
    if raw.NoRecord? {
      return None, before + {OPERAND_SCHEMA};
    }
    if raw.kind.None? {
      return None, before + {OPERAND_KIND_UNKNOWN};
    }
    if !raw.keysExact {
      return None, before + {OPERAND_SCHEMA};
    }
    if !env.isBound(raw.operandId) || !env.isBound(raw.tenant) || !env.isBound(raw.actor)
       || !env.isBound(raw.profileId) || raw.ceiling.None?
    {
      return None, before + {OPERAND_SCHEMA};
    }
    if !IsPositiveGeneration(raw.generation) || !IsPositiveGeneration(raw.profileGeneration) {
      return None, before + {OPERAND_GENERATION_STALE};
    }
    var scope;
    scope, issues := ValidateScope(env, raw.scope, before);
    if scope.None? {
      return None, issues;
    }
    r := Some(Operand(raw.kind.value, raw.operandId, raw.tenant, raw.actor, raw.generation, raw.profileId,
                      raw.profileGeneration, raw.ceiling.value, scope.value));
  }

  // ---------------------------------------------------------------- compiling

  function Operands(env: Env, raws: seq<RawOperand>): seq<Operand> {
    if raws == [] then []
    else
      var last := Parsed(env, raws[|raws| - 1]).0;
      Operands(env, raws[..|raws| - 1]) + if last.Some? then [last.value] else []
  }

  function ParseIssues(env: Env, raws: seq<RawOperand>): set<Issue> {
    set r, i | r in raws && i in Parsed(env, r).1 :: i
  }

  function IsKind(kind: Kind): Operand -> int {
    (o: Operand) => if o.kind == kind then 1 else 0
  }

  function OfKind(kind: Kind, operands: seq<Operand>): int {
    Sum(IsKind(kind), operands)
  }

  function KindIssues(operands: seq<Operand>): set<Issue> {
    (if exists k: Kind :: OfKind(k, operands) == 0 then {OPERAND_MISSING} else {})
    + (if exists k: Kind :: OfKind(k, operands) > 1 then {OPERAND_DUPLICATE} else {})
  }

  function FirstProfile(operands: seq<Operand>): (r: Option<Operand>)
    ensures r.Some? ==> r.value in operands && r.value.kind == PROFILE
    ensures r.None? ==> forall o | o in operands :: o.kind != PROFILE
  {
    if operands == [] then None
    else if operands[0].kind == PROFILE then Some(operands[0])
    else FirstProfile(operands[1..])
  }

  function BindingIssuesOf(actor: Option<string>, tenant: Option<string>, profile: Operand, o: Operand): set<Issue> {
    (if actor != Some(o.actor) || tenant != Some(o.tenant) || o.profileId != profile.profileId then {BINDING_MISMATCH}
     else {})
    + (if o.profileGeneration < profile.profileGeneration then {OPERAND_GENERATION_STALE}
       else if o.profileGeneration != profile.profileGeneration then {BINDING_MISMATCH}
       else {})
  }

  function IssuesAgainst(actor: Option<string>, tenant: Option<string>, profile: Operand, operands: seq<Operand>): set<Issue> {
    set o, i | o in operands && i in BindingIssuesOf(actor, tenant, profile, o) :: i
  }

  function BindingIssues(actor: Option<string>, tenant: Option<string>, operands: seq<Operand>): set<Issue> {
    match FirstProfile(operands)
    case None => {}
    case Some(profile) => IssuesAgainst(actor, tenant, profile, operands)
  }

  function Intersection(operands: seq<Operand>, d: Domain): set<string> {
    if operands == [] then {}
    else set x | x in operands[0].scope.Get(d) && forall o | o in operands[1..] :: x in o.scope.Get(d)
  }

  function EffectiveScope(operands: seq<Operand>): Scope {
    if |operands| != 4 then NOTHING
    else
      Scope(Intersection(operands, ACTIONS), Intersection(operands, RESOURCES), Intersection(operands, FIELDS),
            Intersection(operands, PURPOSES), Intersection(operands, EFFECTS))
  }

  predicate SomeEmpty(s: Scope) {
    exists d: Domain :: s.Get(d) == {}
  }

  predicate SomeCeiling(operands: seq<Operand>, c: Outcome) {
    exists o :: o in operands && o.ceiling == c
  }

  function FinalIssues(operands: seq<Operand>, issues: set<Issue>): set<Issue> {
    issues
    + (if |operands| == 4 && SomeEmpty(EffectiveScope(operands)) then {EMPTY_INTERSECTION} else {})
    + (if SomeCeiling(operands, DENY) then {EXPLICIT_DENY} else {})
  }

  function OutcomeOf(operands: seq<Operand>, issues: set<Issue>): Outcome {
    if FinalIssues(operands, issues) != {} then DENY
    else if SomeCeiling(operands, ESCALATE) then ESCALATE
    else ALLOW
  }

  /** The alphabetical order of the kinds. */
  function KindRank(o: Operand): nat {
    match o.kind
    case ASSIGNMENT => 0
    case CAPABILITY => 1
    case CONSTRAINT => 2
    case PROFILE => 3
  }

  function AtMost(a: nat, b: nat): bool { a <= b }

  function ByKind(operands: seq<Operand>): seq<Operand> {
    Sorting.Sort(Sorting.ByKey(AtMost, KindRank), operands)
  }

  function CeilingOf(env: Env, o: Operand): Ceiling {
    Ceiling(o.kind, o.operandId, o.generation, o.ceiling, o.scope, env.digestOperand(o))
  }

  function FactOf(o: Operand): Fact {
    CeilingContributed(o.kind, o.ceiling)
  }

  /** All issues in alphabetical order of their codes. */
  const ISSUES := [BINDING_MISMATCH, EMPTY_INTERSECTION, EXPLICIT_DENY, INPUT_SCHEMA, OPERAND_CONFLICT, OPERAND_DUPLICATE,
                   OPERAND_GENERATION_STALE, OPERAND_KIND_UNKNOWN, OPERAND_MISSING, OPERAND_SCHEMA, SCOPE_UNKNOWN]

  function IssueFacts(issues: set<Issue>, codes: seq<Issue>): seq<Fact> {
    if codes == [] then []
    else (if codes[0] in issues then [FailClosed(codes[0])] else []) + IssueFacts(issues, codes[1..])
  }

  function Assemble(env: Env, inputDigest: string, actor: Option<string>, tenant: Option<string>,
                    profile: Option<Operand>, scope: Scope, sorted: seq<Operand>, issues: set<Issue>, outcome: Outcome)
    : Rights
  {
    var core := ResultCore(inputDigest, actor, tenant,
                           if profile.Some? then Some(profile.value.profileId) else None,
                           if profile.Some? then Some(profile.value.profileGeneration) else None,
                           outcome, scope, Map((o: Operand) => CeilingOf(env, o), sorted),
                           Map(FactOf, sorted) + IssueFacts(issues, ISSUES) + [Decided(outcome)], issues);
    Rights(core, env.digestResult(core))
  }

  function BuildResult(env: Env, inputDigest: string, actor: Option<string>, tenant: Option<string>,
                       operands: seq<Operand>, issues: set<Issue>): Rights {
    Assemble(env, inputDigest, actor, tenant, FirstProfile(operands), EffectiveScope(operands), ByKind(operands),
             FinalIssues(operands, issues), OutcomeOf(operands, issues))
  }

  function Bound(env: Env, s: string): Option<string> {
    if env.isBound(s) then Some(s) else None
  }

  function InputIssues(env: Env, input: RawInput): set<Issue> {
    if input.keysExact && input.schemaKnown && env.isBound(input.actor) && env.isBound(input.tenant) && input.operands.Some?
    then {} else {INPUT_SCHEMA}
  }

  function RawOperands(input: RawInput): seq<RawOperand> {
    if input.operands.Some? then input.operands.value else []
  }

  function Issues(env: Env, input: RawInput): set<Issue> {
    var operands := Operands(env, RawOperands(input));
    InputIssues(env, input) + ParseIssues(env, RawOperands(input)) + KindIssues(operands)
    + BindingIssues(Bound(env, input.actor), Bound(env, input.tenant), operands)
  }

  function InputDigest(env: Env, input: RawInput): string {
    if env.isBound(input.actor) && env.isBound(input.tenant) then
      env.digestInput(Normalized(input.actor, input.tenant, ByKind(Operands(env, RawOperands(input)))))
    else env.digestInput(Invalid(Issues(env, input)))
  }

  function Compiled(env: Env, input: RawInput): Rights {
    BuildResult(env, InputDigest(env, input), Bound(env, input.actor), Bound(env, input.tenant),
                Operands(env, RawOperands(input)), Issues(env, input))
  }

  function PlaceOf(k: Kind): (i: nat)
    ensures i < |KINDS| && KINDS[i] == k
  {
    match k
    case PROFILE => 0
    case ASSIGNMENT => 1
    case CAPABILITY => 2
    case CONSTRAINT => 3
  }

  method KindsPresent(operands: seq<Operand>, before: set<Issue>) returns (issues: set<Issue>)
    ensures issues == before + KindIssues(operands)
  {
    issues := before;
    ghost var missing, repeated := false, false;
    for n := 0 to |KINDS|
      invariant missing <==> exists i | 0 <= i < n :: OfKind(KINDS[i], operands) == 0
      invariant repeated <==> exists i | 0 <= i < n :: OfKind(KINDS[i], operands) > 1
      invariant issues == before + (if missing then {OPERAND_MISSING} else {})
                                 + (if repeated then {OPERAND_DUPLICATE} else {})
    {
      var count := OfKind(KINDS[n], operands);
      if count == 0 {
        issues := issues + {OPERAND_MISSING};
        missing := true;
      }
      if count > 1 {
        issues := issues + {OPERAND_DUPLICATE};
        repeated := true;
      }
    }
    forall k: Kind
      ensures OfKind(k, operands) == 0 ==> missing
      ensures OfKind(k, operands) > 1 ==> repeated
    {
      assert KINDS[PlaceOf(k)] == k;
    }
  }

  method BindingMatches(actor: Option<string>, tenant: Option<string>, profile: Operand, o: Operand, before: set<Issue>)
    returns (issues: set<Issue>)
    ensures issues == before + BindingIssuesOf(actor, tenant, profile, o)
  {
    issues := before;
    if actor != Some(o.actor) || tenant != Some(o.tenant) || o.profileId != profile.profileId {
      issues := issues + {BINDING_MISMATCH};
    }
    if o.profileGeneration < profile.profileGeneration {
      issues := issues + {OPERAND_GENERATION_STALE};
    } else if o.profileGeneration != profile.profileGeneration {
      issues := issues + {BINDING_MISMATCH};
    }
  }

  method BindingsMatch(actor: Option<string>, tenant: Option<string>, operands: seq<Operand>, before: set<Issue>)
    returns (issues: set<Issue>)
    ensures issues == before + BindingIssues(actor, tenant, operands)
  {
    issues := before;
    var profile := FirstProfile(operands);
    if profile.Some? {
      for n := 0 to |operands|
        invariant issues == before + IssuesAgainst(actor, tenant, profile.value, operands[..n])
      {
        TakeNext(operands, n);
        IssuesAgainstPush(actor, tenant, profile.value, operands[..n], operands[n]);
        issues := BindingMatches(actor, tenant, profile.value, operands[n], issues);
      }
      TakeAll(operands);
    }
  }

  lemma IssuesAgainstPush(actor: Option<string>, tenant: Option<string>, profile: Operand, front: seq<Operand>,
                          last: Operand)
    ensures IssuesAgainst(actor, tenant, profile, front + [last])
         == IssuesAgainst(actor, tenant, profile, front) + BindingIssuesOf(actor, tenant, profile, last)
  {}

  /** The compiler: issues are collected in one growing set, and any issue at all denies. */
  method Compile(env: Env, input: RawInput) returns (r: Rights)
    ensures r == Compiled(env, input)
  {
    var issues := InputIssues(env, input);
    var raws := RawOperands(input);
    var operands: seq<Operand> := [];
    for n := 0 to |raws|
      invariant operands == Operands(env, raws[..n])
      invariant issues == InputIssues(env, input) + ParseIssues(env, raws[..n])
    {
      TakeNext(raws, n);
      TakeFront(raws[..n], raws[n]);
      ParseIssuesPush(env, raws[..n], raws[n]);
      var parsed;
      parsed, issues := ParseOperand(env, raws[n], issues);
      if parsed.Some? {
        operands := operands + [parsed.value];
      }
    }
    TakeAll(raws);
    issues := KindsPresent(operands, issues);
    issues := BindingsMatch(Bound(env, input.actor), Bound(env, input.tenant), operands, issues);
    r := BuildResult(env, InputDigest(env, input), Bound(env, input.actor), Bound(env, input.tenant), operands, issues);
  }

  lemma ParseIssuesPush(env: Env, front: seq<RawOperand>, last: RawOperand)
    ensures ParseIssues(env, front + [last]) == ParseIssues(env, front) + Parsed(env, last).1
  {}
}
