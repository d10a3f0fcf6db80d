/** Authority of a builder: for every registered right, whether it is effective and on which route it
    goes. A right is effective when host system, owner profile, assignments and constraints all have it. */
module BuilderAuthority {
  import opened Options
  import opened Sequences
  import opened Sorting
  import opened BuilderIntake

  datatype Profile = SAFE_GUIDED | CUSTOM | RAMPAGE_FULL_CONTROL_LAB

  datatype Route = AUTO_EXECUTE | OWNER_APPROVAL | DENY

  datatype Right = Right(rightId: string, effectClass: EffectClass)

  datatype Rule = Rule(rightId: string, route: Route)

  datatype AuthorityInput = AuthorityInput(tenant: string, actor: string, requestedProfile: Option<string>,
                                           registeredRights: seq<Right>, hostSystemCeiling: seq<string>,
                                           assignments: seq<string>, currentConstraints: seq<string>,
                                           customRules: seq<Rule>)

  datatype Decision = Decision(rightId: string, effectClass: EffectClass, inHostSystemCeiling: bool,
                               inOwnerProfile: bool, inAssignments: bool, inCurrentConstraints: bool,
                               effective: bool, route: Route)

  datatype Authority = Authority(tenant: string, actor: string, selected: Profile, defaulted: bool,
                                 decisions: seq<Decision>, effectiveRights: seq<string>,
                                 automaticRights: seq<string>, ownerApprovalRights: seq<string>)

  function RightIdOf(r: Right): string { r.rightId }

  function RuleIdOf(r: Rule): string { r.rightId }

  function DecisionId(d: Decision): string { d.rightId }

  function SelectProfile(requested: Option<string>): Option<Profile> {
    match requested
    case None => Some(SAFE_GUIDED)
    case Some(name) =>
      if name == "SAFE_GUIDED" then Some(SAFE_GUIDED)
      else if name == "CUSTOM" then Some(CUSTOM)
      else if name == "RAMPAGE_FULL_CONTROL_LAB" || name == "RAMPAGE" || name == "FULL_CONTROL_LAB"
      then Some(RAMPAGE_FULL_CONTROL_LAB)
      else None
  }

  // ---------------------------------------------------------------- validation

  predicate ValidRights(env: Env, rights: seq<Right>) {
    rights != [] && (forall r | r in rights :: env.isId(r.rightId)) && Distinct(Map(RightIdOf, rights))
  }

  predicate UniqueReferences(env: Env, rights: seq<Right>, refs: seq<string>) {
    (forall r | r in refs :: env.isId(r)) && Distinct(refs) && Includes(Map(RightIdOf, rights), refs)
  }

  predicate ValidRules(env: Env, rights: seq<Right>, profile: Profile, rules: seq<Rule>) {
    && (forall r | r in rules :: env.isId(r.rightId) && r.rightId in Map(RightIdOf, rights) && r.route != DENY)
    && Distinct(Map(RuleIdOf, rules))
    && (profile != CUSTOM ==> rules == [])
  }

  predicate ValidAuthority(env: Env, input: AuthorityInput) {
    var profile := SelectProfile(input.requestedProfile);
    && env.isId(input.tenant) && env.isId(input.actor) && profile.Some?
    && ValidRights(env, input.registeredRights)
    && UniqueReferences(env, input.registeredRights, input.hostSystemCeiling)
    && UniqueReferences(env, input.registeredRights, input.assignments)
    && UniqueReferences(env, input.registeredRights, input.currentConstraints)
    && ValidRules(env, input.registeredRights, profile.value, input.customRules)
  }

  // ---------------------------------------------------------------- decisions

  function SafeGuidedRoute(effectClass: EffectClass): Route {
    if effectClass == READ_ONLY then AUTO_EXECUTE else OWNER_APPROVAL
  }

  /** The rules sorted by right, and looked up in a map built from them. */
  function CustomRoute(env: Env, input: AuthorityInput, rightId: string): Option<Route> {
    match FindLast(RuleIdOf, Sort(ByKey(env.locale, RuleIdOf), input.customRules), rightId)
    case None => None
    case Some(rule) => Some(rule.route)
  }

  function SelectedRoute(profile: Profile, custom: Option<Route>, effectClass: EffectClass): Route {
    match profile
    case SAFE_GUIDED => SafeGuidedRoute(effectClass)
    case CUSTOM => (match custom case None => OWNER_APPROVAL case Some(route) => route)
    case RAMPAGE_FULL_CONTROL_LAB => AUTO_EXECUTE
  }

  function Decide(env: Env, input: AuthorityInput, profile: Profile): Right -> Decision {
    (right: Right) =>
      var custom := CustomRoute(env, input, right.rightId);
      var inHost := right.rightId in input.hostSystemCeiling;
      var inProfile := profile != CUSTOM || custom.Some?;
      var inAssignments := right.rightId in input.assignments;
      var inConstraints := right.rightId in input.currentConstraints;
      var effective := inHost && inProfile && inAssignments && inConstraints;
      Decision(right.rightId, right.effectClass, inHost, inProfile, inAssignments, inConstraints, effective,
               if effective then SelectedRoute(profile, custom, right.effectClass) else DENY)
  }

  function Decisions(env: Env, input: AuthorityInput, profile: Profile): seq<Decision> {
    Map(Decide(env, input, profile), Sort(ByKey(env.locale, RightIdOf), input.registeredRights))
  }

  function RightsWhere(keep: Decision -> bool, decisions: seq<Decision>): seq<string> {
    Map(DecisionId, Filter(keep, decisions))
  }

  function Decided(env: Env, input: AuthorityInput): Option<Authority> {
    if !ValidAuthority(env, input) then None
    else
      var profile := SelectProfile(input.requestedProfile).value;
      var decisions := Decisions(env, input, profile);
      Some(Authority(input.tenant, input.actor, profile, input.requestedProfile.None?, decisions,
                     RightsWhere((d: Decision) => d.effective, decisions),
                     RightsWhere((d: Decision) => d.route == AUTO_EXECUTE, decisions),
                     RightsWhere((d: Decision) => d.route == OWNER_APPROVAL, decisions)))
  }

  // ---------------------------------------------------------------- what is decided

  /** The owner profile includes a right: every profile but a custom one does, a custom one by a rule. */
  predicate InProfile(input: AuthorityInput, rightId: string) {
    SelectProfile(input.requestedProfile) == Some(CUSTOM) ==> rightId in Map(RuleIdOf, input.customRules)
  }

  /** The intersection of the four ceilings. */
  predicate Effective(input: AuthorityInput, rightId: string) {
    && rightId in input.hostSystemCeiling && InProfile(input, rightId)
    && rightId in input.assignments && rightId in input.currentConstraints
  }

  /** An effective right that needs no approval. */
  predicate Automatic(input: AuthorityInput, right: Right) {
    Effective(input, right.rightId)
    && match SelectProfile(input.requestedProfile)
       case Some(SAFE_GUIDED) => right.effectClass == READ_ONLY
       case Some(CUSTOM) => Rule(right.rightId, AUTO_EXECUTE) in input.customRules
       case Some(RAMPAGE_FULL_CONTROL_LAB) => true
       case None => false
  }

  lemma CustomRouteExactly(env: Env, input: AuthorityInput, rightId: string, route: Route)
    requires Distinct(Map(RuleIdOf, input.customRules))
    ensures CustomRoute(env, input, rightId) == Some(route) <==> Rule(rightId, route) in input.customRules
    ensures CustomRoute(env, input, rightId).Some? <==> rightId in Map(RuleIdOf, input.customRules)
  {
    SortKeepsElements(ByKey(env.locale, RuleIdOf), input.customRules);
    KeyOfMember(RuleIdOf, input.customRules, rightId);
    var found := FindLast(RuleIdOf, Sort(ByKey(env.locale, RuleIdOf), input.customRules), rightId);
    if found.Some? && Rule(rightId, route) in input.customRules {
      SameKeySame(RuleIdOf, input.customRules, found.value, Rule(rightId, route));
    }
  }

  /** A decision says what the input says of its right. */
  lemma DecisionExactly(env: Env, input: AuthorityInput, right: Right)
    requires ValidAuthority(env, input)
    ensures var d := Decide(env, input, SelectProfile(input.requestedProfile).value)(right);
      && (d.effective <==> Effective(input, right.rightId))
      && (d.route == AUTO_EXECUTE <==> Automatic(input, right))
      && (d.route == OWNER_APPROVAL <==> Effective(input, right.rightId) && !Automatic(input, right))
  {
    CustomRouteExactly(env, input, right.rightId, AUTO_EXECUTE);
    CustomRouteExactly(env, input, right.rightId, OWNER_APPROVAL);
    CustomRouteExactly(env, input, right.rightId, DENY);
  }

  lemma DecisionIds(env: Env, input: AuthorityInput, profile: Profile)
    ensures Map(DecisionId, Decisions(env, input, profile)) == Sort(env.locale, Map(RightIdOf, input.registeredRights))
  {
    var sorted := Sort(ByKey(env.locale, RightIdOf), input.registeredRights);
    SortCommutesWithKey(env.locale, RightIdOf, input.registeredRights);
    assert Map(DecisionId, Decisions(env, input, profile)) == Map(RightIdOf, sorted);
  }

  lemma DecisionFor(env: Env, input: AuthorityInput, profile: Profile, d: Decision)
    ensures d in Decisions(env, input, profile)
       <==> exists right | right in input.registeredRights :: d == Decide(env, input, profile)(right)
  {
    var sorted := Sort(ByKey(env.locale, RightIdOf), input.registeredRights);
    SortKeepsElements(ByKey(env.locale, RightIdOf), input.registeredRights);
    KeyOfMember(Decide(env, input, profile), sorted, d);
  }

  /** The three lists of an authority: the effective rights are the registered ones that all four
      ceilings have, and they fall into automatic and approved ones. */
  lemma RightsExactly(env: Env, input: AuthorityInput, right: Right)
    requires ValidAuthority(env, input) && right in input.registeredRights
    ensures var a, id := Decided(env, input).value, right.rightId;
      && (id in a.effectiveRights <==> Effective(input, id))
      && (id in a.automaticRights <==> Automatic(input, right))
      && (id in a.ownerApprovalRights <==> Effective(input, id) && !Automatic(input, right))
  {
    var profile := SelectProfile(input.requestedProfile).value;
    var decisions := Decisions(env, input, profile);
    var d := Decide(env, input, profile)(right);
    DecisionExactly(env, input, right);
    DecisionFor(env, input, profile, d);
    forall other | other in decisions && other.rightId == right.rightId ensures other == d {
      OneDecision(env, input, profile, right, other);
    }
    KeyOfMember(DecisionId, Filter((x: Decision) => x.effective, decisions), right.rightId);
    KeyOfMember(DecisionId, Filter((x: Decision) => x.route == AUTO_EXECUTE, decisions), right.rightId);
    KeyOfMember(DecisionId, Filter((x: Decision) => x.route == OWNER_APPROVAL, decisions), right.rightId);
  }

  lemma OneDecision(env: Env, input: AuthorityInput, profile: Profile, right: Right, d: Decision)
    requires Distinct(Map(RightIdOf, input.registeredRights)) && right in input.registeredRights
    requires d in Decisions(env, input, profile) && d.rightId == right.rightId
    ensures d == Decide(env, input, profile)(right)
  {
    DecisionFor(env, input, profile, d);
    var origin :| origin in input.registeredRights && d == Decide(env, input, profile)(origin);
    SameKeySame(RightIdOf, input.registeredRights, origin, right);
  }

  /** Taking references away from the three lists never makes a right effective. */
  lemma NarrowingKeepsDenied(env: Env, wide: AuthorityInput, narrow: AuthorityInput, right: Right)
    requires ValidAuthority(env, wide) && ValidAuthority(env, narrow) && right in wide.registeredRights
    requires narrow == wide.(hostSystemCeiling := narrow.hostSystemCeiling, assignments := narrow.assignments,
                             currentConstraints := narrow.currentConstraints)
    requires Includes(wide.hostSystemCeiling, narrow.hostSystemCeiling)
    requires Includes(wide.assignments, narrow.assignments)
    requires Includes(wide.currentConstraints, narrow.currentConstraints)
    ensures right.rightId in Decided(env, narrow).value.effectiveRights
        ==> right.rightId in Decided(env, wide).value.effectiveRights
  {
    RightsExactly(env, wide, right);
    RightsExactly(env, narrow, right);
  }
}
