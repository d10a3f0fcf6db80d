/** From a described system, the registered capabilities and an authority to an integration plan: a
    plan exists exactly when the three parts fit together, and it lists the same operations everywhere. */
module BuilderPlanning {
  import opened Options
  import opened Sequences
  import opened Sorting
  import opened Graphs
  import opened BuilderDiscovery
  import opened BuilderIntake
  import opened BuilderResolution
  import opened BuilderAuthority

  datatype GraphEdge = GraphEdge(fromType: string, toType: string)

  datatype CapabilityState = REUSE_REGISTERED | UNRESOLVED_INTENT

  datatype Contract = Contract(operationId: string, objectType: string, effectClass: EffectClass,
                               state: CapabilityState, capabilityRef: string)

  datatype ProfileEntry = ProfileEntry(rightId: string, effectClass: EffectClass, safeGuidedRoute: Route,
                                       selectedRoute: Route, changedFromSafeGuided: bool, effective: bool)

  datatype FixtureMode = READ_EXPECTATION | REVERSIBLE_WRITE_ROLLBACK | EFFECT_RECOVERY_PROBE

  datatype Fixture = Fixture(operationId: string, mode: FixtureMode)

  datatype RollbackEntry = RollbackEntry(operationId: string, requiredBeforeActivation: bool, contextRefs: seq<string>)

  datatype PlanningStatus = PREPARATION_REQUIRED | READY_FOR_QUALITY_GATE

  datatype Plan = Plan(tenant: string, systemId: string, status: PlanningStatus, nodes: seq<string>,
                       edges: seq<GraphEdge>, contracts: seq<Contract>, selectedProfile: Profile,
                       profileDiff: seq<ProfileEntry>, fixtures: seq<Fixture>, rollback: seq<RollbackEntry>)

  function ContractId(c: Contract): string { c.operationId }

  function EntryId(e: ProfileEntry): string { e.rightId }

  function FixtureId(f: Fixture): string { f.operationId }

  function RollbackId(r: RollbackEntry): string { r.operationId }

  function RightOf(o: Operation): Right { Right(o.operationId, o.effectClass) }

  // ---------------------------------------------------------------- the authority must match

  function IdsOf(operations: seq<Operation>): seq<string> {
    Map(IdOf, operations)
  }

  predicate DecisionFits(operations: seq<Operation>, d: Decision) {
    match FindLast(IdOf, operations, d.rightId)
    case None => false
    case Some(o) => o.effectClass == d.effectClass
  }

  /** As many decisions as operation ids, and each for an operation with its effect class. */
  predicate DecisionsFit(operations: seq<Operation>, decisions: seq<Decision>) {
    && |decisions| == |Elements(IdsOf(operations))|
    && forall d | d in decisions :: DecisionFits(operations, d)
  }

  predicate AuthorityMatches(authority: Authority, discovery: Discovery) {
    && authority.tenant == discovery.tenant && authority.actor == discovery.actor
    && DecisionsFit(discovery.operations, authority.decisions)
  }

  lemma DecisionFitsExactly(operations: seq<Operation>, d: Decision)
    requires Distinct(IdsOf(operations))
    ensures DecisionFits(operations, d) <==> Right(d.rightId, d.effectClass) in Map(RightOf, operations)
  {
    KeyOfMember(RightOf, operations, Right(d.rightId, d.effectClass));
    match FindLast(IdOf, operations, d.rightId)
    case None =>
    case Some(found) =>
      forall o | o in operations && o.operationId == d.rightId ensures o == found {
        SameKeySame(IdOf, operations, o, found);
      }
  }

  lemma SameSizeSubset<T>(a: set<T>, b: set<T>)
    requires a <= b && |a| == |b|
    ensures a == b
  {
    assert b == a + (b - a);
  }

  /** A list without repetitions inside another of the same size has the same elements. */
  lemma SameSizeSameElements<T(!new)>(a: seq<T>, b: seq<T>)
    requires Distinct(a) && Distinct(b) && |a| == |b| && forall x | x in a :: x in b
    ensures forall x :: x in a <==> x in b
  {
    DistinctBySize(a);
    DistinctBySize(b);
    SameSizeSubset(Elements(a), Elements(b));
    forall x ensures x in a <==> x in b {
      assert x in Elements(a) <==> x in Elements(b);
    }
  }

  lemma RightsDistinct(rights: seq<Right>)
    requires Distinct(Map(RightIdOf, rights))
    ensures Distinct(rights)
  {
    forall i, j | 0 <= i < j < |rights| ensures rights[i] != rights[j] {
      assert Map(RightIdOf, rights)[i] != Map(RightIdOf, rights)[j];
    }
  }

  lemma OperationRightsDistinct(operations: seq<Operation>)
    requires Distinct(IdsOf(operations))
    ensures Distinct(Map(RightOf, operations))
  {
    assert Map(RightIdOf, Map(RightOf, operations)) == IdsOf(operations);
    RightsDistinct(Map(RightOf, operations));
  }

  /** Every decision fits exactly when every registered right is the right of an operation. */
  lemma EachDecisionFits(env: Env, input: AuthorityInput, profile: Profile, operations: seq<Operation>)
    requires Distinct(IdsOf(operations))
    ensures (forall d | d in Decisions(env, input, profile) :: DecisionFits(operations, d))
       <==> forall r | r in input.registeredRights :: r in Map(RightOf, operations)
  {
    forall r | r in input.registeredRights
      ensures Decide(env, input, profile)(r) in Decisions(env, input, profile)
      ensures DecisionFits(operations, Decide(env, input, profile)(r)) <==> r in Map(RightOf, operations)
    {
      DecisionFor(env, input, profile, Decide(env, input, profile)(r));
      DecisionFitsExactly(operations, Decide(env, input, profile)(r));
    }
    forall d | d in Decisions(env, input, profile)
      ensures exists r | r in input.registeredRights :: d == Decide(env, input, profile)(r)
    {
      DecisionFor(env, input, profile, d);
    }
  }

  predicate SameElements<T(==)>(a: seq<T>, b: seq<T>) {
    (forall x | x in a :: x in b) && forall x | x in b :: x in a
  }

  /** The count and the one-way check together ask for exactly the rights of the operations. */
  lemma DecisionsFitExactly(env: Env, input: AuthorityInput, profile: Profile, operations: seq<Operation>)
    requires Distinct(IdsOf(operations)) && Distinct(Map(RightIdOf, input.registeredRights))
    ensures DecisionsFit(operations, Decisions(env, input, profile))
       <==> SameElements(input.registeredRights, Map(RightOf, operations))
  {
    var rights, wanted := input.registeredRights, Map(RightOf, operations);
    DistinctBySize(IdsOf(operations));
    EachDecisionFits(env, input, profile, operations);
    RightsDistinct(rights);
    OperationRightsDistinct(operations);
    if |rights| == |wanted| && forall r | r in rights :: r in wanted {
      SameSizeSameElements(rights, wanted);
    }
    if SameElements(rights, wanted) {
      SameElementsSameMultiset(rights, wanted);
      assert |multiset(rights)| == |rights| && |multiset(wanted)| == |wanted|;
    }
  }

  // ---------------------------------------------------------------- the object graph

  function OwnEdges(n: Node): seq<GraphEdge> {
    Map((to: string) => GraphEdge(n.id, to), n.dependsOn)
  }

  function EdgesOf(objects: seq<Node>): (edges: seq<GraphEdge>)
    ensures forall e :: e in edges <==> exists n | n in objects :: e in OwnEdges(n)
  {
    if objects == [] then []
    else
      assert objects == [objects[0]] + objects[1..];
      OwnEdges(objects[0]) + EdgesOf(objects[1..])
  }

  function EdgeText(e: GraphEdge): string {
    e.fromType + ":" + e.toType
  }

  // ---------------------------------------------------------------- the plan

  /** The contract of an operation, refused unless exactly one lookup finds it. */
  function ContractFor(resolution: Resolution, o: Operation): Option<Contract> {
    var reused := FindLast(ReusedId, resolution.reused, o.operationId);
    var unresolved := FindLast(UnresolvedId, resolution.unresolved, o.operationId);
    match (reused, unresolved)
    case (Some(r), None) => Some(Contract(o.operationId, o.objectType, o.effectClass, REUSE_REGISTERED, r.capabilityId))
    case (None, Some(u)) => Some(Contract(o.operationId, o.objectType, o.effectClass, UNRESOLVED_INTENT, u.proposalId))
    case _ => None
  }

  /** The contracts of the operations, None if one of them is refused. */
  function Contracts(resolution: Resolution, operations: seq<Operation>): Option<seq<Contract>> {
    if operations == [] then Some([])
    else
      match (Contracts(resolution, operations[..|operations| - 1]), ContractFor(resolution, operations[|operations| - 1]))
      case (Some(front), Some(c)) => Some(front + [c])
      case _ => None
  }

  function Entry(d: Decision): ProfileEntry {
    var baseline := SafeGuidedRoute(d.effectClass);
    ProfileEntry(d.rightId, d.effectClass, baseline, d.route, d.route != baseline, d.effective)
  }

  function FixtureOf(o: Operation): Fixture {
    Fixture(o.operationId, match o.effectClass
                           case READ_ONLY => READ_EXPECTATION
                           case REVERSIBLE_WRITE => REVERSIBLE_WRITE_ROLLBACK
                           case _ => EFFECT_RECOVERY_PROBE)
  }

  /** The reference is found, in a map of the contexts, to tell of rollback or safety. */
  function IsRecovery(contexts: seq<ContextEntry>): string -> bool {
    (ref: string) =>
      match FindLast(ContextIdOf, contexts, ref)
      case None => false
      case Some(x) => x.kind == ROLLBACK || x.kind == SAFETY
  }

  function RecoveryRefs(env: Env, contexts: seq<ContextEntry>, o: Operation): seq<string> {
    Sort(env.units, Filter(IsRecovery(contexts), o.contextRefs))
  }

  function RollbackOf(env: Env, contexts: seq<ContextEntry>): Operation -> RollbackEntry {
    (o: Operation) => RollbackEntry(o.operationId, o.effectClass != READ_ONLY, RecoveryRefs(env, contexts, o))
  }

  function PlanWith(env: Env, discovery: Discovery, authority: Authority, contracts: seq<Contract>, ready: bool): Plan {
    Plan(discovery.tenant, discovery.systemId, if ready then READY_FOR_QUALITY_GATE else PREPARATION_REQUIRED,
         Sort(env.locale, Map(NodeId, discovery.objects)),
         Sort(ByKey(env.locale, EdgeText), EdgesOf(discovery.objects)),
         Sort(ByKey(env.locale, ContractId), contracts),
         authority.selected,
         Sort(ByKey(env.locale, EntryId), Map(Entry, authority.decisions)),
         Sort(ByKey(env.locale, FixtureId), Map(FixtureOf, discovery.operations)),
         Sort(ByKey(env.locale, RollbackId), Map(RollbackOf(env, discovery.contexts), discovery.operations)))
  }

  function MakePlan(env: Env, discovery: Discovery, resolution: Resolution, authority: Authority): Option<Plan> {
    if !AuthorityMatches(authority, discovery) then None
    else
      match Contracts(resolution, discovery.operations)
      case None => None
      case Some(contracts) =>
        Some(PlanWith(env, discovery, authority, contracts, resolution.unresolved == []))
  }

  datatype PlanInput = PlanInput(discovery: DiscoveryInput, candidates: seq<Registration>, authority: AuthorityInput)

  ghost function Planned(env: Env, c: Catalogue, input: PlanInput): Option<Plan> {
    match Discovered(env, input.discovery)
    case None => None
    case Some(discovery) =>
      match (Resolved(env.locale, c, discovery, input.candidates), Decided(env, input.authority))
      case (Some(resolution), Some(authority)) => MakePlan(env, discovery, resolution, authority)
      case _ => None
  }

  method PlanIntegration(env: Env, c: Catalogue, input: PlanInput) returns (plan: Option<Plan>)
    ensures plan == Planned(env, c, input)
  {
    var discovery := Discover(env, input.discovery);
    if discovery.None? {
      return None;
    }
    var resolution := ResolveCapabilities(env.locale, c, discovery.value, input.candidates);
    if resolution.None? {
      return None;
    }
    var authority := Decided(env, input.authority);
    if authority.None? {
      return None;
    }
    return MakePlan(env, discovery.value, resolution.value, authority.value);
  }

  // ---------------------------------------------------------------- when a plan exists

  /** Every requested operation whose hint is registered is admitted by that registration. */
  ghost predicate HintsAdmit(input: PlanInput) {
    forall o | IsRequested(input.discovery, o) ::
      HintAdmits(input.discovery.manifest.systemType, input.candidates, o)
  }

  /** The right of a requested operation. */
  ghost predicate RequestedRight(input: DiscoveryInput, r: Right) {
    exists o :: IsRequested(input, o) && r == RightOf(o)
  }

  /** The registered rights are those of the requested operations: same ids, same effect classes. */
  ghost predicate RightsOfRequested(input: PlanInput) {
    forall r :: r in input.authority.registeredRights <==> RequestedRight(input.discovery, r)
  }

  /** Each of the three parts is accepted on its own. */
  ghost predicate PartsValid(env: Env, c: Catalogue, input: PlanInput) {
    && ValidInput(env, input.discovery) && ValidAuthority(env, input.authority)
    && ValidRegistrations(c, input.candidates) && HintsAdmit(input)
  }

  ghost predicate PartsMatch(input: PlanInput) {
    && input.authority.tenant == input.discovery.tenant && input.authority.actor == input.discovery.actor
    && RightsOfRequested(input)
  }

  ghost predicate Plannable(env: Env, c: Catalogue, input: PlanInput) {
    PartsValid(env, c, input) && PartsMatch(input)
  }

  lemma HintsAdmitDiscovered(env: Env, input: PlanInput)
    ensures HintsAdmit(input)
       <==> forall n | n in DiscoveredOperations(env, input.discovery) ::
              HintAdmits(input.discovery.manifest.systemType, input.candidates, n)
  {
    forall n | HintsAdmit(input) && n in DiscoveredOperations(env, input.discovery)
      ensures HintAdmits(input.discovery.manifest.systemType, input.candidates, n)
    {
      DiscoveredFrom(env, input.discovery, n);
    }
    forall o | IsRequested(input.discovery, o)
      ensures NormalOperation(env)(o) in DiscoveredOperations(env, input.discovery)
      ensures HintAdmits(input.discovery.manifest.systemType, input.candidates, NormalOperation(env)(o))
           == HintAdmits(input.discovery.manifest.systemType, input.candidates, o)
    {
      NormalIsDiscovered(env, input.discovery, o);
    }
  }

  lemma RightDiscovered(env: Env, input: DiscoveryInput, r: Right)
    ensures r in Map(RightOf, DiscoveredOperations(env, input)) <==> RequestedRight(input, r)
  {
    var discovered := DiscoveredOperations(env, input);
    KeyOfMember(RightOf, discovered, r);
    if n :| n in discovered && RightOf(n) == r {
      DiscoveredFrom(env, input, n);
    }
    if o :| IsRequested(input, o) && r == RightOf(o) {
      NormalIsDiscovered(env, input, o);
      assert RightOf(NormalOperation(env)(o)) == r;
    }
  }

  lemma RightsOfDiscovered(env: Env, input: PlanInput)
    ensures SameElements(input.authority.registeredRights, Map(RightOf, DiscoveredOperations(env, input.discovery)))
       <==> RightsOfRequested(input)
  {
    var wanted := Map(RightOf, DiscoveredOperations(env, input.discovery));
    forall r ensures r in wanted <==> RequestedRight(input.discovery, r) {
      RightDiscovered(env, input.discovery, r);
    }
  }

  /** What a contract should be, told by the candidates. */
  function ContractOf(env: Env, c: Catalogue, registrations: seq<Registration>): Operation -> Contract {
    (o: Operation) =>
      match Registered(registrations, o.capabilityHint)
      case Some(x) => Contract(o.operationId, o.objectType, o.effectClass, REUSE_REGISTERED, x.capabilityId)
      case None => Contract(o.operationId, o.objectType, o.effectClass, UNRESOLVED_INTENT, c.propose(o))
  }

  /** The exclusive-or refusal never fires on a resolution of the same operations. */
  lemma {:induction false} ContractsNeverRefused(env: Env, c: Catalogue, registrations: seq<Registration>,
                                                 operations: seq<Operation>, n: nat)
    requires Distinct(IdsOf(operations)) && n <= |operations|
    ensures Contracts(SortedResolution(env.locale, c.propose, registrations, operations), operations[..n])
         == Some(Map(ContractOf(env, c, registrations), operations[..n]))
  {
    if n > 0 {
      var front, o := operations[..n - 1], operations[n - 1];
      ContractsNeverRefused(env, c, registrations, operations, n - 1);
      ReusedXorUnresolved(env.locale, c.propose, registrations, operations, o);
      TakeNext(operations, n - 1);
      TakeFront(front, o);
      MapPush(ContractOf(env, c, registrations), front, o);
    }
  }

  lemma AllContracted(env: Env, c: Catalogue, registrations: seq<Registration>, operations: seq<Operation>)
    requires Distinct(IdsOf(operations))
    ensures Contracts(SortedResolution(env.locale, c.propose, registrations, operations), operations)
         == Some(Map(ContractOf(env, c, registrations), operations))
  {
    ContractsNeverRefused(env, c, registrations, operations, |operations|);
    TakeAll(operations);
  }

  lemma MatchesExactly(env: Env, input: PlanInput)
    requires ValidInput(env, input.discovery) && ValidAuthority(env, input.authority)
    ensures AuthorityMatches(Decided(env, input.authority).value, DiscoveryOf(env, input.discovery))
       <==> PartsMatch(input)
  {
    DiscoveredAreRequested(env, input.discovery);
    DecisionsFitExactly(env, input.authority, SelectProfile(input.authority.requestedProfile).value,
                        DiscoveredOperations(env, input.discovery));
    RightsOfDiscovered(env, input);
  }

  /** Making the plan refuses an authority that does not match, and nothing else. */
  lemma MadeExactly(env: Env, c: Catalogue, discovery: Discovery, registrations: seq<Registration>, authority: Authority)
    requires Distinct(IdsOf(discovery.operations))
    ensures var resolution := SortedResolution(env.locale, c.propose, registrations, discovery.operations);
      var contracts := Map(ContractOf(env, c, registrations), discovery.operations);
      MakePlan(env, discovery, resolution, authority)
        == if AuthorityMatches(authority, discovery)
           then Some(PlanWith(env, discovery, authority, contracts, resolution.unresolved == [])) else None
  {
    AllContracted(env, c, registrations, discovery.operations);
  }

  function ResolutionOf(env: Env, c: Catalogue, input: PlanInput, operations: seq<Operation>): Resolution {
    SortedResolution(env.locale, c.propose, Registrations(env.locale, input.candidates), operations)
  }

  lemma ResolvedStage(env: Env, c: Catalogue, input: PlanInput)
    requires ValidInput(env, input.discovery)
    ensures var discovery := DiscoveryOf(env, input.discovery);
      Resolved(env.locale, c, discovery, input.candidates)
        == if ValidRegistrations(c, input.candidates) && HintsAdmit(input)
           then Some(ResolutionOf(env, c, input, discovery.operations)) else None
  {
    ResolvedExactly(env.locale, c, DiscoveryOf(env, input.discovery), input.candidates);
    HintsAdmitDiscovered(env, input);
  }

  lemma PlannedStages(env: Env, c: Catalogue, input: PlanInput)
    ensures Planned(env, c, input)
         == if !PartsValid(env, c, input) then None
            else MakePlan(env, DiscoveryOf(env, input.discovery),
                          ResolutionOf(env, c, input, DiscoveredOperations(env, input.discovery)),
                          Decided(env, input.authority).value)
  {
    if ValidInput(env, input.discovery) {
      ResolvedStage(env, c, input);
    }
  }

  /** The plan of a plannable input, with its contracts told by the registrations. */
  ghost function PlanFor(env: Env, c: Catalogue, input: PlanInput): Plan
    requires ValidAuthority(env, input.authority)
  {
    var operations := DiscoveredOperations(env, input.discovery);
    PlanWith(env, DiscoveryOf(env, input.discovery), Decided(env, input.authority).value,
             Map(ContractOf(env, c, Registrations(env.locale, input.candidates)), operations),
             ResolutionOf(env, c, input, operations).unresolved == [])
  }

  /** A plan is made exactly of three valid parts that fit: the registrations named by hints are made
      for the requested operations, and the authority is for the same tenant and actor and registers
      exactly the rights of these operations. No other refusal ever fires. */
  lemma PlannedExactly(env: Env, c: Catalogue, input: PlanInput)
    ensures Planned(env, c, input) == if Plannable(env, c, input) then Some(PlanFor(env, c, input)) else None
  {
    PlannedStages(env, c, input);
    if PartsValid(env, c, input) {
      DiscoveredAreRequested(env, input.discovery);
      MatchesExactly(env, input);
      MadeExactly(env, c, DiscoveryOf(env, input.discovery), Registrations(env.locale, input.candidates),
                  Decided(env, input.authority).value);
    }
  }

  // ---------------------------------------------------------------- what a plan says

  /** A total order in which no two different identifiers tie. */
  ghost predicate OrdersIds(env: Env) {
    TotalPreorder(env.locale) && forall x, y | env.isId(x) && env.isId(y) && env.locale(x, y) && env.locale(y, x) :: x == y
  }

  lemma SortedListIds<T(!new), U(!new)>(leq: StringOrder, id: T -> string, key: U -> string, f: T -> U, s: seq<T>)
    requires forall x | x in s :: key(f(x)) == id(x)
    ensures Map(key, Sort(ByKey(leq, key), Map(f, s))) == Sort(leq, Map(id, s))
  {
    SortCommutesWithKey(leq, key, Map(f, s));
    assert Map(key, Map(f, s)) == Map(id, s);
  }

  lemma OperationLists(env: Env, c: Catalogue, discovery: Discovery, authority: Authority, registrations: seq<Registration>,
                       ready: bool)
    ensures var operations := discovery.operations;
      var plan := PlanWith(env, discovery, authority, Map(ContractOf(env, c, registrations), operations), ready);
      var ids := Sort(env.locale, IdsOf(operations));
      && Map(ContractId, plan.contracts) == ids
      && Map(FixtureId, plan.fixtures) == ids
      && Map(RollbackId, plan.rollback) == ids
  {
    var operations := discovery.operations;
    SortedListIds(env.locale, IdOf, ContractId, ContractOf(env, c, registrations), operations);
    SortedListIds(env.locale, IdOf, FixtureId, FixtureOf, operations);
    SortedListIds(env.locale, IdOf, RollbackId, RollbackOf(env, discovery.contexts), operations);
  }

  lemma EntryIds(env: Env, input: AuthorityInput, profile: Profile)
    ensures var entries := Map(Entry, Decisions(env, input, profile));
      Map(EntryId, Sort(ByKey(env.locale, EntryId), entries))
        == Sort(env.locale, Sort(env.locale, Map(RightIdOf, input.registeredRights)))
  {
    var decisions := Decisions(env, input, profile);
    DecisionIds(env, input, profile);
    SortedListIds(env.locale, DecisionId, EntryId, Entry, decisions);
  }

  lemma SortedRequested(env: Env, requested: seq<string>, ids: seq<string>)
    requires OrdersIds(env) && (forall r | r in requested :: env.isId(r)) && multiset(ids) == multiset(requested)
    ensures Sort(env.locale, ids) == Sort(env.locale, requested)
  {
    SortForgetsOrder(env.locale, requested, ids);
  }

  lemma RequestedIds(input: DiscoveryInput, id: string)
    requires Includes(IdsOf(input.manifest.operations), input.requested)
    ensures id in input.requested <==> exists r :: RequestedRight(input, r) && r.rightId == id
  {
    if id in input.requested {
      KeyOfMember(IdOf, input.manifest.operations, id);
      var o :| o in input.manifest.operations && o.operationId == id;
      assert IsRequested(input, o);
      assert RequestedRight(input, RightOf(o));
    }
  }

  lemma RightIdsAreRequested(env: Env, input: PlanInput)
    requires ValidInput(env, input.discovery) && ValidAuthority(env, input.authority) && RightsOfRequested(input)
    ensures multiset(Map(RightIdOf, input.authority.registeredRights)) == multiset(input.discovery.requested)
  {
    var rights := input.authority.registeredRights;
    forall id ensures id in Map(RightIdOf, rights) <==> id in input.discovery.requested {
      KeyOfMember(RightIdOf, rights, id);
      RequestedIds(input.discovery, id);
    }
    SameElementsSameMultiset(Map(RightIdOf, rights), input.discovery.requested);
  }

  /** Contracts, profile entries, fixtures and rollback entries are about the requested operations:
      each list has each of them once, and all four are in the same order. */
  lemma PlanListsRequested(env: Env, c: Catalogue, input: PlanInput)
    requires Plannable(env, c, input) && OrdersIds(env)
    ensures var plan, ids := PlanFor(env, c, input), Sort(env.locale, input.discovery.requested);
      && Map(ContractId, plan.contracts) == ids
      && Map(EntryId, plan.profileDiff) == ids
      && Map(FixtureId, plan.fixtures) == ids
      && Map(RollbackId, plan.rollback) == ids
  {
    var discovery, requested := DiscoveryOf(env, input.discovery), input.discovery.requested;
    var rightIds := Map(RightIdOf, input.authority.registeredRights);
    OperationLists(env, c, discovery, Decided(env, input.authority).value, Registrations(env.locale, input.candidates),
                   ResolutionOf(env, c, input, discovery.operations).unresolved == []);
    DiscoveredAreRequested(env, input.discovery);
    SortedRequested(env, requested, IdsOf(discovery.operations));
    EntryIds(env, input.authority, SelectProfile(input.authority.requestedProfile).value);
    RightIdsAreRequested(env, input);
    SortedRequested(env, requested, Sort(env.locale, rightIds));
  }

  // ---------------------------------------------------------------- contracts and status

  predicate HintRegistered(candidates: seq<Registration>, o: Operation) {
    exists x | x in candidates :: x.capabilityId == o.capabilityHint
  }

  lemma HintRegisteredExactly(env: Env, candidates: seq<Registration>, o: Operation)
    requires Distinct(Map(CapabilityIdOf, candidates))
    ensures Registered(Registrations(env.locale, candidates), o.capabilityHint).Some? <==> HintRegistered(candidates, o)
  {
    if x :| x in candidates && x.capabilityId == o.capabilityHint {
      RegisteredExactly(env.locale, candidates, o.capabilityHint, x);
    }
    match Registered(Registrations(env.locale, candidates), o.capabilityHint)
    case None =>
    case Some(x) => RegisteredExactly(env.locale, candidates, o.capabilityHint, x);
  }

  /** The contract an operation should have: the hinted capability if it is registered, else a proposal. */
  function ExpectedContract(c: Catalogue, candidates: seq<Registration>, o: Operation): Contract {
    if HintRegistered(candidates, o)
    then Contract(o.operationId, o.objectType, o.effectClass, REUSE_REGISTERED, o.capabilityHint)
    else Contract(o.operationId, o.objectType, o.effectClass, UNRESOLVED_INTENT, c.propose(o))
  }

  lemma ContractAsExpected(env: Env, c: Catalogue, candidates: seq<Registration>, o: Operation)
    requires Distinct(Map(CapabilityIdOf, candidates))
    ensures ContractOf(env, c, Registrations(env.locale, candidates))(o) == ExpectedContract(c, candidates, o)
  {
    HintRegisteredExactly(env, candidates, o);
  }

  lemma ContractsOfDiscovered(env: Env, c: Catalogue, candidates: seq<Registration>, operations: seq<Operation>, k: Contract)
    requires Distinct(Map(CapabilityIdOf, candidates))
    ensures var contract := ContractOf(env, c, Registrations(env.locale, candidates));
      (k in Sort(ByKey(env.locale, ContractId), Map(contract, operations))
       <==> exists n | n in operations :: k == ExpectedContract(c, candidates, n))
  {
    var contract := ContractOf(env, c, Registrations(env.locale, candidates));
    SortKeepsElements(ByKey(env.locale, ContractId), Map(contract, operations));
    KeyOfMember(contract, operations, k);
    forall n | n in operations ensures contract(n) == ExpectedContract(c, candidates, n) {
      ContractAsExpected(env, c, candidates, n);
    }
  }

  /** The contracts are those of the requested operations. */
  lemma PlanContracts(env: Env, c: Catalogue, input: PlanInput, k: Contract)
    requires Plannable(env, c, input)
    ensures k in PlanFor(env, c, input).contracts
       <==> exists o :: IsRequested(input.discovery, o)
                     && k == ExpectedContract(c, input.candidates, NormalOperation(env)(o))
  {
    var operations := DiscoveredOperations(env, input.discovery);
    ContractsOfDiscovered(env, c, input.candidates, operations, k);
    if n :| n in operations && k == ExpectedContract(c, input.candidates, n) {
      DiscoveredFrom(env, input.discovery, n);
    }
    if o :| IsRequested(input.discovery, o) && k == ExpectedContract(c, input.candidates, NormalOperation(env)(o)) {
      NormalIsDiscovered(env, input.discovery, o);
    }
  }

  lemma AllReusedExactly(env: Env, c: Catalogue, candidates: seq<Registration>, operations: seq<Operation>)
    requires Distinct(Map(CapabilityIdOf, candidates))
    ensures SortedResolution(env.locale, c.propose, Registrations(env.locale, candidates), operations).unresolved == []
       <==> forall n | n in operations :: HintRegistered(candidates, n)
  {
    NoneUnresolvedIff(env.locale, c.propose, Registrations(env.locale, candidates), operations);
    forall n | n in operations
      ensures Registered(Registrations(env.locale, candidates), n.capabilityHint).Some? == HintRegistered(candidates, n)
    {
      HintRegisteredExactly(env, candidates, n);
    }
  }

  lemma HintsOfDiscovered(env: Env, candidates: seq<Registration>, input: DiscoveryInput)
    ensures (forall n | n in DiscoveredOperations(env, input) :: HintRegistered(candidates, n))
       <==> forall o | IsRequested(input, o) :: HintRegistered(candidates, o)
  {
    forall n | n in DiscoveredOperations(env, input)
      ensures exists o :: IsRequested(input, o) && n == NormalOperation(env)(o)
    {
      DiscoveredFrom(env, input, n);
    }
    forall o | IsRequested(input, o) ensures NormalOperation(env)(o) in DiscoveredOperations(env, input) {
      NormalIsDiscovered(env, input, o);
    }
  }

  /** A plan is ready exactly when every requested operation reuses a registered capability. */
  lemma PlanReadyExactly(env: Env, c: Catalogue, input: PlanInput)
    requires Plannable(env, c, input)
    ensures PlanFor(env, c, input).status == READY_FOR_QUALITY_GATE
       <==> forall o | IsRequested(input.discovery, o) :: HintRegistered(input.candidates, o)
  {
    AllReusedExactly(env, c, input.candidates, DiscoveredOperations(env, input.discovery));
    HintsOfDiscovered(env, input.candidates, input.discovery);
  }

  // ---------------------------------------------------------------- profile entries

  /** The entry tells of a registered right whether all four ceilings have it and which route it takes. */
  predicate EntryFits(input: AuthorityInput, e: ProfileEntry) {
    var right := Right(e.rightId, e.effectClass);
    && right in input.registeredRights
    && (e.effective <==> Effective(input, e.rightId))
    && (e.selectedRoute == DENY <==> !e.effective)
    && (e.selectedRoute == AUTO_EXECUTE <==> Automatic(input, right))
    && (e.changedFromSafeGuided <==> e.selectedRoute != SafeGuidedRoute(e.effectClass))
  }

  lemma EntryOfDecision(env: Env, input: AuthorityInput, d: Decision)
    requires ValidAuthority(env, input) && d in Decisions(env, input, SelectProfile(input.requestedProfile).value)
    ensures EntryFits(input, Entry(d))
  {
    var profile := SelectProfile(input.requestedProfile).value;
    DecisionFor(env, input, profile, d);
    var right :| right in input.registeredRights && d == Decide(env, input, profile)(right);
    DecisionExactly(env, input, right);
  }

  lemma EntryListed(env: Env, input: AuthorityInput, right: Right) returns (e: ProfileEntry)
    requires ValidAuthority(env, input) && right in input.registeredRights
    ensures var decisions := Decisions(env, input, SelectProfile(input.requestedProfile).value);
      e in Sort(ByKey(env.locale, EntryId), Map(Entry, decisions))
    ensures EntryFits(input, e) && Right(e.rightId, e.effectClass) == right
  {
    var profile := SelectProfile(input.requestedProfile).value;
    var decisions, d := Decisions(env, input, profile), Decide(env, input, profile)(right);
    DecisionFor(env, input, profile, d);
    e := Entry(d);
    KeyOfMember(Entry, decisions, e);
    SortKeepsElements(ByKey(env.locale, EntryId), Map(Entry, decisions));
    EntryOfDecision(env, input, d);
  }

  /** The profile entries say what the authority input says, and every registered right has one. */
  lemma PlanEntries(env: Env, c: Catalogue, input: PlanInput, e: ProfileEntry, right: Right)
    requires Plannable(env, c, input)
    ensures e in PlanFor(env, c, input).profileDiff ==> EntryFits(input.authority, e)
    ensures right in input.authority.registeredRights
        ==> exists x | x in PlanFor(env, c, input).profileDiff ::
              EntryFits(input.authority, x) && Right(x.rightId, x.effectClass) == right
  {
    if e in PlanFor(env, c, input).profileDiff {
      var decisions := Decisions(env, input.authority, SelectProfile(input.authority.requestedProfile).value);
      SortKeepsElements(ByKey(env.locale, EntryId), Map(Entry, decisions));
      KeyOfMember(Entry, decisions, e);
      var d :| d in decisions && Entry(d) == e;
      EntryOfDecision(env, input.authority, d);
    }
    if right in input.authority.registeredRights {
      var x := EntryListed(env, input.authority, right);
    }
  }

  // ---------------------------------------------------------------- the planned graph

  lemma PlanNodes(env: Env, input: DiscoveryInput, t: string)
    requires ValidInput(env, input)
    ensures t in Sort(env.locale, Map(NodeId, DiscoveryOf(env, input).objects))
       <==> Needed(ById(input.manifest.objects), RequestedTypes(input), t)
  {
    SortKeepsElements(env.locale, Map(NodeId, DiscoveryOf(env, input).objects));
    DiscoveredTypesExactly(env, input, t);
  }

  /** The nodes of a plan are the types needed for the requested operations in the declared graph, and
      its edges all the declared edges that start at a node; so both ends of an edge are nodes. */
  lemma PlanGraphExactly(env: Env, c: Catalogue, input: PlanInput, t: string, e: GraphEdge)
    requires Plannable(env, c, input)
    ensures var plan, declared := PlanFor(env, c, input), ById(input.discovery.manifest.objects);
      && (t in plan.nodes <==> Needed(declared, RequestedTypes(input.discovery), t))
      && (e in plan.edges <==> e.fromType in plan.nodes && Edge(declared, e.fromType, e.toType))
      && (e in plan.edges ==> e.toType in plan.nodes)
  {
    PlanNodes(env, input.discovery, t);
    PlanNodes(env, input.discovery, e.fromType);
    PlanNodes(env, input.discovery, e.toType);
    PlanEdges(env, input.discovery, e);
    if e in PlanFor(env, c, input).edges {
      NeededStep(ById(input.discovery.manifest.objects), RequestedTypes(input.discovery), e.fromType, e.toType);
    }
  }

  lemma PlanEdges(env: Env, input: DiscoveryInput, e: GraphEdge)
    requires ValidInput(env, input)
    ensures e in Sort(ByKey(env.locale, EdgeText), EdgesOf(DiscoveryOf(env, input).objects))
       <==> && Needed(ById(input.manifest.objects), RequestedTypes(input), e.fromType)
            && Edge(ById(input.manifest.objects), e.fromType, e.toType)
  {
    var objects := DiscoveryOf(env, input).objects;
    SortKeepsElements(ByKey(env.locale, EdgeText), EdgesOf(objects));
    DiscoveredEdgesExactly(env, input, e.fromType, e.toType);
    forall n | n in objects ensures e in OwnEdges(n) <==> n.id == e.fromType && e.toType in n.dependsOn {
      KeyOfMember((to: string) => GraphEdge(n.id, to), n.dependsOn, e);
    }
  }

  // ---------------------------------------------------------------- rollback entries

  lemma ContextKept(env: Env, input: DiscoveryInput, o: Operation, x: ContextEntry)
    requires o in DiscoveredOperations(env, input) && x in input.contexts && x.contextId in o.contextRefs
    requires Distinct(Map(ContextIdOf, input.contexts))
    ensures FindLast(ContextIdOf, DiscoveryOf(env, input).contexts, x.contextId) == Some(x)
  {
    var contexts := DiscoveryOf(env, input).contexts;
    SortKeepsElements(ByKey(env.locale, ContextIdOf), input.contexts);
    assert x in contexts;
    var found := FindLast(ContextIdOf, contexts, x.contextId).value;
    SameKeySame(ContextIdOf, input.contexts, found, x);
  }

  lemma RecoveryRefsAreRefs(env: Env, contexts: seq<ContextEntry>, o: Operation)
    ensures forall r | r in RecoveryRefs(env, contexts, o) :: r in o.contextRefs
  {
    SortKeepsElements(env.units, Filter(IsRecovery(contexts), o.contextRefs));
  }

  lemma RecoveryRef(env: Env, contexts: seq<ContextEntry>, o: Operation, x: ContextEntry)
    requires x.contextId in o.contextRefs ==> FindLast(ContextIdOf, contexts, x.contextId) == Some(x)
    ensures x.contextId in RecoveryRefs(env, contexts, o) <==> x.contextId in o.contextRefs && x.kind != CAUSE_EFFECT
  {
    SortKeepsElements(env.units, Filter(IsRecovery(contexts), o.contextRefs));
  }

  /** The recovery references of an operation are its references to the declared contexts that do not
      tell of causes and effects. */
  lemma RecoveryRefsExactly(env: Env, input: DiscoveryInput, o: Operation, x: ContextEntry)
    requires ValidInput(env, input) && o in DiscoveredOperations(env, input) && x in input.contexts
    ensures x.contextId in RecoveryRefs(env, DiscoveryOf(env, input).contexts, o)
       <==> x.contextId in o.contextRefs && x.kind != CAUSE_EFFECT
  {
    if x.contextId in o.contextRefs {
      ContextKept(env, input, o, x);
    }
    RecoveryRef(env, DiscoveryOf(env, input).contexts, o, x);
  }

  /** The rollback entry of an operation: needed unless it only reads, with the references to recovery. */
  predicate RollbackFits(contexts: seq<ContextEntry>, o: Operation, e: RollbackEntry) {
    && e.operationId == o.operationId
    && (e.requiredBeforeActivation <==> o.effectClass != READ_ONLY)
    && (forall r | r in e.contextRefs :: r in o.contextRefs)
    && forall x | x in contexts :: x.contextId in e.contextRefs <==> x.contextId in o.contextRefs && x.kind != CAUSE_EFFECT
  }

  lemma RollbackOfFits(env: Env, input: DiscoveryInput, o: Operation)
    requires ValidInput(env, input) && IsRequested(input, o)
    ensures RollbackFits(input.contexts, o, RollbackOf(env, DiscoveryOf(env, input).contexts)(NormalOperation(env)(o)))
  {
    var n := NormalOperation(env)(o);
    NormalIsDiscovered(env, input, o);
    SortKeepsElements(env.units, o.contextRefs);
    RecoveryRefsAreRefs(env, DiscoveryOf(env, input).contexts, n);
    forall x | x in input.contexts
      ensures x.contextId in RecoveryRefs(env, DiscoveryOf(env, input).contexts, n)
         <==> x.contextId in o.contextRefs && x.kind != CAUSE_EFFECT
    {
      RecoveryRefsExactly(env, input, n, x);
    }
  }

  lemma RollbackListed(env: Env, input: DiscoveryInput, e: RollbackEntry) returns (o: Operation)
    requires ValidInput(env, input)
    requires var discovery := DiscoveryOf(env, input);
      e in Sort(ByKey(env.locale, RollbackId), Map(RollbackOf(env, discovery.contexts), discovery.operations))
    ensures IsRequested(input, o) && RollbackFits(input.contexts, o, e)
  {
    var discovery := DiscoveryOf(env, input);
    var entry := RollbackOf(env, discovery.contexts);
    SortKeepsElements(ByKey(env.locale, RollbackId), Map(entry, discovery.operations));
    KeyOfMember(entry, discovery.operations, e);
    var n :| n in discovery.operations && entry(n) == e;
    DiscoveredFrom(env, input, n);
    o :| IsRequested(input, o) && n == NormalOperation(env)(o);
    RollbackOfFits(env, input, o);
  }

  lemma RollbackFound(env: Env, input: DiscoveryInput, o: Operation) returns (e: RollbackEntry)
    requires ValidInput(env, input) && IsRequested(input, o)
    ensures var discovery := DiscoveryOf(env, input);
      e in Sort(ByKey(env.locale, RollbackId), Map(RollbackOf(env, discovery.contexts), discovery.operations))
    ensures RollbackFits(input.contexts, o, e)
  {
    var discovery := DiscoveryOf(env, input);
    var entry := RollbackOf(env, discovery.contexts);
    e := entry(NormalOperation(env)(o));
    NormalIsDiscovered(env, input, o);
    KeyOfMember(entry, discovery.operations, e);
    SortKeepsElements(ByKey(env.locale, RollbackId), Map(entry, discovery.operations));
    RollbackOfFits(env, input, o);
  }

  /** Every rollback entry is that of a requested operation, and every requested operation has one:
      required unless the operation only reads, and with exactly those of its references that name a
      declared context about rollback or safety. */
  lemma PlanRollback(env: Env, c: Catalogue, input: PlanInput, e: RollbackEntry, o: Operation)
    requires Plannable(env, c, input)
    ensures e in PlanFor(env, c, input).rollback
        ==> exists x :: IsRequested(input.discovery, x) && RollbackFits(input.discovery.contexts, x, e)
    ensures IsRequested(input.discovery, o)
        ==> exists x | x in PlanFor(env, c, input).rollback :: RollbackFits(input.discovery.contexts, o, x)
  {
    if e in PlanFor(env, c, input).rollback {
      var x := RollbackListed(env, input.discovery, e);
    }
    if IsRequested(input.discovery, o) {
      var x := RollbackFound(env, input.discovery, o);
    }
  }
}
