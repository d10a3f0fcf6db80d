/** Discovery of a described system: a described machine, its guides and a request give the requested
    operations, the objects these need and the guides and contexts that cover them. */
module BuilderIntake {
  import opened Sequences
  import opened Sorting
  import opened Graphs
  import opened BuilderDiscovery
  import opened Options

  datatype EffectClass = READ_ONLY | REVERSIBLE_WRITE | IRREVERSIBLE_EFFECT | INSTALL_ACTIVATE | PUBLICATION

  datatype Operation = Operation(operationId: string, objectType: string, effectClass: EffectClass,
                                 reversible: bool, contextRefs: seq<string>, capabilityHint: string)

  datatype ContextKind = CAUSE_EFFECT | SAFETY | ROLLBACK

  datatype ContextEntry = ContextEntry(contextId: string, kind: ContextKind, sourceRef: string)

  datatype Guide = Guide(guideId: string, systemType: string, operationRefs: seq<string>, contextRefs: seq<string>)

  /** An object of a machine is a node: its type and the types it depends on. */
  datatype Manifest = Manifest(tenant: string, manifestId: string, systemId: string, systemType: string,
                               objects: seq<Node>, operations: seq<Operation>)

  datatype DiscoveryInput = DiscoveryInput(tenant: string, actor: string, requested: seq<string>, manifest: Manifest,
                                           guides: seq<Guide>, contexts: seq<ContextEntry>)

  datatype Discovery = Discovery(tenant: string, actor: string, manifestId: string, systemId: string,
                                 systemType: string, requested: seq<string>, objects: seq<Node>,
                                 operations: seq<Operation>, guides: seq<Guide>, contexts: seq<ContextEntry>)

  type StringOrder = (string, string) -> bool

  /** The identifier pattern, the locale order of the lists and the code unit order of references. */
  datatype Env = Env(isId: string -> bool, locale: StringOrder, units: StringOrder)

  function IdOf(o: Operation): string { o.operationId }

  function TypeOf(o: Operation): string { o.objectType }

  function NodeId(n: Node): string { n.id }

  function ContextIdOf(c: ContextEntry): string { c.contextId }

  function GuideIdOf(g: Guide): string { g.guideId }

  // ---------------------------------------------------------------- validation

  const MAX_REFERENCES := 32

  /** A list of at least minimum and at most 32 different identifiers. */
  predicate References(env: Env, refs: seq<string>, minimum: nat) {
    && minimum <= |refs| <= MAX_REFERENCES
    && (forall r | r in refs :: env.isId(r))
    && Distinct(refs)
  }

  predicate Includes(all: seq<string>, some: seq<string>) {
    forall x | x in some :: x in all
  }

  predicate ReversibilityAgrees(o: Operation) {
    match o.effectClass
    case REVERSIBLE_WRITE => o.reversible
    case INSTALL_ACTIVATE => true
    case _ => !o.reversible
  }

  predicate ValidObjects(env: Env, objects: seq<Node>) {
    && 1 <= |objects| <= 64
    && (forall n | n in objects :: env.isId(n.id) && References(env, n.dependsOn, 0))
    && ClosedObjects(objects)
  }

  /** Types are different, and what an object depends on is among them. */
  predicate ClosedObjects(objects: seq<Node>) {
    var types := Map(NodeId, objects);
    Distinct(types) && forall n | n in objects :: Includes(types, n.dependsOn)
  }

  predicate ValidOperation(env: Env, types: seq<string>, o: Operation) {
    && env.isId(o.operationId) && o.objectType in types && env.isId(o.capabilityHint)
    && ReversibilityAgrees(o)
    && References(env, o.contextRefs, 1)
  }

  predicate ValidOperations(env: Env, types: seq<string>, operations: seq<Operation>) {
    && 1 <= |operations| <= 64
    && (forall o | o in operations :: ValidOperation(env, types, o))
    && Distinct(Map(IdOf, operations))
  }

  predicate ValidManifest(env: Env, tenant: string, m: Manifest) {
    && env.isId(m.manifestId) && m.tenant == tenant && env.isId(m.systemId) && env.isId(m.systemType)
    && ValidObjects(env, m.objects)
    && ValidOperations(env, Map(NodeId, m.objects), m.operations)
  }

  predicate ValidContexts(env: Env, m: Manifest, guideIds: seq<string>, contexts: seq<ContextEntry>) {
    && 1 <= |contexts| <= 128
    && (forall c | c in contexts :: env.isId(c.contextId) && env.isId(c.sourceRef))
    && Distinct(Map(ContextIdOf, contexts))
    && (forall o | o in m.operations :: Includes(Map(ContextIdOf, contexts), o.contextRefs))
    && forall c | c in contexts :: c.sourceRef == m.manifestId || c.sourceRef in guideIds
  }

  predicate ValidGuide(env: Env, m: Manifest, contextIds: seq<string>, g: Guide) {
    && env.isId(g.guideId) && g.systemType == m.systemType
    && References(env, g.operationRefs, 1) && Includes(Map(IdOf, m.operations), g.operationRefs)
    && References(env, g.contextRefs, 1) && Includes(contextIds, g.contextRefs)
  }

  predicate ValidGuides(env: Env, m: Manifest, contextIds: seq<string>, guides: seq<Guide>) {
    && 1 <= |guides| <= 32
    && (forall g | g in guides :: ValidGuide(env, m, contextIds, g))
    && Distinct(Map(GuideIdOf, guides))
  }

  /** Every requested operation is known and covered by one guide that also covers its context. */
  predicate ValidRequest(env: Env, m: Manifest, guides: seq<Guide>, requested: seq<string>) {
    && References(env, requested, 1) && Includes(Map(IdOf, m.operations), requested)
    && forall o | o in m.operations && o.operationId in requested ::
         exists g | g in guides :: o.operationId in g.operationRefs && Includes(g.contextRefs, o.contextRefs)
  }

  predicate ValidInput(env: Env, input: DiscoveryInput) {
    && env.isId(input.tenant) && env.isId(input.actor)
    && ValidManifest(env, input.tenant, input.manifest)
    && ValidContexts(env, input.manifest, Map(GuideIdOf, input.guides), input.contexts)
    && ValidGuides(env, input.manifest, Map(ContextIdOf, input.contexts), input.guides)
    && ValidRequest(env, input.manifest, input.guides, input.requested)
  }

  // ---------------------------------------------------------------- the record

  /** Lists sorted by identifier, with the references in each of them sorted too. */
  function NormalNode(env: Env): Node -> Node {
    (n: Node) => n.(dependsOn := Sort(env.units, n.dependsOn))
  }

  function NormalObjects(env: Env, objects: seq<Node>): seq<Node> {
    Sort(ByKey(env.locale, NodeId), Map(NormalNode(env), objects))
  }

  function NormalOperation(env: Env): Operation -> Operation {
    (o: Operation) => o.(contextRefs := Sort(env.units, o.contextRefs))
  }

  function NormalOperations(env: Env, operations: seq<Operation>): seq<Operation> {
    Sort(ByKey(env.locale, IdOf), Map(NormalOperation(env), operations))
  }

  function NormalGuide(env: Env): Guide -> Guide {
    (g: Guide) => g.(operationRefs := Sort(env.units, g.operationRefs), contextRefs := Sort(env.units, g.contextRefs))
  }

  function NormalGuides(env: Env, guides: seq<Guide>): seq<Guide> {
    Sort(ByKey(env.locale, GuideIdOf), Map(NormalGuide(env), guides))
  }

  function Requested(requested: seq<string>): Operation -> bool {
    (o: Operation) => o.operationId in requested
  }

  function Guiding(requested: seq<string>): Guide -> bool {
    (g: Guide) => exists r | r in g.operationRefs :: r in requested
  }

  function UsedBy(operations: seq<Operation>): ContextEntry -> bool {
    (c: ContextEntry) => exists o | o in operations :: c.contextId in o.contextRefs
  }

  /** The objects needed for the seed types; the edges of the graph tell what is needed. */
  ghost function NeededObjects(objects: seq<Node>, seed: seq<string>): seq<Node> {
    Filter((n: Node) => Needed(ById(objects), seed, n.id), objects)
  }

  function DiscoveredOperations(env: Env, input: DiscoveryInput): seq<Operation> {
    Filter(Requested(input.requested), NormalOperations(env, input.manifest.operations))
  }

  /** The record of a valid input, with what is needed told by paths and not by the search. */
  ghost function DiscoveryOf(env: Env, input: DiscoveryInput): Discovery {
    var m := input.manifest;
    var operations := DiscoveredOperations(env, input);
    Discovery(input.tenant, input.actor, m.manifestId, m.systemId, m.systemType, Sort(env.units, input.requested),
              NeededObjects(NormalObjects(env, m.objects), Map(TypeOf, operations)), operations,
              Filter(Guiding(input.requested), NormalGuides(env, input.guides)),
              Filter(UsedBy(operations), Sort(ByKey(env.locale, ContextIdOf), input.contexts)))
  }

  ghost function Discovered(env: Env, input: DiscoveryInput): Option<Discovery> {
    if ValidInput(env, input) then Some(DiscoveryOf(env, input)) else None
  }

  method Discover(env: Env, input: DiscoveryInput) returns (r: Option<Discovery>)
    ensures r == Discovered(env, input)
  {
    if !ValidInput(env, input) {
      return None;
    }
    var m := input.manifest;
    var objects := NormalObjects(env, m.objects);
    var operations := DiscoveredOperations(env, input);
    var selected := DependencyClosure(Map(TypeOf, operations), objects);
    SameFilter((n: Node) => n.id in selected, (n: Node) => Needed(ById(objects), Map(TypeOf, operations), n.id), objects);
    return Some(Discovery(input.tenant, input.actor, m.manifestId, m.systemId, m.systemType,
                          Sort(env.units, input.requested), Filter((n: Node) => n.id in selected, objects), operations,
                          Filter(Guiding(input.requested), NormalGuides(env, input.guides)),
                          Filter(UsedBy(operations), Sort(ByKey(env.locale, ContextIdOf), input.contexts))));
  }

  // ---------------------------------------------------------------- the operations discovered

  lemma {:induction false} FilterKeepsDistinct<T(!new)>(key: T -> string, keep: T -> bool, s: seq<T>)
    requires Distinct(Map(key, s))
    ensures Distinct(Map(key, Filter(keep, s)))
  {
    if s != [] {
      var front, last := s[..|s| - 1], s[|s| - 1];
      var kept := Filter(keep, front);
      SplitLast(s);
      MapPush(key, front, last);
      DistinctPush(Map(key, front), key(last));
      FilterKeepsDistinct(key, keep, front);
      if keep(last) {
        KeyOfMember(key, kept, key(last));
        KeyOfMember(key, front, key(last));
        MapPush(key, kept, last);
        DistinctPush(Map(key, kept), key(last));
      } else {
        assert kept + [] == kept;
      }
    }
  }

  lemma SameKeySame<T(!new)>(key: T -> string, s: seq<T>, x: T, y: T)
    requires Distinct(Map(key, s)) && x in s && y in s && key(x) == key(y)
    ensures x == y
  {
    var i :| 0 <= i < |s| && s[i] == x;
    var j :| 0 <= j < |s| && s[j] == y;
    assert Map(key, s)[i] == Map(key, s)[j];
  }

  lemma SortKeepsIdsDistinct<T>(leq: StringOrder, key: T -> string, s: seq<T>)
    requires Distinct(Map(key, s))
    ensures Distinct(Map(key, Sort(ByKey(leq, key), s)))
  {
    SortCommutesWithKey(leq, key, s);
    DistinctSurvivesPermutation(Map(key, s), Sort(leq, Map(key, s)));
  }

  lemma NormalOperationIds(env: Env, operations: seq<Operation>)
    ensures Map(IdOf, NormalOperations(env, operations)) == Sort(env.locale, Map(IdOf, operations))
  {
    var normal := Map(NormalOperation(env), operations);
    SortCommutesWithKey(env.locale, IdOf, normal);
    assert Map(IdOf, normal) == Map(IdOf, operations);
  }

  /** The operations discovered are the requested ones, each once. */
  lemma DiscoveredAreRequested(env: Env, input: DiscoveryInput)
    requires ValidInput(env, input)
    ensures var ids := Map(IdOf, DiscoveredOperations(env, input));
      Distinct(ids) && multiset(ids) == multiset(input.requested)
  {
    var all := input.manifest.operations;
    var normal := NormalOperations(env, all);
    var found := DiscoveredOperations(env, input);
    NormalOperationIds(env, all);
    DistinctSurvivesPermutation(Map(IdOf, all), Sort(env.locale, Map(IdOf, all)));
    FilterKeepsDistinct(IdOf, Requested(input.requested), normal);
    SortKeepsElements(env.locale, Map(IdOf, all));
    forall id ensures id in Map(IdOf, found) <==> id in input.requested {
      KeyOfMember(IdOf, found, id);
      KeyOfMember(IdOf, normal, id);
    }
    SameElementsSameMultiset(Map(IdOf, found), input.requested);
  }

  predicate IsRequested(input: DiscoveryInput, o: Operation) {
    o in input.manifest.operations && o.operationId in input.requested
  }

  /** A discovered operation is a requested one with its references sorted. */
  lemma DiscoveredFrom(env: Env, input: DiscoveryInput, n: Operation)
    ensures n in DiscoveredOperations(env, input) <==> exists o :: IsRequested(input, o) && n == NormalOperation(env)(o)
  {
    var normal := Map(NormalOperation(env), input.manifest.operations);
    SortKeepsElements(ByKey(env.locale, IdOf), normal);
    KeyOfMember(NormalOperation(env), input.manifest.operations, n);
  }

  lemma NormalIsDiscovered(env: Env, input: DiscoveryInput, o: Operation)
    requires IsRequested(input, o)
    ensures NormalOperation(env)(o) in DiscoveredOperations(env, input)
  {
    DiscoveredFrom(env, input, NormalOperation(env)(o));
  }

  // ---------------------------------------------------------------- the objects discovered

  lemma NormalObjectIds(env: Env, objects: seq<Node>)
    ensures Map(NodeId, NormalObjects(env, objects)) == Sort(env.locale, Map(NodeId, objects))
  {
    var normal := Map(NormalNode(env), objects);
    SortCommutesWithKey(env.locale, NodeId, normal);
    assert Map(NodeId, normal) == Map(NodeId, objects);
  }

  lemma NodesAreUnique(objects: seq<Node>)
    requires Distinct(Map(NodeId, objects))
    ensures UniqueIds(objects)
  {
    forall i, j | 0 <= i < j < |objects| ensures objects[i].id != objects[j].id {
      assert Map(NodeId, objects)[i] != Map(NodeId, objects)[j];
    }
  }

  lemma EdgeDeclared(objects: seq<Node>, from: string, to: string)
    requires UniqueIds(objects)
    ensures Edge(ById(objects), from, to) <==> exists n | n in objects :: n.id == from && to in n.dependsOn
  {
    if Edge(ById(objects), from, to) {
      var k :| 0 <= k < |objects| && objects[k].id == from;
      LookupNode(objects, k);
      assert objects[k] in objects;
    }
    if n :| n in objects && n.id == from && to in n.dependsOn {
      var k :| 0 <= k < |objects| && objects[k] == n;
      LookupNode(objects, k);
    }
  }

  lemma NormalObjectFrom(env: Env, objects: seq<Node>, n: Node)
    ensures n in NormalObjects(env, objects) <==> exists o | o in objects :: n == NormalNode(env)(o)
  {
    SortKeepsElements(ByKey(env.locale, NodeId), Map(NormalNode(env), objects));
    KeyOfMember(NormalNode(env), objects, n);
  }

  lemma NormalDependency(env: Env, objects: seq<Node>, from: string, to: string)
    ensures (exists n | n in NormalObjects(env, objects) :: n.id == from && to in n.dependsOn)
       <==> exists o | o in objects :: o.id == from && to in o.dependsOn
  {
    if n :| n in NormalObjects(env, objects) && n.id == from && to in n.dependsOn {
      NormalObjectFrom(env, objects, n);
      var o :| o in objects && n == NormalNode(env)(o);
      SortKeepsElements(env.units, o.dependsOn);
    }
    if o :| o in objects && o.id == from && to in o.dependsOn {
      NormalObjectFrom(env, objects, NormalNode(env)(o));
      SortKeepsElements(env.units, o.dependsOn);
    }
  }

  /** Sorting the objects and their dependencies keeps the edges of the graph. */
  lemma NormalEdges(env: Env, objects: seq<Node>, from: string, to: string)
    requires Distinct(Map(NodeId, objects))
    ensures Edge(ById(NormalObjects(env, objects)), from, to) <==> Edge(ById(objects), from, to)
  {
    NormalObjectIds(env, objects);
    DistinctSurvivesPermutation(Map(NodeId, objects), Map(NodeId, NormalObjects(env, objects)));
    NodesAreUnique(objects);
    NodesAreUnique(NormalObjects(env, objects));
    EdgeDeclared(objects, from, to);
    EdgeDeclared(NormalObjects(env, objects), from, to);
    NormalDependency(env, objects, from, to);
  }

  lemma SameEdgesSamePaths(g: Graph, h: Graph, a: string, b: string)
    requires forall x, y :: Edge(g, x, y) <==> Edge(h, x, y)
    ensures Leads(g, a, b) <==> Leads(h, a, b)
  {
    if p :| PathFrom(g, p, a, b) {
      assert PathFrom(h, p, a, b);
    }
    if p :| PathFrom(h, p, a, b) {
      assert PathFrom(g, p, a, b);
    }
  }

  lemma SameNeeded(g: Graph, h: Graph, seed: seq<string>, other: seq<string>, t: string)
    requires forall x, y :: Edge(g, x, y) <==> Edge(h, x, y)
    requires forall s :: s in seed <==> s in other
    ensures Needed(g, seed, t) <==> Needed(h, other, t)
  {
    forall s ensures Leads(g, s, t) <==> Leads(h, s, t) {
      SameEdgesSamePaths(g, h, s, t);
    }
  }

  /** What is needed is declared. */
  lemma NeededIsDeclared(objects: seq<Node>, seed: seq<string>, t: string)
    requires ClosedObjects(objects) && Includes(Map(NodeId, objects), seed) && Needed(ById(objects), seed, t)
    ensures t in Map(NodeId, objects)
  {
    if t !in seed {
      var s :| s in seed && Leads(ById(objects), s, t);
      var p :| PathFrom(ById(objects), p, s, t);
      assert Edge(ById(objects), p[|p| - 2], p[|p| - 1]);
      NodesAreUnique(objects);
      EdgeDeclared(objects, p[|p| - 2], t);
    }
  }

  /** The types of the requested operations. */
  function RequestedTypes(input: DiscoveryInput): seq<string> {
    Map(TypeOf, Filter(Requested(input.requested), input.manifest.operations))
  }

  lemma SeedsAgree(env: Env, input: DiscoveryInput, t: string)
    ensures t in Map(TypeOf, DiscoveredOperations(env, input)) <==> t in RequestedTypes(input)
  {
    var found, requested := DiscoveredOperations(env, input), Filter(Requested(input.requested), input.manifest.operations);
    KeyOfMember(TypeOf, found, t);
    KeyOfMember(TypeOf, requested, t);
    forall n | n in found ensures exists o :: o in requested && n == NormalOperation(env)(o) {
      DiscoveredFrom(env, input, n);
      var o :| IsRequested(input, o) && n == NormalOperation(env)(o);
    }
    forall o | o in requested ensures NormalOperation(env)(o) in found {
      NormalIsDiscovered(env, input, o);
    }
  }

  /** What is needed does not depend on the order the input came in. */
  lemma NormalNeeded(env: Env, input: DiscoveryInput, t: string)
    requires ValidInput(env, input)
    ensures Needed(ById(NormalObjects(env, input.manifest.objects)), Map(TypeOf, DiscoveredOperations(env, input)), t)
       <==> Needed(ById(input.manifest.objects), RequestedTypes(input), t)
  {
    var objects := input.manifest.objects;
    forall x, y ensures Edge(ById(NormalObjects(env, objects)), x, y) <==> Edge(ById(objects), x, y) {
      NormalEdges(env, objects, x, y);
    }
    forall s ensures s in Map(TypeOf, DiscoveredOperations(env, input)) <==> s in RequestedTypes(input) {
      SeedsAgree(env, input, s);
    }
    SameNeeded(ById(NormalObjects(env, objects)), ById(objects), Map(TypeOf, DiscoveredOperations(env, input)),
               RequestedTypes(input), t);
  }

  lemma RequestedTypesDeclared(env: Env, input: DiscoveryInput)
    requires ValidInput(env, input)
    ensures Includes(Map(NodeId, input.manifest.objects), RequestedTypes(input))
  {
    forall t | t in RequestedTypes(input) ensures t in Map(NodeId, input.manifest.objects) {
      KeyOfMember(TypeOf, Filter(Requested(input.requested), input.manifest.operations), t);
    }
  }

  /** The objects discovered have exactly the types needed in the declared graph. */
  lemma DiscoveredTypesExactly(env: Env, input: DiscoveryInput, t: string)
    requires ValidInput(env, input)
    ensures t in Map(NodeId, DiscoveryOf(env, input).objects)
       <==> Needed(ById(input.manifest.objects), RequestedTypes(input), t)
  {
    var objects, normal := input.manifest.objects, NormalObjects(env, input.manifest.objects);
    KeyOfMember(NodeId, DiscoveryOf(env, input).objects, t);
    NormalNeeded(env, input, t);
    if Needed(ById(objects), RequestedTypes(input), t) {
      RequestedTypesDeclared(env, input);
      NeededIsDeclared(objects, RequestedTypes(input), t);
      NormalObjectIds(env, objects);
      SortKeepsElements(env.locale, Map(NodeId, objects));
      KeyOfMember(NodeId, normal, t);
    }
  }

  /** The dependencies of the objects discovered are the declared ones. */
  lemma DiscoveredEdgesExactly(env: Env, input: DiscoveryInput, from: string, to: string)
    requires ValidInput(env, input)
    ensures (exists n | n in DiscoveryOf(env, input).objects :: n.id == from && to in n.dependsOn)
       <==> Needed(ById(input.manifest.objects), RequestedTypes(input), from) && Edge(ById(input.manifest.objects), from, to)
  {
    var objects, normal := input.manifest.objects, NormalObjects(env, input.manifest.objects);
    NormalNeeded(env, input, from);
    NormalEdges(env, objects, from, to);
    SortKeepsIdsDistinct(env.locale, NodeId, Map(NormalNode(env), objects));
    NodesAreUnique(normal);
    EdgeDeclared(normal, from, to);
  }
}
