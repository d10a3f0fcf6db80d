/** Resolution of capabilities: every discovered operation reuses the registered capability its hint
    names or stays an unresolved intent, and a hint naming a capability not made for it refuses. */
module BuilderResolution {
  import opened Options
  import opened Sequences
  import opened Sorting
  import opened BuilderIntake

  datatype Registration = Registration(capabilityId: string, systemTypes: seq<string>, operationIds: seq<string>,
                                       effectClasses: seq<EffectClass>, descriptorDigest: string)

  /** Whether a registration has the registered shape, and the proposal made for an unresolved operation. */
  datatype Catalogue = Catalogue(fits: Registration -> bool, propose: Operation -> string)

  datatype Reused = Reused(operationId: string, capabilityId: string, descriptorDigest: string)

  datatype Unresolved = Unresolved(operationId: string, capabilityHint: string, effectClass: EffectClass,
                                   proposalId: string)

  datatype Resolution = Resolution(reused: seq<Reused>, unresolved: seq<Unresolved>)

  function CapabilityIdOf(r: Registration): string { r.capabilityId }

  function ReusedId(r: Reused): string { r.operationId }

  function UnresolvedId(u: Unresolved): string { u.operationId }

  /** The registration of a capability, looked up in a map built from the list. */
  function Registered(registrations: seq<Registration>, capabilityId: string): (r: Option<Registration>)
    ensures r.Some? ==> r.value in registrations && r.value.capabilityId == capabilityId
    ensures r.None? ==> forall x | x in registrations :: x.capabilityId != capabilityId
  {
    if registrations == [] then None
    else if registrations[|registrations| - 1].capabilityId == capabilityId then Some(registrations[|registrations| - 1])
    else Registered(registrations[..|registrations| - 1], capabilityId)
  }

  predicate Admits(systemType: string, r: Registration, o: Operation) {
    systemType in r.systemTypes && o.operationId in r.operationIds && o.effectClass in r.effectClasses
  }

  /** The hint names a registration that does not admit the operation. */
  predicate Misused(systemType: string, registrations: seq<Registration>, o: Operation) {
    var r := Registered(registrations, o.capabilityHint);
    r.Some? && !Admits(systemType, r.value, o)
  }

  predicate AnyMisused(systemType: string, registrations: seq<Registration>, operations: seq<Operation>) {
    exists k | 0 <= k < |operations| :: Misused(systemType, registrations, operations[k])
  }

  function ReusedAs(registrations: seq<Registration>): Operation -> Option<Reused> {
    (o: Operation) =>
      match Registered(registrations, o.capabilityHint)
      case None => None
      case Some(r) => Some(Reused(o.operationId, r.capabilityId, r.descriptorDigest))
  }

  function UnresolvedAs(propose: Operation -> string, registrations: seq<Registration>): Operation -> Option<Unresolved> {
    (o: Operation) =>
      match Registered(registrations, o.capabilityHint)
      case None => Some(Unresolved(o.operationId, o.capabilityHint, o.effectClass, propose(o)))
      case Some(_) => None
  }

  /** The values a partial function takes along a list. */
  function Collect<T(!new), U(!new)>(f: T -> Option<U>, s: seq<T>): (r: seq<U>)
    ensures forall x :: x in r <==> exists t | t in s :: f(t) == Some(x)
  {
    if s == [] then []
    else
      assert s == s[..|s| - 1] + [s[|s| - 1]];
      var front := Collect(f, s[..|s| - 1]);
      match f(s[|s| - 1])
      case None => front
      case Some(x) => front + [x]
  }

  lemma CollectPush<T(!new), U(!new)>(f: T -> Option<U>, s: seq<T>, i: nat)
    requires i < |s|
    ensures Collect(f, s[..i + 1])
         == Collect(f, s[..i]) + (match f(s[i]) case None => [] case Some(x) => [x])
  {
    TakeNext(s, i);
    TakeFront(s[..i], s[i]);
  }

  lemma MisusedNext(systemType: string, registrations: seq<Registration>, operations: seq<Operation>, i: nat)
    requires i < |operations|
    ensures AnyMisused(systemType, registrations, operations[..i + 1])
       <==> AnyMisused(systemType, registrations, operations[..i]) || Misused(systemType, registrations, operations[i])
    ensures Misused(systemType, registrations, operations[i]) ==> AnyMisused(systemType, registrations, operations)
  {
    var some, more := operations[..i], operations[..i + 1];
    if k :| 0 <= k < |some| && Misused(systemType, registrations, some[k]) {
      assert more[k] == some[k];
    }
    if Misused(systemType, registrations, operations[i]) {
      assert more[i] == operations[i];
    }
    if k :| 0 <= k < |more| && Misused(systemType, registrations, more[k]) {
      if k < i { assert some[k] == more[k]; }
    }
  }

  /** Walks the operations; None is an operation whose registered capability does not admit it. */
  method ResolveEach(propose: Operation -> string, systemType: string, operations: seq<Operation>,
                     registrations: seq<Registration>) returns (r: Option<(seq<Reused>, seq<Unresolved>)>)
    ensures r == if AnyMisused(systemType, registrations, operations) then None
                 else Some((Collect(ReusedAs(registrations), operations),
                            Collect(UnresolvedAs(propose, registrations), operations)))
  {
    var reused: seq<Reused> := [];
    var unresolved: seq<Unresolved> := [];
    for i := 0 to |operations|
      invariant reused == Collect(ReusedAs(registrations), operations[..i])
      invariant unresolved == Collect(UnresolvedAs(propose, registrations), operations[..i])
      invariant !AnyMisused(systemType, registrations, operations[..i])
    {
      var o := operations[i];
      CollectPush(ReusedAs(registrations), operations, i);
      CollectPush(UnresolvedAs(propose, registrations), operations, i);
      MisusedNext(systemType, registrations, operations, i);
      var registration := Registered(registrations, o.capabilityHint);
      if registration.None? {
        unresolved := unresolved + [Unresolved(o.operationId, o.capabilityHint, o.effectClass, propose(o))];
      } else if !Admits(systemType, registration.value, o) {
        return None;
      } else {
        reused := reused + [Reused(o.operationId, registration.value.capabilityId, registration.value.descriptorDigest)];
      }
    }
    TakeAll(operations);
    return Some((reused, unresolved));
  }

  const MAX_REGISTRATIONS := 256

  predicate ValidRegistrations(c: Catalogue, candidates: seq<Registration>) {
    && |candidates| <= MAX_REGISTRATIONS
    && (forall x | x in candidates :: c.fits(x))
    && Distinct(Map(CapabilityIdOf, candidates))
  }

  function Registrations(leq: StringOrder, candidates: seq<Registration>): seq<Registration> {
    Sort(ByKey(leq, CapabilityIdOf), candidates)
  }

  function SortedResolution(leq: StringOrder, propose: Operation -> string, registrations: seq<Registration>,
                            operations: seq<Operation>): Resolution
  {
    Resolution(Sort(ByKey(leq, ReusedId), Collect(ReusedAs(registrations), operations)),
               Sort(ByKey(leq, UnresolvedId), Collect(UnresolvedAs(propose, registrations), operations)))
  }

  function Resolved(leq: StringOrder, c: Catalogue, discovery: Discovery, candidates: seq<Registration>):
    Option<Resolution>
  {
    var registrations := Registrations(leq, candidates);
    if ValidRegistrations(c, candidates) && !AnyMisused(discovery.systemType, registrations, discovery.operations)
    then Some(SortedResolution(leq, c.propose, registrations, discovery.operations))
    else None
  }

  /** Sorting first does not change whether an identifier is repeated. */
  lemma SortedIdsDistinct(leq: StringOrder, candidates: seq<Registration>)
    ensures Distinct(Map(CapabilityIdOf, Registrations(leq, candidates))) <==> Distinct(Map(CapabilityIdOf, candidates))
  {
    var ids := Map(CapabilityIdOf, candidates);
    SortCommutesWithKey(leq, CapabilityIdOf, candidates);
    if Distinct(ids) {
      DistinctSurvivesPermutation(ids, Sort(leq, ids));
    }
    if Distinct(Sort(leq, ids)) {
      DistinctSurvivesPermutation(Sort(leq, ids), ids);
    }
  }

  method ResolveCapabilities(leq: StringOrder, c: Catalogue, discovery: Discovery, candidates: seq<Registration>)
    returns (r: Option<Resolution>)
    ensures r == Resolved(leq, c, discovery, candidates)
  {
    if |candidates| > MAX_REGISTRATIONS || exists x | x in candidates :: !c.fits(x) {
      return None;
    }
    var registrations := Registrations(leq, candidates);
    SortedIdsDistinct(leq, candidates);
    if !Distinct(Map(CapabilityIdOf, registrations)) {
      return None;
    }
    var each := ResolveEach(c.propose, discovery.systemType, discovery.operations, registrations);
    if each.None? {
      return None;
    }
    return Some(Resolution(Sort(ByKey(leq, ReusedId), each.value.0), Sort(ByKey(leq, UnresolvedId), each.value.1)));
  }

  // ---------------------------------------------------------------- the order of registrations does not matter

  /** The lookup finds the one candidate with this id, whatever the order they came in. */
  lemma RegisteredExactly(leq: StringOrder, candidates: seq<Registration>, capabilityId: string, x: Registration)
    requires Distinct(Map(CapabilityIdOf, candidates))
    ensures Registered(Registrations(leq, candidates), capabilityId) == Some(x)
       <==> x in candidates && x.capabilityId == capabilityId
  {
    SortKeepsElements(ByKey(leq, CapabilityIdOf), candidates);
    var found := Registered(Registrations(leq, candidates), capabilityId);
    if x in candidates && x.capabilityId == capabilityId && found.Some? {
      SameKeySame(CapabilityIdOf, candidates, found.value, x);
    }
  }

  /** The registration an operation's hint names, if there is one, was made for this operation. */
  predicate HintAdmits(systemType: string, candidates: seq<Registration>, o: Operation) {
    forall x | x in candidates && x.capabilityId == o.capabilityHint :: Admits(systemType, x, o)
  }

  lemma MisusedExactly(leq: StringOrder, systemType: string, candidates: seq<Registration>, o: Operation)
    requires Distinct(Map(CapabilityIdOf, candidates))
    ensures Misused(systemType, Registrations(leq, candidates), o) <==> !HintAdmits(systemType, candidates, o)
  {
    forall x ensures Registered(Registrations(leq, candidates), o.capabilityHint) == Some(x)
                <==> x in candidates && x.capabilityId == o.capabilityHint
    {
      RegisteredExactly(leq, candidates, o.capabilityHint, x);
    }
  }

  /** Resolution refuses exactly an ill-formed catalogue and a hint that names a capability which was
      registered for something else. */
  lemma ResolvedExactly(leq: StringOrder, c: Catalogue, discovery: Discovery, candidates: seq<Registration>)
    ensures Resolved(leq, c, discovery, candidates).Some?
       <==> && ValidRegistrations(c, candidates)
            && forall o | o in discovery.operations :: HintAdmits(discovery.systemType, candidates, o)
  {
    if ValidRegistrations(c, candidates) {
      var registrations, operations := Registrations(leq, candidates), discovery.operations;
      forall o | o in operations
        ensures Misused(discovery.systemType, registrations, o) <==> !HintAdmits(discovery.systemType, candidates, o)
      {
        MisusedExactly(leq, discovery.systemType, candidates, o);
      }
      if o :| o in operations && Misused(discovery.systemType, registrations, o) {
        var k :| 0 <= k < |operations| && operations[k] == o;
      }
    }
  }

  // ---------------------------------------------------------------- each operation once

  /** Looking an operation up among what was collected gives what was collected for it. */
  lemma FindCollected<U(!new)>(leq: StringOrder, key: U -> string, f: Operation -> Option<U>, operations: seq<Operation>,
                               o: Operation)
    requires o in operations && Distinct(Map(IdOf, operations))
    requires forall x | x in operations && f(x).Some? :: key(f(x).value) == x.operationId
    ensures FindLast(key, Sort(ByKey(leq, key), Collect(f, operations)), o.operationId) == f(o)
  {
    var collected := Collect(f, operations);
    SortKeepsElements(ByKey(leq, key), collected);
    forall u | u in collected && key(u) == o.operationId ensures f(o) == Some(u) {
      var x :| x in operations && f(x) == Some(u);
      SameKeySame(IdOf, operations, x, o);
    }
    match f(o)
    case Some(u) => assert u in collected;
    case None =>
  }

  /** Each discovered operation is found in exactly one of reused and unresolved: in reused exactly
      when a registered capability has the hinted id, and then with that capability. */
  lemma ReusedXorUnresolved(leq: StringOrder, propose: Operation -> string, registrations: seq<Registration>,
                            operations: seq<Operation>, o: Operation)
    requires o in operations && Distinct(Map(IdOf, operations))
    ensures var r := SortedResolution(leq, propose, registrations, operations);
      var reused := FindLast(ReusedId, r.reused, o.operationId);
      var unresolved := FindLast(UnresolvedId, r.unresolved, o.operationId);
      match Registered(registrations, o.capabilityHint)
      case Some(x) => reused == Some(Reused(o.operationId, x.capabilityId, x.descriptorDigest)) && unresolved == None
      case None =>
        reused == None
        && unresolved == Some(Unresolved(o.operationId, o.capabilityHint, o.effectClass, propose(o)))
  {
    FindCollected(leq, ReusedId, ReusedAs(registrations), operations, o);
    FindCollected(leq, UnresolvedId, UnresolvedAs(propose, registrations), operations, o);
  }

  lemma NoneUnresolvedIff(leq: StringOrder, propose: Operation -> string, registrations: seq<Registration>,
                          operations: seq<Operation>)
    ensures SortedResolution(leq, propose, registrations, operations).unresolved == []
       <==> forall o | o in operations :: Registered(registrations, o.capabilityHint).Some?
  {
    var unresolved := Collect(UnresolvedAs(propose, registrations), operations);
    if o :| o in operations && Registered(registrations, o.capabilityHint).None? {
      var u := Unresolved(o.operationId, o.capabilityHint, o.effectClass, propose(o));
      assert UnresolvedAs(propose, registrations)(o) == Some(u);
      assert u in unresolved;
    }
    if unresolved != [] {
      assert unresolved[0] in unresolved;
    }
  }
}
