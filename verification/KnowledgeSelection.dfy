/** Selecting knowledge envelopes. An envelope that lies on a derivation cycle is found by following
    its derivations along every simple path, and is never selected. */
module KnowledgeSelection {
  import opened Numbers
  import opened Options
  import opened Sequences
  import opened Sorting
  import opened Graphs

  // ---------------------------------------------------------------- derivation cycles

  /** p leads from a to b; what lies in between avoids seen and does not repeat. */
  ghost predicate SimplePath(g: Graph, p: seq<string>, a: string, b: string, seen: set<string>) {
    && PathFrom(g, p, a, b)
    && (forall i | 0 < i < |p| - 1 :: p[i] !in seen)
    && (forall i, j | 0 < i < j < |p| - 1 :: p[i] != p[j])
  }

  ghost predicate ReachesAvoiding(g: Graph, a: string, b: string, seen: set<string>) {
    exists p :: SimplePath(g, p, a, b, seen)
  }

  /** Following one derivation leads back to start. */
  ghost predicate LeadsBack(g: Graph, start: string, parent: string, seen: set<string>) {
    parent == start || (parent !in seen && ReachesAvoiding(g, parent, start, seen + {parent}))
  }

  lemma PathTail(g: Graph, p: seq<string>)
    requires IsPath(g, p) && |p| >= 1
    ensures IsPath(g, p[1..])
  {
    forall i | 0 <= i < |p[1..]| - 1 ensures Edge(g, p[1..][i], p[1..][i + 1]) {
      assert Edge(g, p[i + 1], p[i + 2]);
    }
  }

  lemma ParentsDecide(g: Graph, current: string, start: string, seen: set<string>)
    requires current in g
    ensures ReachesAvoiding(g, current, start, seen)
       <==> exists k :: 0 <= k < |g[current]| && LeadsBack(g, start, g[current][k], seen)
  {
    if ReachesAvoiding(g, current, start, seen) {
      var p :| SimplePath(g, p, current, start, seen);
      assert Edge(g, p[0], p[1]);
      var k :| 0 <= k < |g[current]| && g[current][k] == p[1];
      if |p| > 2 {
        PathTail(g, p);
        assert SimplePath(g, p[1..], p[1], start, seen + {p[1]});
      }
      assert LeadsBack(g, start, g[current][k], seen);
    }
    if k :| 0 <= k < |g[current]| && LeadsBack(g, start, g[current][k], seen) {
      PrependParent(g, current, g[current][k], start, seen);
    }
  }

  lemma AbsentLeadsNowhere(g: Graph, current: string, start: string, seen: set<string>)
    requires current !in g
    ensures !ReachesAvoiding(g, current, start, seen)
  {
    forall p ensures !SimplePath(g, p, current, start, seen) {
      assert PathFrom(g, p, current, start) ==> Edge(g, p[0], p[1]);
    }
  }

  lemma PrependParent(g: Graph, current: string, parent: string, start: string, seen: set<string>)
    requires Edge(g, current, parent) && LeadsBack(g, start, parent, seen)
    ensures ReachesAvoiding(g, current, start, seen)
  {
    if parent == start {
      assert SimplePath(g, [current, start], current, start, seen);
    } else {
      var p :| SimplePath(g, p, parent, start, seen + {parent});
      var q := [current] + p;
      forall i | 0 <= i < |q| - 1 ensures Edge(g, q[i], q[i + 1]) {
        if i > 0 { assert Edge(g, p[i - 1], p[i]); }
      }
      assert SimplePath(g, q, current, start, seen);
    }
  }

  /** Cutting the loop between two visits of the same node out of a path. */
  lemma CutLoop(g: Graph, p: seq<string>, i: nat, j: nat)
    requires IsPath(g, p) && i < j < |p| && p[i] == p[j]
    ensures IsPath(g, p[..i] + p[j..])
  {
    var q := p[..i] + p[j..];
    forall k | 0 <= k < |q| - 1 ensures Edge(g, q[k], q[k + 1]) {
      if k < i {
        assert Edge(g, p[k], p[k + 1]);
      } else {
        assert Edge(g, p[k - i + j], p[k - i + j + 1]);
      }
    }
  }

  /** A closed walk contains a simple cycle through its first node. */
  lemma {:induction false} ClosedWalkHasSimpleCycle(g: Graph, p: seq<string>, a: string)
    requires PathFrom(g, p, a, a)
    ensures ReachesAvoiding(g, a, a, {a})
    decreases |p|
  {
    if i :| 0 < i < |p| - 1 && p[i] == a {
      var q := p[..i + 1];
      forall k | 0 <= k < |q| - 1 ensures Edge(g, q[k], q[k + 1]) {
        assert Edge(g, p[k], p[k + 1]);
      }
      ClosedWalkHasSimpleCycle(g, q, a);
    } else if i, j :| 0 < i < j < |p| - 1 && p[i] == p[j] {
      CutLoop(g, p, i, j);
      ClosedWalkHasSimpleCycle(g, p[..i] + p[j..], a);
    } else {
      assert SimplePath(g, p, a, a, {a});
    }
  }

  lemma OnCycleIffSimple(g: Graph, a: string)
    ensures OnCycle(g, a) <==> ReachesAvoiding(g, a, a, {a})
  {
    if OnCycle(g, a) {
      var p :| PathFrom(g, p, a, a);
      ClosedWalkHasSimpleCycle(g, p, a);
    }
  }

  class DerivationSearch {
    const byId: Graph
    var cyclic: set<string>

    constructor (byId: Graph)
      ensures this.byId == byId && cyclic == {}
    {
      this.byId := byId;
      cyclic := {};
    }

    /** Marks start if some simple continuation from current leads back to it. */
    method Visit(start: string, current: string, seen: set<string>)
      requires start in seen && current in seen
      modifies this
      ensures cyclic == old(cyclic) + if ReachesAvoiding(byId, current, start, seen) then {start} else {}
      decreases byId.Keys - seen, current in byId
    {
      if current !in byId {
        AbsentLeadsNowhere(byId, current, start, seen);
        return;
      }
      ParentsDecide(byId, current, start, seen);
      var derivedFrom := byId[current];
      ghost var hit := false;
      for i := 0 to |derivedFrom|
        invariant hit <==> exists k :: 0 <= k < i && LeadsBack(byId, start, derivedFrom[k], seen)
        invariant cyclic == old(cyclic) + if hit then {start} else {}
      {
        var parent := derivedFrom[i];
        if parent == start {
          cyclic := cyclic + {start};
        } else if parent !in seen {
          assert parent in byId ==> byId.Keys - (seen + {parent}) < byId.Keys - seen;
          assert parent !in byId ==> byId.Keys - (seen + {parent}) == byId.Keys - seen;
          Visit(start, parent, seen + {parent});
        }
        hit := hit || LeadsBack(byId, start, parent, seen);
      }
    }

    /** Searches from every listed id. */
    method MarkCycles(ids: seq<string>)
      requires cyclic == {}
      modifies this
      ensures forall id :: id in cyclic <==> id in ids && OnCycle(byId, id)
    {
      for i := 0 to |ids|
        invariant forall id :: id in cyclic <==> id in ids[..i] && OnCycle(byId, id)
      {
        OnCycleIffSimple(byId, ids[i]);
        Visit(ids[i], ids[i], {ids[i]});
        TakeNext(ids, i);
      }
      TakeAll(ids);
    }
  }

  // ---------------------------------------------------------------- selection

  datatype Reason =
    | SCHEMA_DENIED
    | AUTHORITY_DENIED
    | TAXONOMY_MISMATCH_DENIED
    | KIND_UNSUPPORTED
    | DIGEST_TAMPERED_DENIED
    | MISSING_EVIDENCE_DENIED
    | CIRCULAR_DERIVATION_DENIED
    | SCOPE_MISMATCH
    | SENSITIVITY_DENIED
    | LICENSE_DENIED
    | TRUST_DENIED
    | STALE_EVIDENCE_DENIED
    | USE_DENIED
    | UNVERIFIED_DENIED
    | UNRESOLVED_DENIED
    | CONFLICT_DENIED

  datatype Mode = CURATED | EXPLORATORY

  datatype EpistemicStatus = VERIFIED | SUPPORTED | UNVERIFIED | DISPUTED | UNRESOLVED

  datatype Use = CURATED_READ | EXPLORATORY_READ | KNOWLEDGE_GENERATION_CANDIDATE

  datatype Envelope = Envelope(
    envelopeId: string, envelopeDigest: string, namespace: string, sensitivity: string, licences: seq<string>,
    trustRank: nat, staleAfterMs: int, permittedUses: seq<Use>, epistemicStatus: EpistemicStatus,
    conflictsWith: seq<string>, derivedFrom: seq<string>)

  datatype Policy = Policy(
    mode: Mode, scopeNamespace: string, allowedSensitivity: seq<string>, allowedLicences: seq<string>,
    minimumTrustRank: nat, evaluatedAtMs: int, allowUnresolvedExploratory: bool, maxResults: int)

  datatype Selection = Selection(selected: seq<Envelope>, rejected: seq<(Envelope, seq<Reason>)>)

  datatype PolicyDenied = KNOWLEDGE_SELECTION_POLICY_DENIED

  predicate ValidPolicy(policy: Policy) {
    && 0 <= policy.evaluatedAtMs <= MAX_SAFE_INTEGER
    && 1 <= policy.maxResults <= 100
    && !(policy.mode == CURATED && policy.allowUnresolvedExploratory)
  }

  function When(condition: bool, reason: Reason): seq<Reason> {
    if condition then [reason] else []
  }

  /** All reasons against an envelope; schema is what shape validation alone had to say. */
  function ReasonsAgainst(schema: seq<Reason>, known: set<string>, cyclic: set<string>, policy: Policy, e: Envelope):
    seq<Reason>
  {
    schema
    + When(exists parent | parent in e.derivedFrom :: parent !in known, MISSING_EVIDENCE_DENIED)
    + When(e.envelopeId in cyclic, CIRCULAR_DERIVATION_DENIED)
    + When(e.namespace != policy.scopeNamespace, SCOPE_MISMATCH)
    + When(e.sensitivity !in policy.allowedSensitivity, SENSITIVITY_DENIED)
    + When(exists licence | licence in e.licences :: licence !in policy.allowedLicences, LICENSE_DENIED)
    + When(e.trustRank < policy.minimumTrustRank, TRUST_DENIED)
    + When(e.staleAfterMs < policy.evaluatedAtMs, STALE_EVIDENCE_DENIED)
    + When((if policy.mode == CURATED then CURATED_READ else EXPLORATORY_READ) !in e.permittedUses, USE_DENIED)
    + if policy.mode == CURATED then
        When(e.epistemicStatus == UNVERIFIED, UNVERIFIED_DENIED)
        + When(e.epistemicStatus == UNRESOLVED, UNRESOLVED_DENIED)
        + When(e.epistemicStatus == DISPUTED || e.conflictsWith != [], CONFLICT_DENIED)
      else
        When((e.epistemicStatus == UNVERIFIED || e.epistemicStatus == UNRESOLVED || e.epistemicStatus == DISPUTED)
             && !policy.allowUnresolvedExploratory, UNRESOLVED_DENIED)
  }

  /** Keeps the first occurrence of each element. */
  function Unique(reasons: seq<Reason>): (r: seq<Reason>)
    ensures forall x :: x in r <==> x in reasons
  {
    if reasons == [] then []
    else
      var front, last := Unique(reasons[..|reasons| - 1]), reasons[|reasons| - 1];
      if last in front then front else front + [last]
  }

  function NodeOf(e: Envelope): Node { Node(e.envelopeId, e.derivedFrom) }

  function NodesOf(envelopes: seq<Envelope>): (nodes: seq<Node>)
    ensures |nodes| == |envelopes|
    ensures forall i | 0 <= i < |nodes| :: nodes[i] == Node(envelopes[i].envelopeId, envelopes[i].derivedFrom)
  {
    Map(NodeOf, envelopes)
  }

  function IdOf(e: Envelope): string { e.envelopeId }

  function Ids(envelopes: seq<Envelope>): (ids: seq<string>)
    ensures |ids| == |envelopes| && forall i | 0 <= i < |ids| :: ids[i] == envelopes[i].envelopeId
  {
    Map(IdOf, envelopes)
  }

  /** The envelopes that nothing speaks against, in order. */
  function Admissible(reasons: Envelope -> seq<Reason>, ordered: seq<Envelope>): seq<Envelope> {
    if ordered == [] then []
    else
      var front, last := Admissible(reasons, ordered[..|ordered| - 1]), ordered[|ordered| - 1];
      if reasons(last) == [] then front + [last] else front
  }

  function Take<T>(s: seq<T>, n: nat): seq<T> {
    if |s| <= n then s else s[..n]
  }

  lemma AdmissibleNext(reasons: Envelope -> seq<Reason>, ordered: seq<Envelope>, i: nat)
    requires i < |ordered|
    ensures Admissible(reasons, ordered[..i + 1])
         == if reasons(ordered[i]) == [] then Admissible(reasons, ordered[..i]) + [ordered[i]]
            else Admissible(reasons, ordered[..i])
  {
    TakeNext(ordered, i);
    TakeFront(ordered[..i], ordered[i]);
  }

  /** How the first maxResults admissible envelopes grow by one envelope. */
  lemma PickedNext(reasons: Envelope -> seq<Reason>, ordered: seq<Envelope>, i: nat, maxResults: nat)
    requires i < |ordered|
    ensures var picked := Take(Admissible(reasons, ordered[..i]), maxResults);
      Take(Admissible(reasons, ordered[..i + 1]), maxResults)
        == if reasons(ordered[i]) == [] && |picked| < maxResults then picked + [ordered[i]] else picked
  {
    AdmissibleNext(reasons, ordered, i);
    TakeOneMore(Admissible(reasons, ordered[..i]), ordered[i], maxResults);
  }

  lemma TakeOneMore<T>(s: seq<T>, x: T, n: nat)
    ensures Take(s + [x], n) == if |Take(s, n)| < n then Take(s, n) + [x] else Take(s, n)
  {}

  lemma {:induction false} AdmissibleMembers(reasons: Envelope -> seq<Reason>, ordered: seq<Envelope>)
    ensures forall e :: e in Admissible(reasons, ordered) <==> e in ordered && reasons(e) == []
  {
    if ordered != [] {
      AdmissibleMembers(reasons, ordered[..|ordered| - 1]);
      SplitLast(ordered);
    }
  }

  /** The envelopes of a list of rejections. */
  function Rejectees(rejected: seq<(Envelope, seq<Reason>)>): (es: seq<Envelope>)
    ensures |es| == |rejected|
  {
    seq(|rejected|, i requires 0 <= i < |rejected| => rejected[i].0)
  }

  /** Every rejection carries a reason: what speaks against the envelope, or that there was no room left. */
  ghost predicate Justified(reasons: Envelope -> seq<Reason>, ordered: seq<Envelope>,
                            rejected: seq<(Envelope, seq<Reason>)>, full: bool)
  {
    forall i | 0 <= i < |rejected| :: var (e, why) := rejected[i];
      && e in ordered && why != []
      && if reasons(e) != [] then why == reasons(e) else why == [USE_DENIED] && full
  }

  lemma JustifiedPush(reasons: Envelope -> seq<Reason>, ordered: seq<Envelope>, rejected: seq<(Envelope, seq<Reason>)>,
                      full: bool, e: Envelope, why: seq<Reason>)
    requires Justified(reasons, ordered, rejected, full) && e in ordered && why != []
    requires if reasons(e) != [] then why == reasons(e) else why == [USE_DENIED] && full
    ensures Justified(reasons, ordered, rejected + [(e, why)], full)
  {}

  lemma JustifiedWhenFull(reasons: Envelope -> seq<Reason>, ordered: seq<Envelope>,
                          rejected: seq<(Envelope, seq<Reason>)>, full: bool)
    requires Justified(reasons, ordered, rejected, false)
    ensures Justified(reasons, ordered, rejected, full)
  {}

  /** Selected and rejected envelopes together are those seen. */
  ghost predicate Partitioned(selected: seq<Envelope>, rejected: seq<(Envelope, seq<Reason>)>, seen: seq<Envelope>) {
    multiset(selected) + multiset(Rejectees(rejected)) == multiset(seen)
  }

  lemma PartitionedPush(selected: seq<Envelope>, rejected: seq<(Envelope, seq<Reason>)>, seen: seq<Envelope>,
                        e: Envelope, why: seq<Reason>)
    requires Partitioned(selected, rejected, seen)
    ensures Partitioned(selected + [e], rejected, seen + [e])
    ensures Partitioned(selected, rejected + [(e, why)], seen + [e])
  {
    assert Rejectees(rejected + [(e, why)]) == Rejectees(rejected) + [e];
  }

  /** The state of the loop after i envelopes. */
  ghost predicate Picked(reasons: Envelope -> seq<Reason>, ordered: seq<Envelope>, maxResults: nat, i: nat,
                         selected: seq<Envelope>, rejected: seq<(Envelope, seq<Reason>)>)
    requires i <= |ordered|
  {
    && selected == Take(Admissible(reasons, ordered[..i]), maxResults)
    && Partitioned(selected, rejected, ordered[..i])
    && Justified(reasons, ordered, rejected, |selected| == maxResults)
  }

  lemma PickedSelects(reasons: Envelope -> seq<Reason>, ordered: seq<Envelope>, maxResults: nat, i: nat,
                      selected: seq<Envelope>, rejected: seq<(Envelope, seq<Reason>)>)
    requires i < |ordered| && Picked(reasons, ordered, maxResults, i, selected, rejected)
    requires reasons(ordered[i]) == [] && |selected| < maxResults
    ensures Picked(reasons, ordered, maxResults, i + 1, selected + [ordered[i]], rejected)
  {
    PickedNext(reasons, ordered, i, maxResults);
    TakeNext(ordered, i);
    PartitionedPush(selected, rejected, ordered[..i], ordered[i], []);
    JustifiedWhenFull(reasons, ordered, rejected, |selected| + 1 == maxResults);
  }

  lemma PickedRejects(reasons: Envelope -> seq<Reason>, ordered: seq<Envelope>, maxResults: nat, i: nat,
                      selected: seq<Envelope>, rejected: seq<(Envelope, seq<Reason>)>, why: seq<Reason>)
    requires i < |ordered| && Picked(reasons, ordered, maxResults, i, selected, rejected)
    requires reasons(ordered[i]) != [] || |selected| >= maxResults
    requires why == if reasons(ordered[i]) != [] then reasons(ordered[i]) else [USE_DENIED]
    ensures Picked(reasons, ordered, maxResults, i + 1, selected, rejected + [(ordered[i], why)])
  {
    PickedNext(reasons, ordered, i, maxResults);
    TakeNext(ordered, i);
    PartitionedPush(selected, rejected, ordered[..i], ordered[i], why);
    JustifiedPush(reasons, ordered, rejected, |selected| == maxResults, ordered[i], why);
  }

  /** The loop over the ordered envelopes: the first maxResults admissible ones are selected, every
      other envelope is rejected with at least one reason. */
  method Pick(reasons: Envelope -> seq<Reason>, ordered: seq<Envelope>, maxResults: nat) returns (r: Selection)
    ensures r.selected == Take(Admissible(reasons, ordered), maxResults)
    ensures Partitioned(r.selected, r.rejected, ordered)
    ensures Justified(reasons, ordered, r.rejected, |r.selected| == maxResults)
  {
    var selected: seq<Envelope> := [];
    var rejected: seq<(Envelope, seq<Reason>)> := [];
    for i := 0 to |ordered|
      invariant Picked(reasons, ordered, maxResults, i, selected, rejected)
    {
      var stable := reasons(ordered[i]);
      if stable == [] && |selected| < maxResults {
        PickedSelects(reasons, ordered, maxResults, i, selected, rejected);
        selected := selected + [ordered[i]];
      } else {
        var why := if stable != [] then stable else [USE_DENIED];
        PickedRejects(reasons, ordered, maxResults, i, selected, rejected, why);
        rejected := rejected + [(ordered[i], why)];
      }
    }
    TakeAll(ordered);
    return Selection(selected, rejected);
  }

  /** Everything selection asks of an envelope beyond its shape, cycles told by paths. */
  ghost predicate Included(g: Graph, policy: Policy, e: Envelope) {
    && !OnCycle(g, e.envelopeId)
    && (forall parent | parent in e.derivedFrom :: parent in g)
    && e.namespace == policy.scopeNamespace
    && e.sensitivity in policy.allowedSensitivity
    && (forall licence | licence in e.licences :: licence in policy.allowedLicences)
    && policy.minimumTrustRank <= e.trustRank
    && policy.evaluatedAtMs <= e.staleAfterMs
    && (policy.mode == CURATED ==>
          && CURATED_READ in e.permittedUses
          && e.epistemicStatus in {VERIFIED, SUPPORTED}
          && e.conflictsWith == [])
    && (policy.mode == EXPLORATORY ==>
          && EXPLORATORY_READ in e.permittedUses
          && (e.epistemicStatus in {VERIFIED, SUPPORTED} || policy.allowUnresolvedExploratory))
  }

  lemma NoReasonIffIncluded(schema: seq<Reason>, g: Graph, cyclic: set<string>, policy: Policy, e: Envelope)
    requires OnCycle(g, e.envelopeId) <==> e.envelopeId in cyclic
    ensures Unique(ReasonsAgainst(schema, g.Keys, cyclic, policy, e)) == [] <==> schema == [] && Included(g, policy, e)
  {
    var reasons := ReasonsAgainst(schema, g.Keys, cyclic, policy, e);
    if Unique(reasons) == [] {
      assert forall x :: x !in reasons by { assert forall x :: x !in Unique(reasons); }
      assert reasons == [];
    }
  }

  function Ordered(idLeq: (string, string) -> bool, envelopes: seq<Envelope>): seq<Envelope> {
    Sort(ByKey(idLeq, (e: Envelope) => e.envelopeId), envelopes)
  }

  function Verdict(validate: Envelope -> seq<Reason>, known: set<string>, cyclic: set<string>, policy: Policy):
    Envelope -> seq<Reason>
  {
    e => Unique(ReasonsAgainst(validate(e), known, cyclic, policy, e))
  }

  /** The listed ids that lie on a derivation cycle. */
  ghost function CyclicIds(g: Graph, ids: seq<string>): set<string> {
    set id | id in ids && OnCycle(g, id)
  }

  /** What is said about each envelope, with cycles defined by paths and not by the search. */
  ghost function ExactVerdict(validate: Envelope -> seq<Reason>, ordered: seq<Envelope>, policy: Policy):
    Envelope -> seq<Reason>
  {
    var g := ById(NodesOf(ordered));
    Verdict(validate, g.Keys, CyclicIds(g, Ids(ordered)), policy)
  }

  method SelectKnowledge(validTaxonomy: bool, validate: Envelope -> seq<Reason>, idLeq: (string, string) -> bool,
                         envelopes: seq<Envelope>, policy: Policy) returns (r: Result<Selection, PolicyDenied>)
    ensures r.Err? <==> !validTaxonomy || !ValidPolicy(policy)
    ensures r.Ok? ==>
      var ordered := Ordered(idLeq, envelopes);
      var verdict := ExactVerdict(validate, ordered, policy);
      && r.value.selected == Take(Admissible(verdict, ordered), policy.maxResults)
      && Partitioned(r.value.selected, r.value.rejected, envelopes)
      && Justified(verdict, ordered, r.value.rejected, |r.value.selected| == policy.maxResults)
  {
    if !validTaxonomy || !ValidPolicy(policy) {
      return Err(KNOWLEDGE_SELECTION_POLICY_DENIED);
    }
    var ordered := Ordered(idLeq, envelopes);
    var g := ById(NodesOf(ordered));
    var search := new DerivationSearch(g);
    search.MarkCycles(Ids(ordered));
    assert search.cyclic == CyclicIds(g, Ids(ordered));
    var selection := Pick(Verdict(validate, g.Keys, search.cyclic, policy), ordered, policy.maxResults);
    return Ok(selection);
  }

  /** An envelope may be selected exactly when its shape is valid and the policy includes it; in
      particular it lies on no derivation cycle and derives from no absent envelope. */
  lemma AdmissibleIffIncluded(validate: Envelope -> seq<Reason>, ordered: seq<Envelope>, policy: Policy, e: Envelope)
    ensures e in Admissible(ExactVerdict(validate, ordered, policy), ordered)
       <==> e in ordered && validate(e) == [] && Included(ById(NodesOf(ordered)), policy, e)
  {
    var g := ById(NodesOf(ordered));
    AdmissibleMembers(ExactVerdict(validate, ordered, policy), ordered);
    if e in ordered {
      var k :| 0 <= k < |ordered| && ordered[k] == e;
      assert Ids(ordered)[k] == e.envelopeId;
      NoReasonIffIncluded(validate(e), g, CyclicIds(g, Ids(ordered)), policy, e);
    }
  }

  /** An envelope is told that its derivation is circular exactly when it lies on a cycle, unless
      shape validation already said so. */
  lemma CircularToldIffOnCycle(validate: Envelope -> seq<Reason>, ordered: seq<Envelope>, policy: Policy, e: Envelope)
    requires e in ordered && CIRCULAR_DERIVATION_DENIED !in validate(e)
    ensures CIRCULAR_DERIVATION_DENIED in ExactVerdict(validate, ordered, policy)(e)
       <==> OnCycle(ById(NodesOf(ordered)), e.envelopeId)
  {
    var k :| 0 <= k < |ordered| && ordered[k] == e;
    assert Ids(ordered)[k] == e.envelopeId;
    var g := ById(NodesOf(ordered));
    CircularToldIffMarked(validate(e), g.Keys, CyclicIds(g, Ids(ordered)), policy, e);
  }

  lemma CircularToldIffMarked(schema: seq<Reason>, known: set<string>, cyclic: set<string>, policy: Policy, e: Envelope)
    requires CIRCULAR_DERIVATION_DENIED !in schema
    ensures CIRCULAR_DERIVATION_DENIED in ReasonsAgainst(schema, known, cyclic, policy, e) <==> e.envelopeId in cyclic
  {
    assert CIRCULAR_DERIVATION_DENIED in When(e.envelopeId in cyclic, CIRCULAR_DERIVATION_DENIED)
      <==> e.envelopeId in cyclic;
  }
}
