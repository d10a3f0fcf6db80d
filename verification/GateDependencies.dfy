/** Dependency validation of adaptive evidence gates: a depth-first search that keeps the gates on
    its stack and the gates it has finished, and reports a cycle exactly when there is one. */
module GateDependencies {
  import opened Options
  import opened Graphs
  import opened Sequences

  type Gate = Node

  datatype Denial = INVALID_DEPENDENCIES | CYCLIC_DEPENDENCIES

  /** Ids are unique and every dependency names a gate. */
  ghost predicate WellPosed(gates: seq<Gate>) {
    && UniqueIds(gates)
    && forall k, d | 0 <= k < |gates| && d in gates[k].dependsOn :: exists j :: 0 <= j < |gates| && gates[j].id == d
  }

  ghost predicate Dangling(g: Graph, id: string) {
    id !in g || exists a, d :: Edge(g, a, d) && d !in g
  }

  class DependencySearch {
    const byId: Graph
    var visiting: set<string>
    var visited: set<string>
    /** The finished gates in the order they were finished. */
    ghost var finished: seq<string>

    ghost predicate Valid()
      reads this
    {
      && TopologicalOrder(byId, finished)
      && (forall id :: id in visited <==> id in finished)
      && visiting !! visited
    }

    constructor (gates: seq<Gate>)
      ensures Valid() && visiting == {} && visited == {} && byId == ById(gates)
    {
      byId := ById(gates);
      visiting, visited, finished := {}, {}, [];
    }

    /** Searches below id. A true answer is a cycle or an unknown gate; after a false answer id is
        finished and the stack is as it was. */
    method Visit(id: string) returns (cyclic: bool)
      requires Valid()
      requires forall v | v in visiting :: Leads(byId, v, id)
      modifies this
      ensures cyclic ==> Dangling(byId, id) || exists a :: OnCycle(byId, a)
      ensures !cyclic ==> Valid() && visiting == old(visiting) && id in visited
      ensures !cyclic ==> old(visited) <= visited
      decreases byId.Keys - visiting
    {
      if id in visiting {
        assert OnCycle(byId, id);
        return true;
      }
      if id in visited {
        return false;
      }
      if id !in byId {
        return true;
      }
      visiting := visiting + {id};
      var dependsOn := byId[id];
      for i := 0 to |dependsOn|
        invariant Valid() && visiting == old(visiting) + {id}
        invariant forall k | 0 <= k < i :: dependsOn[k] in visited
        invariant old(visited) <= visited
      {
        StackLeads(visiting, id, dependsOn[i]);
        var found := Visit(dependsOn[i]);
        if found {
          assert Edge(byId, id, dependsOn[i]);
          return true;
        }
      }
      TopologicalPush(byId, finished, id);
      visiting := visiting - {id};
      visited := visited + {id};
      finished := finished + [id];
      return false;
    }

    /** Searches from every gate in turn. */
    method AnyCycle(ids: seq<string>) returns (cyclic: bool)
      requires Valid() && visiting == {}
      requires forall k | 0 <= k < |ids| :: !Dangling(byId, ids[k])
      modifies this
      ensures cyclic ==> exists id :: OnCycle(byId, id)
      ensures !cyclic ==> Valid() && forall k | 0 <= k < |ids| :: ids[k] in finished
    {
      for i := 0 to |ids|
        invariant Valid() && visiting == {}
        invariant forall k | 0 <= k < i :: ids[k] in visited
      {
        cyclic := Visit(ids[i]);
        if cyclic {
          return;
        }
      }
      return false;
    }

    lemma StackLeads(stack: set<string>, id: string, dependency: string)
      requires forall v | v in stack && v != id :: Leads(byId, v, id)
      requires Edge(byId, id, dependency)
      ensures forall v | v in stack :: Leads(byId, v, dependency)
    {
      EdgeLeads(byId, id, dependency);
      forall v | v in stack ensures Leads(byId, v, dependency) {
        if v != id { LeadsTransitive(byId, v, id, dependency); }
      }
    }
  }

  /** Every gate has a rank above the ranks of all gates it depends on. */
  ghost predicate Ranked(gates: seq<Gate>, rank: map<string, nat>) {
    forall k | 0 <= k < |gates| ::
      && gates[k].id in rank
      && forall d | d in gates[k].dependsOn :: d in rank && rank[d] < rank[gates[k].id]
  }

  predicate DependenciesKnown(gates: seq<Gate>, byId: Graph) {
    forall k | 0 <= k < |gates| :: forall d | d in gates[k].dependsOn :: d in byId
  }

  lemma WellPosedIff(gates: seq<Gate>)
    ensures WellPosed(gates) <==> |ById(gates)| == |gates| && DependenciesKnown(gates, ById(gates))
  {
    SizeCountsIds(gates);
  }

  function GateIds(gates: seq<Gate>): (ids: seq<string>)
    ensures |ids| == |gates| && forall k | 0 <= k < |gates| :: ids[k] == gates[k].id
  {
    seq(|gates|, k requires 0 <= k < |gates| => gates[k].id)
  }

  method Search(gates: seq<Gate>) returns (cyclic: bool)
    requires UniqueIds(gates) && DependenciesKnown(gates, ById(gates))
    ensures cyclic ==> exists id :: OnCycle(ById(gates), id)
    ensures !cyclic ==> exists rank :: Ranked(gates, rank)
  {
    var search := new DependencySearch(gates);
    var ids := GateIds(gates);
    forall k | 0 <= k < |ids| ensures !Dangling(search.byId, ids[k]) {
      NothingDangles(gates, k);
    }
    cyclic := search.AnyCycle(ids);
    if !cyclic {
      AllFinishedGivesRank(gates, ids, search.finished);
    }
  }

  lemma AllFinishedGivesRank(gates: seq<Gate>, ids: seq<string>, order: seq<string>)
    requires UniqueIds(gates) && TopologicalOrder(ById(gates), order) && ids == GateIds(gates)
    requires forall k | 0 <= k < |ids| :: ids[k] in order
    ensures exists rank :: Ranked(gates, rank)
  {
    forall k | 0 <= k < |gates| ensures gates[k].id in order {
      assert ids[k] in order;
    }
    OrderGivesRank(gates, order);
  }

  method ValidateDependencies(gates: seq<Gate>) returns (r: Option<Denial>)
    ensures r == Some(INVALID_DEPENDENCIES) <==> !WellPosed(gates)
    ensures r == Some(CYCLIC_DEPENDENCIES) <==> WellPosed(gates) && exists id :: OnCycle(ById(gates), id)
    ensures r == None <==> WellPosed(gates) && exists rank :: Ranked(gates, rank)
  {
    WellPosedIff(gates);
    SizeCountsIds(gates);
    if |ById(gates)| != |gates| || !DependenciesKnown(gates, ById(gates)) {
      return Some(INVALID_DEPENDENCIES);
    }
    RankedIsAcyclic(gates);
    var cyclic := Search(gates);
    return if cyclic then Some(CYCLIC_DEPENDENCIES) else None;
  }

  lemma NothingDangles(gates: seq<Gate>, i: nat)
    requires UniqueIds(gates) && DependenciesKnown(gates, ById(gates)) && i < |gates|
    ensures !Dangling(ById(gates), gates[i].id)
  {
    forall a, d | Edge(ById(gates), a, d) ensures d in ById(gates) {
      var k :| 0 <= k < |gates| && gates[k].id == a;
      LookupNode(gates, k);
    }
  }

  function Position(order: seq<string>, id: string): (k: nat)
    requires id in order
    ensures k < |order| && order[k] == id
  {
    if order[0] == id then 0 else 1 + Position(order[1..], id)
  }

  lemma OrderGivesRank(gates: seq<Gate>, order: seq<string>)
    requires UniqueIds(gates) && TopologicalOrder(ById(gates), order)
    requires forall k | 0 <= k < |gates| :: gates[k].id in order
    ensures exists rank :: Ranked(gates, rank)
  {
    var rank := map id | id in order :: Position(order, id);
    forall k, d | 0 <= k < |gates| && d in gates[k].dependsOn
      ensures d in rank && rank[d] < rank[gates[k].id]
    {
      LookupNode(gates, k);
      var i := Position(order, gates[k].id);
      var j :| 0 <= j < i && order[j] == d;
    }
    assert Ranked(gates, rank);
  }

  lemma {:induction false} RankFalls(gates: seq<Gate>, rank: map<string, nat>, p: seq<string>)
    requires UniqueIds(gates) && Ranked(gates, rank) && IsPath(ById(gates), p) && |p| >= 2
    ensures p[0] in rank && p[|p| - 1] in rank && rank[p[|p| - 1]] < rank[p[0]]
  {
    assert Edge(ById(gates), p[0], p[1]);
    var k :| 0 <= k < |gates| && gates[k].id == p[0];
    LookupNode(gates, k);
    if |p| > 2 {
      forall x | 0 <= x < |p[1..]| - 1 ensures Edge(ById(gates), p[1..][x], p[1..][x + 1]) {
        assert Edge(ById(gates), p[x + 1], p[x + 2]);
      }
      RankFalls(gates, rank, p[1..]);
    }
  }

  /** A ranking excludes every cycle. */
  lemma RankedIsAcyclic(gates: seq<Gate>)
    ensures UniqueIds(gates) && (exists rank :: Ranked(gates, rank)) ==> !exists id :: OnCycle(ById(gates), id)
  {
    forall rank, id | UniqueIds(gates) && Ranked(gates, rank) && OnCycle(ById(gates), id) ensures false {
      var p :| PathFrom(ById(gates), p, id, id);
      RankFalls(gates, rank, p);
    }
  }
}
