/** Directed graphs over identifiers, given by the successors of each present node, and paths in them. */
module Graphs {
  import opened Sequences

  type Graph = map<string, seq<string>>

  /** A node and what it depends on. */
  datatype Node = Node(id: string, dependsOn: seq<string>)

  /** Later nodes win, as in a map built from a list of pairs. */
  function ById(nodes: seq<Node>): (g: Graph)
    ensures forall id | id in g :: exists k :: 0 <= k < |nodes| && nodes[k].id == id
    ensures forall k | 0 <= k < |nodes| :: nodes[k].id in g
  {
    if nodes == [] then map[]
    else
      var last := nodes[|nodes| - 1];
      ById(nodes[..|nodes| - 1])[last.id := last.dependsOn]
  }

  ghost predicate UniqueIds(nodes: seq<Node>) {
    forall i, j | 0 <= i < j < |nodes| :: nodes[i].id != nodes[j].id
  }

  lemma UniqueIdsPush(front: seq<Node>, last: Node)
    ensures UniqueIds(front + [last]) <==> UniqueIds(front) && last.id !in ById(front)
  {
    var nodes := front + [last];
    if UniqueIds(nodes) {
      forall i | 0 <= i < |front| ensures front[i].id != last.id {
        assert nodes[i].id != nodes[|front|].id;
      }
      assert forall i | 0 <= i < |front| :: nodes[i] == front[i];
    }
    if UniqueIds(front) && last.id !in ById(front) {
      forall i, j | 0 <= i < j < |nodes| ensures nodes[i].id != nodes[j].id {
        assert front[i].id in ById(front);
      }
    }
  }

  lemma KeysPush(g: Graph, id: string, dependsOn: seq<string>)
    ensures |g[id := dependsOn]| == |g| + if id in g then 0 else 1
  {}

  lemma {:induction false} SizeCountsIds(nodes: seq<Node>)
    ensures |ById(nodes)| <= |nodes|
    ensures |ById(nodes)| == |nodes| <==> UniqueIds(nodes)
  {
    if nodes != [] {
      var front, last := nodes[..|nodes| - 1], nodes[|nodes| - 1];
      SizeCountsIds(front);
      KeysPush(ById(front), last.id, last.dependsOn);
      UniqueIdsPush(front, last);
      SplitLast(nodes);
    }
  }

  lemma {:induction false} LookupNode(nodes: seq<Node>, k: nat)
    requires UniqueIds(nodes) && k < |nodes|
    ensures ById(nodes)[nodes[k].id] == nodes[k].dependsOn
  {
    if k < |nodes| - 1 {
      LookupNode(nodes[..|nodes| - 1], k);
    }
  }

  predicate Edge(g: Graph, a: string, b: string) {
    a in g && b in g[a]
  }

  ghost predicate IsPath(g: Graph, p: seq<string>) {
    forall i | 0 <= i < |p| - 1 :: Edge(g, p[i], p[i + 1])
  }

  /** p leads from a to b over at least one edge. */
  ghost predicate PathFrom(g: Graph, p: seq<string>, a: string, b: string) {
    |p| >= 2 && p[0] == a && p[|p| - 1] == b && IsPath(g, p)
  }

  ghost predicate Leads(g: Graph, a: string, b: string) {
    exists p :: PathFrom(g, p, a, b)
  }

  ghost predicate OnCycle(g: Graph, a: string) {
    Leads(g, a, a)
  }

  lemma EdgeLeads(g: Graph, a: string, b: string)
    requires Edge(g, a, b)
    ensures Leads(g, a, b)
  {
    assert PathFrom(g, [a, b], a, b);
  }

  lemma LeadsTransitive(g: Graph, a: string, b: string, c: string)
    requires Leads(g, a, b) && Leads(g, b, c)
    ensures Leads(g, a, c)
  {
    var p :| PathFrom(g, p, a, b);
    var q :| PathFrom(g, q, b, c);
    var r := p + q[1..];
    forall i | 0 <= i < |r| - 1 ensures Edge(g, r[i], r[i + 1]) {
      if i >= |p| - 1 {
        assert Edge(g, q[i - |p| + 1], q[i - |p| + 2]);
      }
    }
    assert PathFrom(g, r, a, c);
  }

  /** Each node comes after everything it points to, and comes once. */
  ghost predicate TopologicalOrder(g: Graph, order: seq<string>) {
    && (forall i, j | 0 <= i < j < |order| :: order[i] != order[j])
    && (forall i | 0 <= i < |order| :: order[i] in g && forall d | d in g[order[i]] :: d in order[..i])
  }

  lemma TopologicalPush(g: Graph, order: seq<string>, id: string)
    requires TopologicalOrder(g, order)
    requires id in g && id !in order && forall d | d in g[id] :: d in order
    ensures TopologicalOrder(g, order + [id])
  {
    var order' := order + [id];
    forall i, d | 0 <= i < |order'| && d in g[order'[i]] ensures d in order'[..i] {
      assert order'[..|order|] == order;
      if i < |order| {
        assert order'[..i] == order[..i];
      }
    }
  }
}
