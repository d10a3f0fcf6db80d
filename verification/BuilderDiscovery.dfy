/** Discovery of a described system: the object types a request needs are the least set that holds
    the types of the requested operations and is closed under their dependencies. */
module BuilderDiscovery {
  import opened Options
  import opened Sequences
  import opened Sorting
  import opened Graphs

  // ---------------------------------------------------------------- dependency closure

  ghost predicate Needed(g: Graph, seed: seq<string>, t: string) {
    t in seed || exists s :: s in seed && Leads(g, s, t)
  }

  /** Every dependency of a member is a member. */
  ghost predicate Closed(g: Graph, types: set<string>) {
    forall a, b | a in types && Edge(g, a, b) :: b in types
  }

  function Targets(g: Graph): set<string> {
    set a, b | a in g && b in g[a] :: b
  }

  lemma NeededStep(g: Graph, seed: seq<string>, a: string, b: string)
    requires Needed(g, seed, a) && Edge(g, a, b)
    ensures Needed(g, seed, b)
  {
    EdgeLeads(g, a, b);
    if a !in seed {
      var s :| s in seed && Leads(g, s, a);
      LeadsTransitive(g, s, a, b);
    }
  }

  lemma {:induction false} PathStaysInside(g: Graph, types: set<string>, p: seq<string>)
    requires Closed(g, types) && IsPath(g, p) && p != [] && p[0] in types
    ensures p[|p| - 1] in types
  {
    if |p| > 1 {
      assert Edge(g, p[0], p[1]);
      forall i | 0 <= i < |p[1..]| - 1 ensures Edge(g, p[1..][i], p[1..][i + 1]) {
        assert Edge(g, p[i + 1], p[i + 2]);
      }
      PathStaysInside(g, types, p[1..]);
    }
  }

  /** A closed set holding the seed holds everything needed. */
  lemma NeededIsLeast(g: Graph, seed: seq<string>, types: set<string>, t: string)
    requires Closed(g, types) && (forall s | s in seed :: s in types)
    requires Needed(g, seed, t)
    ensures t in types
  {
    if t !in seed {
      var s :| s in seed && Leads(g, s, t);
      var p :| PathFrom(g, p, s, t);
      PathStaysInside(g, types, p);
    }
  }

  /** Each selected type is pending or has all its dependencies selected. */
  ghost predicate Swept(g: Graph, selected: set<string>, pending: seq<string>) {
    forall a, b | a in selected && Edge(g, a, b) :: a in pending || b in selected
  }

  /** What the worklist keeps: pending types are selected, selected types are needed, and whatever is
      not pending any more has been swept. */
  ghost predicate Consistent(g: Graph, seed: seq<string>, universe: set<string>, selected: set<string>, pending: seq<string>) {
    && selected <= universe
    && (forall t | t in pending || t in seed :: t in selected)
    && (forall t | t in selected :: Needed(g, seed, t))
    && Swept(g, selected, pending)
  }

  /** Selects the dependencies of one type that are not selected yet. */
  method Expand(g: Graph, ghost seed: seq<string>, ghost universe: set<string>, current: string,
                selected: set<string>, pending: seq<string>) returns (selected': set<string>, pending': seq<string>)
    requires current in selected && Consistent(g, seed, universe, selected, pending + [current])
    requires Targets(g) <= universe
    ensures Consistent(g, seed, universe, selected', pending')
    ensures selected <= selected' && (selected' == selected ==> pending' == pending)
  {
    var dependencies := if current in g then g[current] else [];
    selected', pending' := selected, pending;
    for i := 0 to |dependencies|
      invariant Consistent(g, seed, universe, selected', pending' + [current])
      invariant selected <= selected' && (selected' == selected ==> pending' == pending)
      invariant forall k | 0 <= k < i :: dependencies[k] in selected'
    {
      var dependency := dependencies[i];
      if dependency !in selected' {
        SelectKeepsConsistent(g, seed, universe, selected', pending', current, dependency);
        selected' := selected' + {dependency};
        pending' := pending' + [dependency];
      }
    }
    SweptKeepsConsistent(g, seed, universe, selected', pending', current);
  }

  lemma SelectKeepsConsistent(g: Graph, seed: seq<string>, universe: set<string>, selected: set<string>,
                              pending: seq<string>, current: string, dependency: string)
    requires Consistent(g, seed, universe, selected, pending + [current])
    requires Edge(g, current, dependency) && Targets(g) <= universe
    ensures Consistent(g, seed, universe, selected + {dependency}, (pending + [dependency]) + [current])
  {
    assert current in pending + [current];
    NeededStep(g, seed, current, dependency);
    assert forall t | t in pending + [current] :: t in (pending + [dependency]) + [current];
  }

  lemma SweptKeepsConsistent(g: Graph, seed: seq<string>, universe: set<string>, selected: set<string>,
                             pending: seq<string>, current: string)
    requires Consistent(g, seed, universe, selected, pending + [current])
    requires forall d | Edge(g, current, d) :: d in selected
    ensures Consistent(g, seed, universe, selected, pending)
  {
    assert forall t | t in pending :: t in pending + [current];
    forall a, b | a in selected && Edge(g, a, b) ensures a in pending || b in selected {
      assert a in pending + [current] || b in selected;
    }
  }

  method DependencyClosure(seed: seq<string>, objects: seq<Node>) returns (selected: set<string>)
    ensures forall t :: t in selected <==> Needed(ById(objects), seed, t)
    ensures Closed(ById(objects), selected)
  {
    var byType := ById(objects);
    selected := set s | s in seed;
    var pending := seed;
    ghost var universe := selected + Targets(byType);
    while pending != []
      invariant Consistent(byType, seed, universe, selected, pending)
      decreases |universe - selected|, |pending|
    {
      var rest, current := pending[..|pending| - 1], pending[|pending| - 1];
      SplitLast(pending);
      var grown, pending' := Expand(byType, seed, universe, current, selected, rest);
      Shrinks(universe, selected, grown);
      selected, pending := grown, pending';
    }
    NeededInside(byType, seed, selected);
  }

  lemma NeededInside(g: Graph, seed: seq<string>, selected: set<string>)
    requires Closed(g, selected) && forall s | s in seed :: s in selected
    ensures forall t | Needed(g, seed, t) :: t in selected
  {
    forall t | Needed(g, seed, t) ensures t in selected {
      NeededIsLeast(g, seed, selected, t);
    }
  }

  lemma Shrinks(universe: set<string>, small: set<string>, big: set<string>)
    requires small <= big <= universe
    ensures small == big || |universe - big| < |universe - small|
  {
    if small != big {
      assert universe - big < universe - small;
      ProperSubsetSmaller(universe - big, universe - small);
    }
  }

  lemma ProperSubsetSmaller(a: set<string>, b: set<string>)
    requires a < b
    ensures |a| < |b|
  {
    assert b == a + (b - a);
    assert |b - a| > 0;
  }
}
