/**
 The dependency graph of a runtime composition and the depth-first ordering that
 resolve_runtime_composition computes with its inner visit.
 */
module CompositionGraph {

  type Id = string

  /** consumer -> its providers */
  type Graph = map<Id, set<Id>>

  predicate Closed(g: Graph) {
    forall p | p in g :: g[p] <= g.Keys
  }

  predicate IsPath(g: Graph, path: seq<Id>) {
    && path != []
    && (forall i | 0 <= i < |path| :: path[i] in g)
    && (forall i | 0 <= i < |path| - 1 :: path[i + 1] in g[path[i]])
  }

  ghost predicate Reaches(g: Graph, a: Id, b: Id) {
    exists path :: IsPath(g, path) && path[0] == a && path[|path| - 1] == b
  }

  predicate IsCycle(g: Graph, path: seq<Id>) {
    |path| >= 2 && IsPath(g, path) && path[0] == path[|path| - 1]
  }

  ghost predicate Acyclic(g: Graph) {
    forall path :: !IsCycle(g, path)
  }

  ghost predicate Connected(g: Graph, root: Id) {
    forall p | p in g :: Reaches(g, root, p)
  }

  predicate Distinct(order: seq<Id>) {
    forall i, j | 0 <= i < j < |order| :: order[i] != order[j]
  }

  /** Every provider stands before each of its consumers. */
  predicate ProvidersFirst(g: Graph, order: seq<Id>) {
    forall i | 0 <= i < |order| :: order[i] in g && forall q | q in g[order[i]] :: q in order[..i]
  }

  function Elements(order: seq<Id>): set<Id> {
    set p | p in order
  }

  // ------------------------------------------------------------------
  // Paths
  // ------------------------------------------------------------------

  lemma PathStarts(g: Graph, p: Id)
    requires p in g
    ensures Reaches(g, p, p)
  {
    assert IsPath(g, [p]) && [p][0] == p;
  }

  lemma PathPrepends(g: Graph, a: Id, b: Id, c: Id)
    requires a in g && b in g[a] && Reaches(g, b, c)
    ensures Reaches(g, a, c)
  {
    var path :| IsPath(g, path) && path[0] == b && path[|path| - 1] == c;
    var longer := [a] + path;
    assert IsPath(g, longer) && longer[0] == a && longer[|longer| - 1] == c;
  }

  /** Everything added from older to newer is reachable from p. */
  ghost predicate AllBelow(g: Graph, p: Id, newer: set<Id>, older: set<Id>) {
    forall q | q in newer && q !in older :: Reaches(g, p, q)
  }

  lemma BelowProvider(g: Graph, p: Id, provider: Id, newest: set<Id>, newer: set<Id>, older: set<Id>)
    requires p in g && provider in g[p]
    requires AllBelow(g, provider, newest, newer) && AllBelow(g, p, newer, older)
    ensures AllBelow(g, p, newest, older)
  {
    forall q | q in newest && q !in older ensures Reaches(g, p, q) {
      if q !in newer { PathPrepends(g, p, provider, q); }
    }
  }

  /** An edge back into the path being walked closes a cycle. */
  lemma CycleThrough(g: Graph, stack: seq<Id>, p: Id)
    requires IsPath(g, stack) && p in stack && p in g[stack[|stack| - 1]]
    ensures exists path :: IsCycle(g, path)
  {
    var k :| 0 <= k < |stack| && stack[k] == p;
    assert IsCycle(g, stack[k..] + [p]);
  }

  lemma PathEnters(g: Graph, stack: seq<Id>, p: Id)
    requires p in g && (stack != [] ==> IsPath(g, stack) && p in g[stack[|stack| - 1]])
    ensures IsPath(g, stack + [p])
    ensures Elements(stack + [p]) == Elements(stack) + {p}
  {
  }

  /** In a provider-first order, walking a path means moving to ever earlier positions. */
  lemma {:induction false} PathDescends(g: Graph, order: seq<Id>, path: seq<Id>, at: nat)
    returns (position: nat)
    requires Distinct(order) && ProvidersFirst(g, order)
    requires IsPath(g, path) && at < |order| && path[0] == order[at]
    ensures position <= at && position < |order| && order[position] == path[|path| - 1]
    ensures |path| >= 2 ==> position < at
    decreases |path|
  {
    if |path| == 1 {
      position := at;
    } else {
      assert path[1] in g[path[0]];
      var next :| 0 <= next < at && order[next] == path[1];
      position := PathDescends(g, order, path[1..], next);
    }
  }

  /** A provider-first order excludes every cycle through its members, and holds all they reach. */
  lemma OrderExcludesCycles(g: Graph, order: seq<Id>, path: seq<Id>)
    requires Distinct(order) && ProvidersFirst(g, order)
    requires IsPath(g, path) && path[0] in order
    ensures !IsCycle(g, path)
    ensures path[|path| - 1] in order
  {
    var at :| 0 <= at < |order| && order[at] == path[0];
    var position := PathDescends(g, order, path, at);
  }

  // ------------------------------------------------------------------
  // visit
  // ------------------------------------------------------------------

  /** The variables that the inner visit function closes over. */
  class Ordering {
    const graph: Graph
    var visiting: set<Id>
    var visited: set<Id>
    var order: seq<Id>
    ghost var stack: seq<Id>

    ghost predicate Valid()
      reads this
    {
      && Closed(graph)
      && visiting == Elements(stack)
      && (stack != [] ==> IsPath(graph, stack))
      && visiting !! visited
      && visited == Elements(order)
      && visited <= graph.Keys
      && Distinct(order)
      && ProvidersFirst(graph, order)
    }

    constructor (graph: Graph)
      requires Closed(graph)
      ensures Valid() && this.graph == graph && stack == [] && order == []
    {
      this.graph := graph;
      visiting, visited, order, stack := {}, {}, [], [];
    }

    /** Append profileId and everything below it, in any order of its providers; report a cycle. */
    method Visit(profileId: Id) returns (acyclic: bool)
      requires Valid() && profileId in graph
      requires stack != [] ==> profileId in graph[stack[|stack| - 1]]
      modifies this
      ensures acyclic ==> Valid() && stack == old(stack)
      ensures acyclic ==> profileId in visited && old(order) <= order
      ensures acyclic ==> old(visited) <= visited && AllBelow(graph, profileId, visited, old(visited))
      ensures acyclic && profileId !in old(visited) ==> order != [] && order[|order| - 1] == profileId
      ensures !acyclic ==> exists path :: IsCycle(graph, path)
      decreases graph.Keys - visiting
    {
      if profileId in visiting {
        CycleThrough(graph, stack, profileId);
        return false;
      }
      if profileId in visited {
        return true;
      }
      ghost var entry := stack;
      PathEnters(graph, entry, profileId);
      visiting := visiting + {profileId};
      stack := stack + [profileId];
      ghost var before, start := visited, order;
      var remaining := graph[profileId];
      PathStarts(graph, profileId);
      while remaining != {}
        invariant Valid() && stack == entry + [profileId]
        invariant remaining <= graph[profileId] && graph[profileId] - remaining <= visited
        invariant start <= order && before <= visited
        invariant AllBelow(graph, profileId, visited, before)
        decreases remaining
      {
        var providerId :| providerId in remaining;
        ghost var sofar := visited;
        acyclic := Visit(providerId);
        if !acyclic { return; }
        BelowProvider(graph, profileId, providerId, visited, sofar, before);
        remaining := remaining - {providerId};
      }
      visiting := visiting - {profileId};
      stack := entry;
      Leave(profileId, entry, order);
      visited := visited + {profileId};
      order := order + [profileId];
      return true;
    }

    /** Closing a profile whose providers are all ordered keeps the bookkeeping consistent. */
    lemma Leave(profileId: Id, entry: seq<Id>, sofar: seq<Id>)
      requires Closed(graph) && profileId in graph
      requires Distinct(sofar) && ProvidersFirst(graph, sofar)
      requires profileId !in sofar && profileId !in entry
      requires graph[profileId] <= Elements(sofar)
      ensures Distinct(sofar + [profileId]) && ProvidersFirst(graph, sofar + [profileId])
      ensures Elements(sofar + [profileId]) == Elements(sofar) + {profileId}
      ensures Elements(entry + [profileId]) - {profileId} == Elements(entry)
    {
      var next := sofar + [profileId];
      forall i | 0 <= i < |next| ensures next[i] in graph && forall q | q in graph[next[i]] :: q in next[..i] {
        if i < |sofar| {
          assert next[i] == sofar[i] && next[..i] == sofar[..i];
        } else {
          assert next[..i] == sofar;
        }
      }
    }
  }

  datatype GraphResult = Ordered(order: seq<Id>) | Cyclic | Disconnected

  /** The end of resolve_runtime_composition: order from the root, then check that nothing is left over.
      Success is exactly an acyclic graph that the root reaches in full. */
  method Order(graph: Graph, root: Id) returns (result: GraphResult)
    requires Closed(graph) && root in graph
    ensures result.Ordered? <==> Acyclic(graph) && Connected(graph, root)
    ensures result.Ordered? ==>
              && Distinct(result.order) && Elements(result.order) == graph.Keys
              && ProvidersFirst(graph, result.order)
              && result.order != [] && result.order[|result.order| - 1] == root
    ensures result.Cyclic? ==> !Acyclic(graph)
    ensures result.Disconnected? ==> !Connected(graph, root)
  {
    var ordering := new Ordering(graph);
    var acyclic := ordering.Visit(root);
    if !acyclic { return Cyclic; }
    var order := ordering.order;
    Complete(graph, root, order);
    if ordering.visited != graph.Keys { return Disconnected; }
    return Ordered(order);
  }

  /** A provider-first order of what the root reaches decides both promises at once. */
  lemma Complete(g: Graph, root: Id, order: seq<Id>)
    requires Closed(g) && root in order && Distinct(order) && ProvidersFirst(g, order)
    requires forall p | p in order :: p in g && Reaches(g, root, p)
    ensures Elements(order) == g.Keys <==> Connected(g, root)
    ensures Elements(order) == g.Keys ==> Acyclic(g)
  {
    forall p | p in g && Reaches(g, root, p) ensures p in order {
      var path :| IsPath(g, path) && path[0] == root && path[|path| - 1] == p;
      OrderExcludesCycles(g, order, path);
    }
    if Elements(order) == g.Keys {
      forall path ensures !IsCycle(g, path) {
        if IsPath(g, path) {
          assert path[0] in g.Keys;
          OrderExcludesCycles(g, order, path);
        }
      }
    }
  }
}
