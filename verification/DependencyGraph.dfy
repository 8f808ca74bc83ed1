/** The inventory's module dependency check: a depth-first search that refuses cycles. */
module DependencyGraph {

  /** Every module with the modules it depends on, in the order they were declared. */
  type Graph = map<string, seq<string>>

  predicate Closed(g: Graph) {
    forall id, k :: id in g && 0 <= k < |g[id]| ==> g[id][k] in g
  }

  predicate DependsOn(g: Graph, a: string, b: string) {
    a in g && b in g[a]
  }

  ghost predicate IsPath(g: Graph, p: seq<string>) {
    forall i :: 0 < i < |p| ==> DependsOn(g, p[i - 1], p[i])
  }

  ghost predicate IsCycle(g: Graph, p: seq<string>) {
    |p| >= 2 && p[0] == p[|p| - 1] && IsPath(g, p)
  }

  ghost predicate Acyclic(g: Graph) {
    forall p :: !IsCycle(g, p)
  }

  /** Every module listed comes after everything it depends on. */
  ghost predicate Layered(g: Graph, order: seq<string>) {
    forall i, b :: 0 <= i < |order| && DependsOn(g, order[i], b) ==> b in order[..i]
  }

  lemma LayeredExtends(g: Graph, order: seq<string>, id: string)
    requires Layered(g, order)
    requires id in g && forall b :: b in g[id] ==> b in order
    ensures Layered(g, order + [id])
  {
    var longer := order + [id];
    forall i, b | 0 <= i < |longer| && DependsOn(g, longer[i], b)
      ensures b in longer[..i]
    {
      assert longer[..i] == order[..i];
      if i < |order| {
        assert DependsOn(g, order[i], b);
      } else {
        assert order[..i] == order;
      }
    }
  }

  /** Along a path the position in a layered order only falls. */
  lemma {:induction false} PathDescends(g: Graph, order: seq<string>, p: seq<string>, i: nat)
    requires Layered(g, order) && IsPath(g, p) && |p| >= 2
    requires i < |order| && order[i] == p[0]
    ensures p[|p| - 1] in order[..i]
    decreases |p|
  {
    assert DependsOn(g, p[0], p[1]);
    assert p[1] in order[..i];
    if |p| > 2 {
      var j :| 0 <= j < i && order[..i][j] == p[1];
      var rest := p[1..];
      forall k | 0 < k < |rest| ensures DependsOn(g, rest[k - 1], rest[k]) {
        assert DependsOn(g, p[k], p[k + 1]);
      }
      PathDescends(g, order, rest, j);
      assert order[..j] <= order[..i];
    }
  }

  /** A layered order that lists every module rules out every cycle. */
  lemma LayeredIsAcyclic(g: Graph, order: seq<string>)
    requires Layered(g, order) && forall id :: id in g ==> id in order
    ensures Acyclic(g)
  {
    forall p ensures !IsCycle(g, p) {
      if IsCycle(g, p) {
        assert DependsOn(g, p[0], p[1]);
        var i := FirstIndex(order, p[0]);
        PathDescends(g, order, p, i);
      }
    }
  }

  ghost function FirstIndex(order: seq<string>, id: string): (i: nat)
    requires id in order
    ensures i < |order| && order[i] == id && id !in order[..i]
  {
    if order[0] == id then 0 else 1 + FirstIndex(order[1..], id)
  }

  /** Following a path and then one more dependency is a path. */
  lemma PathExtends(g: Graph, p: seq<string>, id: string)
    requires IsPath(g, p) && (p != [] ==> DependsOn(g, p[|p| - 1], id))
    ensures IsPath(g, p + [id])
  {
    var longer := p + [id];
    forall i | 0 < i < |longer| ensures DependsOn(g, longer[i - 1], longer[i]) {
      if i < |p| {
        assert DependsOn(g, p[i - 1], p[i]);
      }
    }
  }

  /** Coming back to a module still being visited closes a cycle. */
  lemma RevisitIsCycle(g: Graph, stack: seq<string>, id: string)
    requires IsPath(g, stack) && id in stack && DependsOn(g, stack[|stack| - 1], id)
    ensures !Acyclic(g)
  {
    var i :| 0 <= i < |stack| && stack[i] == id;
    PathExtends(g, stack, id);
    var cycle := (stack + [id])[i..];
    forall k | 0 < k < |cycle| ensures DependsOn(g, cycle[k - 1], cycle[k]) {
      assert DependsOn(g, (stack + [id])[i + k - 1], (stack + [id])[i + k]);
    }
    assert IsCycle(g, cycle);
  }

  /** The two sets the search marks modules with, and the ghost facts that explain them. */
  class DependencyCheck {
    const graph: Graph
    var visited: set<string>
    var visiting: set<string>
    ghost var order: seq<string>
    ghost var stack: seq<string>

    constructor (g: Graph)
      requires Closed(g)
      ensures graph == g && visited == {} && visiting == {} && stack == [] && Valid()
    {
      graph := g;
      visited, visiting := {}, {};
      order, stack := [], [];
    }

    ghost predicate Valid()
      reads this
    {
      && Closed(graph)
      && (forall id :: id in visited <==> id in order)
      && (forall id :: id in visiting <==> id in stack)
      && visited <= graph.Keys && visiting <= graph.Keys
      && visited !! visiting
      && Layered(graph, order)
      && IsPath(graph, stack)
    }

    /** A module whose dependencies are about to be followed. */
    method Enter(id: string)
      requires Valid() && id in graph && id !in visiting && id !in visited
      requires stack != [] ==> DependsOn(graph, stack[|stack| - 1], id)
      modifies this
      ensures Valid() && visited == old(visited) && order == old(order)
      ensures visiting == old(visiting) + {id} && stack == old(stack) + [id]
      ensures |graph.Keys - visiting| < |graph.Keys - old(visiting)|
    {
      PathExtends(graph, stack, id);
      SmallerSet(graph.Keys - (visiting + {id}), graph.Keys - visiting, id);
      visiting := visiting + {id};
      stack := stack + [id];
    }

    /** A module all of whose dependencies have been visited. */
    method Leave(id: string)
      requires Valid() && id in graph && id in visiting && stack != [] && stack[|stack| - 1] == id
      requires id !in stack[..|stack| - 1] && forall b :: b in graph[id] ==> b in visited
      modifies this
      ensures Valid() && visiting == old(visiting) - {id} && stack == old(stack)[..|old(stack)| - 1]
      ensures visited == old(visited) + {id} && order == old(order) + [id]
    {
      LayeredExtends(graph, order, id);
      assert stack == stack[..|stack| - 1] + [id];
      visiting := visiting - {id};
      visited := visited + {id};
      stack := stack[..|stack| - 1];
      order := order + [id];
    }

    /** Refuses exactly when the search came back to a module it had not finished. */
    method Visit(id: string) returns (ok: bool)
      requires Valid() && id in graph
      requires stack != [] ==> DependsOn(graph, stack[|stack| - 1], id)
      modifies this
      ensures ok ==> Valid() && stack == old(stack) && visiting == old(visiting)
      ensures ok ==> id in visited && old(visited) <= visited
      ensures !ok ==> !Acyclic(graph)
      decreases |graph.Keys - visiting|, 0
    {
      if id in visiting {
        RevisitIsCycle(graph, stack, id);
        return false;
      }
      if id in visited {
        return true;
      }
      Enter(id);
      assert stack[..|stack| - 1] == old(stack);
      ok := Follow(id);
      if ok {
        Leave(id);
      }
    }

    /** Visits everything the innermost module depends on. */
    method Follow(id: string) returns (ok: bool)
      requires Valid() && id in graph && stack != [] && stack[|stack| - 1] == id
      modifies this
      ensures ok ==> Valid() && stack == old(stack) && visiting == old(visiting)
      ensures ok ==> old(visited) <= visited && forall b :: b in graph[id] ==> b in visited
      ensures !ok ==> !Acyclic(graph)
      decreases |graph.Keys - visiting|, 1
    {
      for k := 0 to |graph[id]|
        invariant Valid() && stack == old(stack) && visiting == old(visiting) && old(visited) <= visited
        invariant forall j :: 0 <= j < k ==> graph[id][j] in visited
      {
        assert DependsOn(graph, id, graph[id][k]);
        assert graph[id][k] in graph;
        var fine := Visit(graph[id][k]);
        if !fine {
          return false;
        }
      }
      return true;
    }
  }

  lemma SmallerSet<T>(a: set<T>, b: set<T>, extra: T)
    requires a <= b && extra in b && extra !in a
    ensures |a| < |b|
  {
    var rest := b - a;
    assert b == a + rest && extra in rest;
  }

  /** The whole check: accepted exactly when no module depends on itself through others. */
  method AcceptsDependencies(g: Graph, ids: seq<string>) returns (accepted: bool)
    requires Closed(g) && forall id :: id in g <==> id in ids
    ensures accepted <==> Acyclic(g)
  {
    var check := new DependencyCheck(g);
    for k := 0 to |ids|
      invariant check.Valid() && check.stack == [] && check.graph == g
      invariant forall j :: 0 <= j < k ==> ids[j] in check.visited
    {
      var fine := check.Visit(ids[k]);
      if !fine {
        return false;
      }
    }
    LayeredIsAcyclic(g, check.order);
    return true;
  }
}
