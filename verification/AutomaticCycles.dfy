/** The search for loops of automatic steps that a workflow is rejected for.

    A graph maps each automatic step to the automatic steps it can move to. The
    search keeps one set of steps being visited and one of steps already cleared,
    and walks successors in whatever order the sets deliver them. */
module AutomaticCycles {

  type Graph = map<nat, set<nat>>

  /** Every edge ends at a node of the graph. */
  predicate Closed(g: Graph) {
    forall v :: v in g ==> g[v] <= g.Keys
  }

  ghost predicate IsPath(g: Graph, p: seq<nat>) {
    && p != []
    && (forall k :: 0 <= k < |p| ==> p[k] in g)
    && (forall k :: 0 <= k < |p| - 1 ==> p[k] in g && p[k + 1] in g[p[k]])
  }

  ghost predicate IsCycle(g: Graph, p: seq<nat>) {
    |p| >= 2 && IsPath(g, p) && p[0] == p[|p| - 1]
  }

  ghost predicate HasCycle(g: Graph) {
    exists p :: IsCycle(g, p)
  }

  /** Nodes listed so that all successors of a node come before it. */
  ghost predicate Cleared(g: Graph, order: seq<nat>) {
    forall k :: 0 <= k < |order| ==> order[k] in g && forall w :: w in g[order[k]] ==> w in order[..k]
  }

  ghost function Rank(order: seq<nat>, v: nat): (k: nat)
    requires v in order
    ensures k < |order| && order[k] == v && v !in order[..k]
  {
    if order[0] == v then 0 else
      assert order == [order[0]] + order[1..];
      1 + Rank(order[1..], v)
  }

  lemma {:induction false} RankIsFirst(order: seq<nat>, j: nat)
    requires j < |order|
    ensures Rank(order, order[j]) <= j
  {
    if order[0] != order[j] {
      RankIsFirst(order[1..], j - 1);
    }
  }

  lemma {:induction false} PathDescends(g: Graph, order: seq<nat>, p: seq<nat>)
    requires Cleared(g, order) && IsPath(g, p) && |p| >= 2
    requires forall v :: v in g ==> v in order
    ensures p[0] in order && p[|p| - 1] in order
    ensures Rank(order, p[|p| - 1]) < Rank(order, p[0])
  {
    var i := Rank(order, p[0]);
    assert p[1] in g[p[0]];
    assert p[1] in order[..i];
    var j :| 0 <= j < i && order[j] == p[1];
    RankIsFirst(order, j);
    if |p| > 2 {
      assert IsPath(g, p[1..]) by {
        forall k | 0 <= k < |p[1..]| - 1 ensures p[1..][k] in g && p[1..][k + 1] in g[p[1..][k]] {
          assert p[1..][k] == p[k + 1] && p[1..][k + 1] == p[k + 2];
        }
      }
      PathDescends(g, order, p[1..]);
    }
  }

  lemma ClearedIsAcyclic(g: Graph, order: seq<nat>)
    requires Cleared(g, order)
    requires forall v :: v in g ==> v in order
    ensures !HasCycle(g)
  {
    forall p | IsCycle(g, p) ensures false {
      PathDescends(g, order, p);
    }
  }

  lemma SubPath(g: Graph, p: seq<nat>, i: nat, j: nat)
    requires IsPath(g, p) && i < j <= |p|
    ensures IsPath(g, p[i..j])
  {
    var q := p[i..j];
    forall k | 0 <= k < |q| - 1 ensures q[k] in g && q[k + 1] in g[q[k]] {
      assert q[k] == p[i + k] && q[k + 1] == p[i + k + 1];
    }
  }

  lemma RepeatClosesCycle(g: Graph, p: seq<nat>, i: nat, j: nat)
    requires IsPath(g, p) && i < j < |p|
    ensures p[i] == p[j] ==> HasCycle(g)
  {
    SubPath(g, p, i, j + 1);
    var q := p[i..j + 1];
    assert p[i] == p[j] ==> IsCycle(g, q);
  }

  lemma {:induction false} DistinctFitIn(p: seq<nat>, s: set<nat>)
    requires forall k :: 0 <= k < |p| ==> p[k] in s
    requires forall i, j :: 0 <= i < j < |p| ==> p[i] != p[j]
    ensures |p| <= |s|
  {
    if p != [] {
      var last := p[|p| - 1];
      DistinctFitIn(p[..|p| - 1], s - {last});
    }
  }

  /** Without a cycle no path is longer than the number of nodes. */
  lemma {:induction false} AcyclicPathsAreShort(g: Graph, p: seq<nat>)
    requires !HasCycle(g) && IsPath(g, p)
    ensures |p| <= |g|
  {
    forall i, j | 0 <= i < j < |p| ensures p[i] != p[j] {
      RepeatClosesCycle(g, p, i, j);
    }
    DistinctFitIn(p, g.Keys);
    assert |g.Keys| == |g|;
  }

  lemma ClearNext(g: Graph, order: seq<nat>, v: nat)
    requires Cleared(g, order) && v in g
    requires forall w :: w in g[v] ==> w in order
    ensures Cleared(g, order + [v])
  {
    var longer := order + [v];
    forall k, w | 0 <= k < |longer| && w in g[longer[k]] ensures w in longer[..k] {
      assert longer[..k] == order[..k];
    }
  }

  /** The depth-first search, with the two sets that its recursion updates. */
  class Search {
    const graph: Graph
    var visiting: set<nat>
    var visited: set<nat>
    ghost var order: seq<nat>  // the cleared steps, in the order they were cleared

    ghost predicate Valid()
      reads this
    {
      && Closed(graph) && visiting <= graph.Keys
      && Cleared(graph, order)
      && (forall v :: v in visited <==> v in order)
    }

    constructor (g: Graph)
      requires Closed(g)
      ensures Valid() && graph == g && visiting == {} && visited == {}
    {
      graph := g;
      visiting, visited, order := {}, {}, [];
    }

    /** `path` leads from a start to `idx` through the steps being visited. */
    method Visit(idx: nat, ghost path: seq<nat>) returns (found: bool)
      requires Valid() && IsPath(graph, path + [idx])
      requires forall v :: v in visiting <==> v in path
      modifies this
      ensures Valid()
      ensures found ==> HasCycle(graph)
      ensures !found ==> visiting == old(visiting) && old(visited) <= visited && idx in visited
      decreases graph.Keys - visiting
    {
      assert (path + [idx])[|path|] == idx;
      if idx in visiting {
        ClosesCycle(graph, path, idx);
        return true;
      }
      if idx in visited {
        return false;
      }
      visiting := visiting + {idx};
      var todo := graph[idx];
      while todo != {}
        invariant Valid() && visiting == old(visiting) + {idx} && old(visited) <= visited
        invariant todo <= graph[idx] && graph[idx] - todo <= visited
        decreases todo
      {
        var target :| target in todo;
        assert IsPath(graph, path + [idx] + [target]) by { ExtendPath(graph, path + [idx], target); }
        var hit := Visit(target, path + [idx]);
        if hit {
          return true;
        }
        todo := todo - {target};
      }
      visiting := visiting - {idx};
      visited := visited + {idx};
      ClearNext(graph, order, idx);
      order := order + [idx];
      return false;
    }

    /** True exactly when the graph has a cycle, whatever order the sets are walked in. */
    method FindsCycle() returns (cyclic: bool)
      requires Valid() && visiting == {} && visited == {}
      modifies this
      ensures cyclic <==> HasCycle(graph)
    {
      var todo := graph.Keys;
      while todo != {}
        invariant Valid() && visiting == {}
        invariant todo <= graph.Keys && graph.Keys - todo <= visited
        decreases todo
      {
        var idx :| idx in todo;
        assert [] + [idx] == [idx];
        var hit := Visit(idx, []);
        if hit {
          return true;
        }
        todo := todo - {idx};
      }
      ClearedIsAcyclic(graph, order);
      return false;
    }
  }

  lemma ExtendPath(g: Graph, p: seq<nat>, v: nat)
    requires Closed(g) && IsPath(g, p) && v in g[p[|p| - 1]]
    ensures IsPath(g, p + [v])
  {
  }

  lemma ClosesCycle(g: Graph, path: seq<nat>, idx: nat)
    requires IsPath(g, path + [idx]) && idx in path
    ensures HasCycle(g)
  {
    var k :| 0 <= k < |path| && path[k] == idx;
    RepeatClosesCycle(g, path + [idx], k, |path|);
  }
}
