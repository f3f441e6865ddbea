/**
 The dependency-closure oracle: a depth-first search that keeps the nodes on the current path and
 the finished nodes in two sets, and raises when it meets a node on the path.
 */
module Closure {
  import opened Collections
  import opened Order
  import opened Wrappers

  /** b can be reached from a along prerequisites, in any number of steps, none included. */
  ghost predicate Reachable(graph: Graph, a: int, b: int) {
    exists w :: IsWalk(graph, w) && w != [] && w[0] == a && w[|w| - 1] == b
  }

  ghost predicate CycleFrom(graph: Graph, a: int) {
    exists c :: IsCycle(graph, c) && Reachable(graph, a, c[0])
  }

  // ---- Walks ----

  lemma WalksJoin(graph: Graph, v: seq<int>, w: seq<int>)
    requires IsWalk(graph, v) && IsWalk(graph, w) && v != [] && w != [] && v[|v| - 1] == w[0]
    ensures IsWalk(graph, v + w[1..])
  {
    var joined := v + w[1..];
    forall i, j | 0 <= i && j == i + 1 < |joined|
      ensures joined[j] in Deps(graph, joined[i])
    {
      if j < |v| {
        assert v[j] in Deps(graph, v[i]);
      } else {
        assert w[j - |v| + 1] in Deps(graph, w[j - |v|]);
      }
    }
  }

  lemma ReachableTransitive(graph: Graph, a: int, b: int, c: int)
    requires Reachable(graph, a, b) && Reachable(graph, b, c)
    ensures Reachable(graph, a, c)
  {
    var v :| IsWalk(graph, v) && v != [] && v[0] == a && v[|v| - 1] == b;
    var w :| IsWalk(graph, w) && w != [] && w[0] == b && w[|w| - 1] == c;
    WalksJoin(graph, v, w);
    var joined := v + w[1..];
    assert joined[0] == a && joined[|joined| - 1] == c;
  }

  lemma ReachableSelf(graph: Graph, a: int)
    ensures Reachable(graph, a, a)
  {
    assert IsWalk(graph, [a]) && [a][0] == a && [a][|[a]| - 1] == a;
  }

  lemma ReachableStep(graph: Graph, a: int, b: int)
    requires b in Deps(graph, a)
    ensures Reachable(graph, a, b)
  {
    var w := [a, b];
    assert IsWalk(graph, w) && w[0] == a && w[|w| - 1] == b;
  }

  lemma {:induction false} ClosedUnderReach(graph: Graph, closed: set<int>, w: seq<int>)
    requires (forall k | k in closed :: Deps(graph, k) <= closed) && IsWalk(graph, w) && w != [] && w[0] in closed
    ensures w[|w| - 1] in closed
    decreases |w|
  {
    if |w| > 1 {
      assert w[1] in Deps(graph, w[0]);
      WalkTail(graph, w);
      ClosedUnderReach(graph, closed, w[1..]);
    }
  }

  // ---- The search ----

  /** The finished nodes in the order they were finished: each after its prerequisites. */
  ghost predicate Finished(graph: Graph, finished: seq<int>, seen: set<int>) {
    Elements(finished) == seen && Distinct(finished) && DepsFirst(graph, finished)
  }

  lemma FinishOne(graph: Graph, finished: seq<int>, seen: set<int>, n: int)
    requires Finished(graph, finished, seen) && n !in seen && Deps(graph, n) <= seen
    ensures Finished(graph, finished + [n], seen + {n})
  {
    var more := finished + [n];
    assert Elements(more) == Elements(finished) + {n};
    forall i | 0 <= i < |more|
      ensures Deps(graph, more[i]) <= Elements(more[..i])
    {
      assert more[..i] == finished[..i];
      assert i == |finished| ==> finished[..i] == finished;
    }
  }

  lemma FinishedIsClosed(graph: Graph, finished: seq<int>, seen: set<int>)
    requires Finished(graph, finished, seen)
    ensures forall k | k in seen :: Deps(graph, k) <= seen
  {
    forall k | k in seen
      ensures Deps(graph, k) <= seen
    {
      var i :| 0 <= i < |finished| && finished[i] == k;
      assert Elements(finished[..i]) <= Elements(finished);
    }
  }

  /** Meeting a node of the path closes a cycle that is reachable from where the path starts. */
  lemma PathClosesCycle(graph: Graph, path: seq<int>, n: int)
    requires IsWalk(graph, path + [n]) && n in path
    ensures CycleFrom(graph, path[0])
  {
    var i :| 0 <= i < |path| && path[i] == n;
    var whole := path + [n];
    var c, w := whole[i..], whole[..i + 1];
    assert IsWalk(graph, c) && IsWalk(graph, w) by {
      forall a, b | 0 <= a && b == a + 1 < |c|
        ensures c[b] in Deps(graph, c[a])
      {
        assert whole[i + b] in Deps(graph, whole[i + a]);
      }
    }
    assert IsCycle(graph, c) && w[0] == path[0] && w[|w| - 1] == c[0];
  }

  class Visitor {
    const graph: Graph
    var seen: set<int>
    var active: set<int>
    ghost var finished: seq<int>

    constructor (graph: Graph)
      ensures this.graph == graph && seen == {} && active == {} && finished == []
    {
      this.graph := graph;
      seen, active, finished := {}, {}, [];
    }

    ghost predicate Valid(path: seq<int>)
      reads this
    {
      Finished(graph, finished, seen) && active == Elements(path) && seen !! active
    }

    /** visit(n), reached along `path`; false when it raised. */
    method Visit(n: int, ghost path: seq<int>, ghost universe: set<int>) returns (ok: bool)
      requires Valid(path) && IsWalk(graph, path + [n])
      requires n in universe && Nodes(graph) <= universe
      modifies this
      ensures ok ==> Valid(path) && n in seen && old(seen) <= seen && NewReachable(graph, n, old(seen), seen)
      ensures !ok ==> CycleFrom(graph, (path + [n])[0])
      decreases |universe - Elements(path)|, 0
    {
      if n in active {
        PathClosesCycle(graph, path, n);
        return false;
      }
      if n in seen {
        return true;
      }
      EnterNode(universe, active, n);
      AppendElement(path, n);
      active := active + {n};
      ok := VisitChildren(n, path + [n], universe);
      if !ok {
        return false;
      }
      FinishOne(graph, finished, seen, n);
      ReachableSelf(graph, n);
      active := active - {n};
      seen := seen + {n};
      finished := finished + [n];
    }

    /** The loop of visit over the prerequisites of n, the last node of `path`. */
    method VisitChildren(n: int, ghost path: seq<int>, ghost universe: set<int>) returns (ok: bool)
      requires Valid(path) && IsWalk(graph, path) && path != [] && path[|path| - 1] == n
      requires Nodes(graph) <= universe
      modifies this
      ensures ok ==> Valid(path) && Deps(graph, n) <= seen && old(seen) <= seen && NewReachable(graph, n, old(seen), seen)
      ensures !ok ==> CycleFrom(graph, path[0])
      decreases |universe - Elements(path)|, 1
    {
      DepsAreNodes(graph, n);
      var children := if n in graph then graph[n] else [];
      for i := 0 to |children|
        invariant Valid(path) && old(seen) <= seen && NewReachable(graph, n, old(seen), seen)
        invariant forall k | 0 <= k < i :: children[k] in seen
      {
        var child := children[i];
        assert child in Deps(graph, n);
        WalkGrows(graph, path, child);
        ghost var before := seen;
        ok := Visit(child, path, universe);
        if !ok {
          return false;
        }
        ThroughChild(graph, n, child, old(seen), before, seen);
      }
      ChildrenSeen(graph, n, children, seen);
      ok := true;
    }
  }

  lemma ChildrenSeen(graph: Graph, n: int, children: seq<int>, seen: set<int>)
    requires children == if n in graph then graph[n] else []
    requires forall k | 0 <= k < |children| :: children[k] in seen
    ensures Deps(graph, n) <= seen
  {
  }

  /** Everything newly seen is reachable from n. */
  ghost predicate NewReachable(graph: Graph, n: int, before: set<int>, after: set<int>) {
    forall x | x in after && x !in before :: Reachable(graph, n, x)
  }

  lemma ThroughChild(graph: Graph, n: int, child: int, a: set<int>, b: set<int>, c: set<int>)
    requires child in Deps(graph, n) && NewReachable(graph, n, a, b) && NewReachable(graph, child, b, c)
    ensures NewReachable(graph, n, a, c)
  {
    ReachableStep(graph, n, child);
    forall x | x in c && x !in a
      ensures Reachable(graph, n, x)
    {
      if x !in b {
        ReachableTransitive(graph, n, child, x);
      }
    }
  }

  lemma EnterNode(universe: set<int>, active: set<int>, n: int)
    requires n in universe && n !in active
    ensures |universe - (active + {n})| < |universe - active|
  {
    assert universe - (active + {n}) == universe - active - {n};
    RemovePutBack(universe - active, n);
  }

  lemma WalkGrows(graph: Graph, w: seq<int>, n: int)
    requires IsWalk(graph, w) && w != [] && n in Deps(graph, w[|w| - 1])
    ensures IsWalk(graph, w + [n])
  {
  }

  datatype Error = Cyclic

  /** The oracle; Python raises ValueError on a cycle. */
  method TransitiveDeps(graph: Graph, target: int) returns (r: Result<seq<int>, Error>)
    ensures r.Err? <==> CycleFrom(graph, target)
    ensures r.Ok? ==> Increasing(r.value)
    ensures r.Ok? ==> forall x :: x in r.value <==> x != target && Reachable(graph, target, x)
  {
    var visitor := new Visitor(graph);
    var ok := visitor.Visit(target, [], Nodes(graph) + {target});
    if !ok {
      return Err(Cyclic);
    }
    var seen := visitor.seen;
    SeenIsReachable(graph, target, visitor.finished, seen);
    var result := Ascending(seen - {target});
    assert forall x :: x in result <==> x in Elements(result);
    return Ok(result);
  }

  lemma SeenIsReachable(graph: Graph, target: int, finished: seq<int>, seen: set<int>)
    requires Finished(graph, finished, seen) && target in seen
    requires forall x | x in seen :: Reachable(graph, target, x)
    ensures forall x :: x in seen <==> Reachable(graph, target, x)
    ensures !CycleFrom(graph, target)
  {
    FinishedIsClosed(graph, finished, seen);
    forall x | Reachable(graph, target, x)
      ensures x in seen
    {
      var w :| IsWalk(graph, w) && w != [] && w[0] == target && w[|w| - 1] == x;
      ClosedUnderReach(graph, seen, w);
    }
    forall c | IsCycle(graph, c)
      ensures c[0] !in seen
    {
      NoCycleThrough(graph, finished, c);
    }
  }
}
