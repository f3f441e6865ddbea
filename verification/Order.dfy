/**
 The dependency-order oracle: Kahn's algorithm with a heap, over a graph that maps a node to its
 prerequisites. Nodes are integers here; only their order is used. The result is the
 lexicographically least topological order, and the error is raised exactly on a cycle.
 */
module Order {
  import opened Collections
  import opened Wrappers

  type Graph = map<int, seq<int>>

  function Deps(graph: Graph, n: int): set<int> {
    if n in graph then Elements(graph[n]) else {}
  }

  /** The keys and everything that is only mentioned as a prerequisite. */
  function Nodes(graph: Graph): set<int> {
    graph.Keys + (set n, d | n in graph.Keys && d in graph[n] :: d)
  }

  /** What a graph is about: its keys and whatever is listed under one, and what depends on what. */
  lemma GraphMeans(graph: Graph, n: int, x: int)
    ensures x in Deps(graph, n) <==> n in graph && x in graph[n]
    ensures x in Nodes(graph) <==> x in graph || exists k | k in graph :: x in graph[k]
  {
  }

  lemma DepsAreNodes(graph: Graph, n: int)
    ensures Deps(graph, n) <= Nodes(graph)
  {
    forall d | d in Deps(graph, n)
      ensures d in Nodes(graph)
    {
      assert n in graph.Keys && d in graph[n];
    }
  }

  /** All nodes, each once, each after its prerequisites. */
  ghost predicate IsOrder(graph: Graph, t: seq<int>) {
    Elements(t) == Nodes(graph) && Distinct(t) && DepsFirst(graph, t)
  }

  ghost predicate DepsFirst(graph: Graph, t: seq<int>) {
    forall i | 0 <= i < |t| :: Deps(graph, t[i]) <= Elements(t[..i])
  }

  ghost predicate LexLeq(a: seq<int>, b: seq<int>) {
    a <= b || exists i | 0 <= i < |a| && i < |b| :: a[..i] == b[..i] && a[i] < b[i]
  }

  /** A walk along prerequisites that comes back to where it started; a self-loop is one. */
  ghost predicate IsCycle(graph: Graph, c: seq<int>) {
    |c| >= 2 && c[0] == c[|c| - 1] && IsWalk(graph, c)
  }

  ghost predicate IsWalk(graph: Graph, w: seq<int>) {
    forall i, j | 0 <= i && j == i + 1 < |w| :: w[j] in Deps(graph, w[i])
  }

  ghost predicate HasCycle(graph: Graph) {
    exists c :: IsCycle(graph, c)
  }

  /** The nodes that may come next after a prefix. */
  function Available(graph: Graph, prefix: seq<int>): set<int> {
    set k | k in Nodes(graph) && k !in prefix && Deps(graph, k) <= Elements(prefix)
  }

  /** Every element is the least node that was available when it was placed. */
  ghost predicate IsGreedy(graph: Graph, t: seq<int>) {
    forall i | 0 <= i < |t| ::
      t[i] in Available(graph, t[..i]) && forall a | a in Available(graph, t[..i]) :: t[i] <= a
  }

  datatype Error = Cycle

  method TopologicalOrder(graph: Graph) returns (r: Result<seq<int>, Error>)
    ensures r.Err? <==> HasCycle(graph)
    ensures r.Ok? ==> IsOrder(graph, r.value)
    ensures r.Ok? ==> forall t | IsOrder(graph, t) :: LexLeq(r.value, t)
  {
    var result := PopAll(graph);
    CountTellsCompleteness(graph, result);
    if |result| != |Nodes(graph)| {
      RestHasCycle(graph, result);
      return Err(Cycle);
    }
    CompleteHasNoCycle(graph, result);
    CompleteIsLeast(graph, result);
    return Ok(result);
  }

  /** The outer loop: pop the least ready node until the heap is empty. */
  method PopAll(graph: Graph) returns (result: seq<int>)
    ensures IsGreedy(graph, result) && Available(graph, result) == {}
  {
    var nodes := Nodes(graph);
    var deps: map<int, set<int>> := map n | n in nodes :: Deps(graph, n);
    var ready := set n | n in nodes && deps[n] == {};
    result := [];
    StartReady(graph, deps, ready);
    while ready != {}
      invariant IsGreedy(graph, result)
      invariant Remaining(graph, deps, result, nodes)
      invariant ready == Available(graph, result)
      decreases |nodes - Elements(result)|
    {
      var n := Least(ready);
      ghost var before := deps;
      deps, ready := Release(nodes, deps, ready - {n}, n);
      PopKeeps(graph, before, result, n, deps, ready);
      FewerLeft(graph, result, n);
      result := result + [n];
    }
  }

  lemma CountTellsCompleteness(graph: Graph, t: seq<int>)
    requires IsGreedy(graph, t)
    ensures Elements(t) <= Nodes(graph) && (|t| == |Nodes(graph)| <==> Elements(t) == Nodes(graph))
  {
    GreedyHasDeps(graph, t);
    GreedyIsDistinct(graph, t);
    DistinctElements(t);
    SubsetIsSmaller(Elements(t), Nodes(graph));
  }

  /** Each node of `nodes` still waits for its prerequisites that have not been placed. */
  ghost predicate Remaining(graph: Graph, deps: map<int, set<int>>, placed: seq<int>, nodes: set<int>) {
    deps.Keys == nodes && forall k | k in nodes :: deps[k] == Deps(graph, k) - Elements(placed)
  }

  /** The inner loop: strike n, just popped, from every node's prerequisites and push what became ready. */
  method Release(nodes: set<int>, deps: map<int, set<int>>, ready: set<int>, n: int)
    returns (deps': map<int, set<int>>, ready': set<int>)
    requires deps.Keys == nodes
    ensures deps'.Keys == nodes && forall k | k in nodes :: deps'[k] == deps[k] - {n}
    ensures forall k :: k in ready' <==> k in ready || (k in nodes && n in deps[k] && deps[k] - {n} == {})
  {
    deps', ready' := deps, ready;
    var todo := nodes;
    while todo != {}
      invariant todo <= nodes && deps'.Keys == nodes
      invariant forall k | k in nodes :: deps'[k] == if k in todo then deps[k] else deps[k] - {n}
      invariant forall k :: k in ready' <==>
                  k in ready || (k in nodes && k !in todo && n in deps[k] && deps[k] - {n} == {})
      decreases todo
    {
      ghost var some := Pick(todo);
      var k :| k in todo;
      todo := todo - {k};
      if n in deps'[k] {
        deps' := deps'[k := deps'[k] - {n}];
        if deps'[k] == {} {
          ready' := ready' + {k};
        }
      } else {
        assert deps[k] - {n} == deps[k];
      }
    }
  }

  lemma FewerLeft(graph: Graph, placed: seq<int>, n: int)
    requires n in Available(graph, placed)
    ensures |Nodes(graph) - Elements(placed + [n])| < |Nodes(graph) - Elements(placed)|
  {
    assert n in Nodes(graph) - Elements(placed);
    assert Nodes(graph) - Elements(placed + [n]) == Nodes(graph) - Elements(placed) - {n};
  }

  /** Placing the popped node keeps what the outer loop knows. */
  lemma PopKeeps(graph: Graph, deps: map<int, set<int>>, placed: seq<int>, n: int,
                 deps': map<int, set<int>>, ready': set<int>)
    requires IsGreedy(graph, placed) && Remaining(graph, deps, placed, Nodes(graph))
    requires n in Available(graph, placed) && forall a | a in Available(graph, placed) :: n <= a
    requires deps'.Keys == Nodes(graph) && forall k | k in Nodes(graph) :: deps'[k] == deps[k] - {n}
    requires forall k :: k in ready' <==>
               k in Available(graph, placed) - {n} || (k in Nodes(graph) && n in deps[k] && deps[k] - {n} == {})
    ensures IsGreedy(graph, placed + [n]) && Elements(placed + [n]) == Elements(placed) + {n}
    ensures Remaining(graph, deps', placed + [n], Nodes(graph)) && ready' == Available(graph, placed + [n])
  {
    GreedyGrows(graph, placed, n);
    PlacedHasNoneLeft(graph, deps, placed, n);
    ReadyMeansAvailable(graph, deps, placed);
    assert forall k | k in Nodes(graph) && n !in deps[k] :: deps[k] - {n} == deps[k];
    ReleasedAll(graph, deps, deps', ready', placed, n);
  }

  lemma PlacedHasNoneLeft(graph: Graph, deps: map<int, set<int>>, placed: seq<int>, n: int)
    requires IsGreedy(graph, placed + [n]) && Remaining(graph, deps, placed, Nodes(graph))
    ensures forall k | k in Nodes(graph) && (k in placed || k == n) :: n !in deps[k]
  {
    GreedyIsDistinct(graph, placed + [n]);
    var t := placed + [n];
    forall k | k in Nodes(graph) && (k in placed || k == n)
      ensures n !in deps[k]
    {
      var i :| 0 <= i < |t| && t[i] == k;
      assert t[i] in Available(graph, t[..i]);
      assert t[..i] <= placed && t[|placed|] == n;
      assert forall j | 0 <= j < i :: t[..i][j] == t[j];
    }
  }

  lemma ReleasedAll(graph: Graph, deps: map<int, set<int>>, deps': map<int, set<int>>, ready': set<int>, placed: seq<int>, n: int)
    requires Remaining(graph, deps, placed, Nodes(graph)) && deps'.Keys == deps.Keys
    requires forall k | k in deps :: deps'[k] == deps[k] - {n}
    requires forall k :: k in ready' <==> k in Nodes(graph) && k !in placed && k != n && deps'[k] == {}
    ensures Remaining(graph, deps', placed + [n], Nodes(graph)) && ready' == Available(graph, placed + [n])
  {
    assert Elements(placed + [n]) == Elements(placed) + {n};
    forall k | k in deps
      ensures deps'[k] == Deps(graph, k) - Elements(placed + [n])
      ensures deps'[k] == {} <==> Deps(graph, k) <= Elements(placed + [n])
    {
      EmptyDifference(Deps(graph, k), Elements(placed + [n]));
    }
    forall k
      ensures k in ready' <==> k in Available(graph, placed + [n])
    {
    }
  }

  lemma StartReady(graph: Graph, deps: map<int, set<int>>, ready: set<int>)
    requires deps.Keys == Nodes(graph) && forall k | k in deps :: deps[k] == Deps(graph, k)
    requires forall k :: k in ready <==> k in Nodes(graph) && deps[k] == {}
    ensures IsGreedy(graph, []) && Remaining(graph, deps, [], Nodes(graph)) && ready == Available(graph, [])
  {
    assert Elements<int>([]) == {};
    assert Remaining(graph, deps, [], Nodes(graph));
    ReadyMeansAvailable(graph, deps, []);
    assert forall k :: k in ready <==> k in Available(graph, []);
  }

  /** Being available is having no prerequisite left. */
  lemma ReadyMeansAvailable(graph: Graph, deps: map<int, set<int>>, placed: seq<int>)
    requires Remaining(graph, deps, placed, Nodes(graph))
    ensures forall k :: k in Available(graph, placed) <==> k in Nodes(graph) && k !in placed && deps[k] == {}
  {
    forall k | k in Nodes(graph)
      ensures deps[k] == {} <==> Deps(graph, k) <= Elements(placed)
    {
      EmptyDifference(Deps(graph, k), Elements(placed));
    }
  }

  // ---- Greedy prefixes ----

  lemma GreedyGrows(graph: Graph, t: seq<int>, n: int)
    requires IsGreedy(graph, t) && n in Available(graph, t) && forall a | a in Available(graph, t) :: n <= a
    ensures IsGreedy(graph, t + [n])
  {
    var more := t + [n];
    forall i | 0 <= i < |more|
      ensures more[i] in Available(graph, more[..i]) && forall a | a in Available(graph, more[..i]) :: more[i] <= a
    {
      assert more[..i] == t[..i];
      assert i == |t| ==> t[..i] == t;
    }
  }

  lemma GreedyHasDeps(graph: Graph, t: seq<int>)
    requires IsGreedy(graph, t)
    ensures Elements(t) <= Nodes(graph)
    ensures forall k | k in t :: Deps(graph, k) <= Elements(t) && k !in Deps(graph, k)
  {
    forall k | k in t
      ensures k in Nodes(graph) && Deps(graph, k) <= Elements(t) && k !in Deps(graph, k)
    {
      var i :| 0 <= i < |t| && t[i] == k;
      assert t[i] in Available(graph, t[..i]) && Elements(t[..i]) <= Elements(t);
    }
  }

  lemma GreedyIsDistinct(graph: Graph, t: seq<int>)
    requires IsGreedy(graph, t)
    ensures Distinct(t)
  {
    forall i, j | 0 <= i < j < |t|
      ensures t[i] != t[j]
    {
      assert t[..j][i] == t[i];
    }
  }

  lemma CompleteIsOrder(graph: Graph, t: seq<int>)
    requires IsGreedy(graph, t) && Elements(t) == Nodes(graph)
    ensures IsOrder(graph, t)
  {
    GreedyIsDistinct(graph, t);
    forall i | 0 <= i < |t|
      ensures Deps(graph, t[i]) <= Elements(t[..i])
    {
      assert t[i] in Available(graph, t[..i]);
    }
  }

  lemma CompleteHasNoCycle(graph: Graph, t: seq<int>)
    requires IsGreedy(graph, t) && Elements(t) == Nodes(graph)
    ensures IsOrder(graph, t) && !HasCycle(graph)
  {
    CompleteIsOrder(graph, t);
    forall c
      ensures !IsCycle(graph, c)
    {
      OrderHasNoCycle(graph, t, c);
    }
  }

  lemma CompleteIsLeast(graph: Graph, greedy: seq<int>)
    requires IsGreedy(graph, greedy) && Elements(greedy) == Nodes(graph)
    ensures forall t | IsOrder(graph, t) :: LexLeq(greedy, t)
  {
    forall t | IsOrder(graph, t)
      ensures LexLeq(greedy, t)
    {
      CompleteIsOrder(graph, greedy);
      DistinctElements(greedy);
      DistinctElements(t);
      GreedyIsLeast(graph, greedy, t, 0);
    }
  }

  /** No order beats the greedy one: where they first differ, greedy took the least available node. */
  lemma {:induction false} GreedyIsLeast(graph: Graph, greedy: seq<int>, t: seq<int>, i: nat)
    requires IsGreedy(graph, greedy) && IsOrder(graph, t) && |greedy| == |t|
    requires i <= |t| && greedy[..i] == t[..i]
    ensures LexLeq(greedy, t)
    decreases |greedy| - i
  {
    if i == |greedy| {
      assert greedy == t;
    } else if greedy[i] == t[i] {
      assert greedy[..i + 1] == greedy[..i] + [greedy[i]] == t[..i + 1];
      GreedyIsLeast(graph, greedy, t, i + 1);
    } else {
      WasAvailable(graph, t, i);
    }
  }

  lemma WasAvailable(graph: Graph, t: seq<int>, i: nat)
    requires IsOrder(graph, t) && i < |t|
    ensures t[i] in Available(graph, t[..i])
  {
    assert t[i] in Elements(t);
    assert t[i] !in t[..i];
  }

  // ---- Cycles ----

  /** Along a walk the positions in an order go down, so a walk cannot come back. */
  lemma {:induction false} WalkGoesDown(graph: Graph, t: seq<int>, w: seq<int>, p: nat) returns (q: nat)
    requires DepsFirst(graph, t) && IsWalk(graph, w) && w != [] && p < |t| && t[p] == w[0]
    ensures q < |t| && t[q] == w[|w| - 1] && q <= p && (|w| > 1 ==> q < p)
    decreases |w|
  {
    if |w| == 1 {
      q := p;
    } else {
      assert w[1] in Deps(graph, w[0]) && w[1] in Elements(t[..p]);
      var next: nat :| next < p && t[..p][next] == w[1];
      WalkTail(graph, w);
      q := WalkGoesDown(graph, t, w[1..], next);
    }
  }

  lemma WalkTail(graph: Graph, w: seq<int>)
    requires IsWalk(graph, w) && w != []
    ensures IsWalk(graph, w[1..])
  {
    forall i, j | 0 <= i && j == i + 1 < |w[1..]|
      ensures w[1..][j] in Deps(graph, w[1..][i])
    {
      assert w[j + 1] in Deps(graph, w[i + 1]);
    }
  }

  /** No cycle passes through a list without repetitions that has every prerequisite before its node. */
  lemma NoCycleThrough(graph: Graph, t: seq<int>, c: seq<int>)
    requires DepsFirst(graph, t) && Distinct(t) && IsCycle(graph, c)
    ensures c[0] !in t
  {
    if c[0] in t {
      var p: nat :| p < |t| && t[p] == c[0];
      var q := WalkGoesDown(graph, t, c, p);
    }
  }

  lemma OrderHasNoCycle(graph: Graph, t: seq<int>, c: seq<int>)
    requires IsOrder(graph, t)
    ensures !IsCycle(graph, c)
  {
    if IsCycle(graph, c) {
      DepsAreNodes(graph, c[|c| - 2]);
      assert c[|c| - 1] in Deps(graph, c[|c| - 2]);
      assert c[0] in Elements(t);
      NoCycleThrough(graph, t, c);
    }
  }

  /** When nothing is available and nodes remain, every remaining node has a remaining prerequisite. */
  lemma RestHasCycle(graph: Graph, t: seq<int>)
    requires Available(graph, t) == {} && Elements(t) < Nodes(graph)
    ensures HasCycle(graph)
  {
    var rest := Nodes(graph) - Elements(t);
    forall k | k in rest
      ensures Deps(graph, k) * rest != {}
    {
      DepsAreNodes(graph, k);
      assert k !in Available(graph, t);
      var d := PickMissing(Deps(graph, k), Elements(t));
      assert d in Deps(graph, k) * rest;
    }
    var some := PickMissing(Nodes(graph), Elements(t));
    FollowUntilRepeat(graph, rest, [some]);
  }

  /** A walk inside a finite set in which every node has a successor must repeat a node. */
  lemma {:induction false} FollowUntilRepeat(graph: Graph, rest: set<int>, w: seq<int>)
    requires forall k | k in rest :: Deps(graph, k) * rest != {}
    requires w != [] && IsWalk(graph, w) && Elements(w) <= rest
    ensures HasCycle(graph)
    decreases rest - Elements(w)
  {
    var last := w[|w| - 1];
    assert last in Elements(w);
    var d := Pick(Deps(graph, last) * rest);
    var longer := w + [d];
    if d in w {
      var i :| 0 <= i < |w| && w[i] == d;
      assert IsCycle(graph, longer[i..]);
    } else {
      assert Elements(longer) == Elements(w) + {d};
      FollowUntilRepeat(graph, rest, longer);
    }
  }
}
