/** Dependency graphs: paths, cycles, topological orders and dependency chains.
    The relation runs from a task to what it depends on.
 */
module Dag {
  import opened Ordering

  type Node = string
  type Edges = map<Node, seq<Node>>

  /** Go's `edges[n]`: the nil slice when the key is absent. */
  function Out(edges: Edges, n: Node): seq<Node> {
    if n in edges then edges[n] else []
  }

  ghost predicate Closed(edges: Edges, nodes: set<Node>) {
    forall n, d :: n in nodes && d in Out(edges, n) ==> d in nodes
  }

  /** Every node of `p` is a direct dependency of the one before it. */
  ghost predicate IsPath(edges: Edges, p: seq<Node>) {
    p != [] && forall i, j :: 0 <= i && j == i + 1 && j < |p| ==> p[j] in Out(edges, p[i])
  }

  ghost predicate IsCycle(edges: Edges, p: seq<Node>) {
    |p| >= 2 && IsPath(edges, p) && p[0] == p[|p| - 1]
  }

  ghost predicate OnCycle(edges: Edges, n: Node) {
    exists p :: IsCycle(edges, p) && p[0] == n
  }

  ghost predicate Acyclic(edges: Edges, nodes: set<Node>) {
    forall n :: n in nodes ==> !OnCycle(edges, n)
  }

  lemma CycleThrough(edges: Edges, p: seq<Node>)
    requires IsCycle(edges, p)
    ensures OnCycle(edges, p[0])
  {
  }

  /** Every node comes after all of its dependencies. */
  ghost predicate Topological(edges: Edges, order: seq<Node>) {
    && Distinct(order)
    && forall i, d :: 0 <= i < |order| && d in Out(edges, order[i]) ==> d in order[..i]
  }

  lemma ExtendOrder(edges: Edges, order: seq<Node>, n: Node)
    requires Topological(edges, order) && n !in order
    requires forall d :: d in Out(edges, n) ==> d in order
    ensures Topological(edges, order + [n])
    ensures Elems(order + [n]) == Elems(order) + {n}
  {
    var longer := order + [n];
    forall i, d | 0 <= i < |longer| && d in Out(edges, longer[i]) ensures d in longer[..i] {
      if i == |order| {
        assert longer[..i] == order;
      } else {
        assert longer[..i] == order[..i];
      }
    }
    assert forall x :: x in longer <==> x in order || x == n;
  }

  lemma {:induction false} PathStaysBefore(edges: Edges, order: seq<Node>, p: seq<Node>, i: nat, k: nat)
    requires Topological(edges, order) && IsPath(edges, p)
    requires i < |order| && p[0] == order[i] && 0 < k < |p|
    ensures p[k] in order[..i]
  {
    assert p[1] in order[..i];
    if k > 1 {
      var j :| 0 <= j < i && order[j] == p[1];
      PathStaysBefore(edges, order, p[1..], j, k - 1);
      assert order[..j] <= order[..i];
    }
  }

  /** A topological order rules cycles out. */
  lemma TopologicalIsAcyclic(edges: Edges, order: seq<Node>)
    requires Topological(edges, order)
    ensures Acyclic(edges, Elems(order))
  {
    forall n | n in Elems(order) ensures !OnCycle(edges, n) {
      if p :| IsCycle(edges, p) && p[0] == n {
        var i :| 0 <= i < |order| && order[i] == n;
        PathStaysBefore(edges, order, p, i, |p| - 1);
        assert false;
      }
    }
  }

  lemma AcyclicSubset(edges: Edges, nodes: set<Node>, sub: set<Node>)
    requires Acyclic(edges, nodes) && sub <= nodes
    ensures Acyclic(edges, sub)
  {
  }

  /** In an acyclic graph every non-empty set of nodes has one that depends on no other
      node of the set: otherwise following dependencies inside the set would repeat a node.
   */
  lemma Bottom(edges: Edges, s: set<Node>) returns (b: Node)
    requires s != {} && Acyclic(edges, s)
    ensures b in s && forall d :: d in Out(edges, b) ==> d !in s
  {
    var start :| start in s;
    b := Descend(edges, s, [start]);
  }

  lemma {:induction false} Descend(edges: Edges, s: set<Node>, walk: seq<Node>) returns (b: Node)
    requires Acyclic(edges, s) && IsPath(edges, walk) && Distinct(walk)
    requires forall n :: n in walk ==> n in s
    ensures b in s && forall d :: d in Out(edges, b) ==> d !in s
    decreases |s| - |walk|
  {
    DistinctCount(walk);
    SubsetCount(Elems(walk), s);
    b := walk[|walk| - 1];
    if d :| d in Out(edges, b) && d in s {
      var next := walk + [d];
      assert IsPath(edges, next);
      if d in walk {
        var k :| 0 <= k < |walk| && walk[k] == d;
        CycleThrough(edges, next[k..]);
        assert false;
      } else {
        DistinctCount(next);
        SubsetCount(Elems(next), s);
        b := Descend(edges, s, next);
      }
    }
  }

  /** Every finite acyclic closed graph has a topological order: the converse of
      TopologicalIsAcyclic.
   */
  lemma {:induction false} AcyclicIsTopological(edges: Edges, nodes: set<Node>, before: seq<Node>)
    returns (order: seq<Node>)
    requires Topological(edges, before) && Elems(before) !! nodes
    requires Closed(edges, Elems(before) + nodes) && Acyclic(edges, nodes)
    ensures Topological(edges, order) && Elems(order) == Elems(before) + nodes
    decreases |nodes|
  {
    if nodes == {} {
      order := before;
    } else {
      var b := Bottom(edges, nodes);
      assert b !in before;
      forall d | d in Out(edges, b) ensures d in before {
        assert d in Elems(before) + nodes;
      }
      ExtendOrder(edges, before, b);
      var longer := before + [b];
      assert Elems(longer) + (nodes - {b}) == Elems(before) + nodes;
      order := AcyclicIsTopological(edges, nodes - {b}, longer);
    }
  }

  /** A dependency chain of `k` edges starts at `n`. */
  ghost predicate HasChain(edges: Edges, n: Node, k: nat)
    decreases k
  {
    k == 0 || exists d :: d in Out(edges, n) && HasChain(edges, d, k - 1)
  }

  lemma {:induction false} ChainHasPath(edges: Edges, n: Node, k: nat) returns (p: seq<Node>)
    requires HasChain(edges, n, k)
    ensures IsPath(edges, p) && p[0] == n && |p| == k + 1
    decreases k
  {
    if k == 0 {
      p := [n];
    } else {
      var d :| d in Out(edges, n) && HasChain(edges, d, k - 1);
      var q := ChainHasPath(edges, d, k - 1);
      PathPrepend(edges, n, q);
      p := [n] + q;
    }
  }

  lemma {:induction false} PathHasChain(edges: Edges, p: seq<Node>)
    requires IsPath(edges, p)
    ensures HasChain(edges, p[0], |p| - 1)
    decreases |p|
  {
    if |p| > 1 {
      PathTail(edges, p);
      PathHasChain(edges, p[1..]);
    }
  }

  /** A chain of `k` edges is a path of `k + 1` nodes. */
  lemma ChainIsPath(edges: Edges, n: Node, k: nat)
    ensures HasChain(edges, n, k) <==> exists p :: IsPath(edges, p) && p[0] == n && |p| == k + 1
  {
    hide HasChain;
    if HasChain(edges, n, k) {
      var p := ChainHasPath(edges, n, k);
    }
    if p :| IsPath(edges, p) && p[0] == n && |p| == k + 1 {
      PathHasChain(edges, p);
    }
  }

  lemma PathPrepend(edges: Edges, n: Node, q: seq<Node>)
    requires IsPath(edges, q) && q[0] in Out(edges, n)
    ensures IsPath(edges, [n] + q)
  {
  }

  lemma PathTail(edges: Edges, p: seq<Node>)
    requires IsPath(edges, p) && |p| > 1
    ensures IsPath(edges, p[1..]) && p[1] in Out(edges, p[0])
  {
  }

  lemma {:induction false} ChainShortens(edges: Edges, n: Node, k: nat, j: nat)
    requires HasChain(edges, n, k) && j <= k
    ensures HasChain(edges, n, j)
    decreases j
  {
    if j > 0 {
      var d :| d in Out(edges, n) && HasChain(edges, d, k - 1);
      ChainShortens(edges, d, k - 1, j - 1);
    }
  }

  /** Only which nodes a list holds matters to paths, not their order in the list. */
  ghost predicate SameEdges(a: Edges, b: Edges, nodes: set<Node>) {
    forall n, d :: n in nodes ==> (d in Out(a, n) <==> d in Out(b, n))
  }

  lemma {:induction false} PathInside(edges: Edges, nodes: set<Node>, p: seq<Node>, k: nat)
    requires Closed(edges, nodes) && IsPath(edges, p) && p[0] in nodes && k < |p|
    ensures p[k] in nodes
  {
    if k > 0 {
      PathInside(edges, nodes, p, k - 1);
    }
  }

  lemma SameEdgesSameCycles(a: Edges, b: Edges, nodes: set<Node>, n: Node)
    requires SameEdges(a, b, nodes) && Closed(a, nodes) && n in nodes
    ensures OnCycle(a, n) ==> OnCycle(b, n)
  {
    if p :| IsCycle(a, p) && p[0] == n {
      forall k | 0 <= k < |p| ensures p[k] in nodes {
        PathInside(a, nodes, p, k);
      }
      assert IsCycle(b, p);
    }
  }
}
