/** The recursive three-colour visit that the task-graph, provisioning and verification
    validators all run. `Grey` is a node on the recursion stack (`state` 1, or `visiting`),
    `Black` a finished one (`state` 2, or `visited`); a node not in `state` is untouched.
    A dependency that is no node at all stops the visit before it is followed.
 */
module DepthFirst {
  import opened Ordering
  import opened Dag

  datatype Colour = Grey | Black

  datatype Visited =
    | Finished
    | CycleAt(node: Node)
    | MissingAt(node: Node, dep: Node)

  class Search {
    const edges: Edges
    const nodes: set<Node>
    var state: map<Node, Colour>
    ghost var order: seq<Node>  // the black nodes, in the order they turned black

    constructor (edges: Edges, nodes: set<Node>)
      ensures this.edges == edges && this.nodes == nodes
      ensures Valid() && state == map[]
    {
      this.edges := edges;
      this.nodes := nodes;
      state := map[];
      order := [];
    }

    ghost predicate Valid()
      reads this
    {
      && state.Keys <= nodes
      && Topological(edges, order)
      && (forall n :: n in order <==> n in state && state[n].Black?)
    }

    ghost function Greys(): set<Node>
      reads this
    {
      set n | n in state && state[n].Grey?
    }

    /** `trail` is the recursion stack: the grey nodes, each depending on the next. */
    ghost predicate OnStack(trail: seq<Node>)
      reads this
    {
      && Greys() == Elems(trail)
      && (trail != [] ==> IsPath(edges, trail))
    }

    /** Either everything `id` depends on is now black, in an order that puts dependencies
        first, or the visit has found what is wrong with the graph.
     */
    method Visit(id: Node, ghost trail: seq<Node>) returns (v: Visited)
      requires Valid() && OnStack(trail) && id in nodes
      requires trail != [] ==> id in Out(edges, trail[|trail| - 1])
      modifies this
      decreases nodes - state.Keys
      ensures v.Finished? ==> Valid() && OnStack(trail) && id in order
      ensures v.Finished? ==> forall n :: n in old(order) ==> n in order
      ensures v.Finished? ==> old(state.Keys) <= state.Keys
      ensures v.CycleAt? ==> v.node in nodes && OnCycle(edges, v.node)
      ensures v.MissingAt? ==> v.node in nodes && v.dep in Out(edges, v.node) && v.dep !in nodes
    {
      if id in state && state[id].Grey? {
        StackCycle(trail, id);
        return CycleAt(id);
      }
      if id in state && state[id].Black? {
        return Finished;
      }
      Greyen(id, trail);
      ghost var deeper := trail + [id];
      var deps := Out(edges, id);
      for k := 0 to |deps|
        invariant Valid() && OnStack(deeper)
        invariant old(state.Keys) + {id} <= state.Keys
        invariant forall n :: n in old(order) ==> n in order
        invariant forall i :: 0 <= i < k ==> deps[i] in order
      {
        if deps[k] !in nodes {
          return MissingAt(id, deps[k]);
        }
        v := Visit(deps[k], deeper);
        if !v.Finished? {
          return;
        }
      }
      Blacken(id, trail);
      return Finished;
    }

    method Greyen(id: Node, ghost trail: seq<Node>)
      requires Valid() && OnStack(trail) && id in nodes && id !in state
      requires trail != [] ==> id in Out(edges, trail[|trail| - 1])
      modifies this
      ensures Valid() && OnStack(trail + [id]) && id !in trail
      ensures state == old(state)[id := Grey] && order == old(order)
    {
      ghost var deeper := trail + [id];
      assert id !in trail by {
        assert forall n :: n in trail <==> n in Elems(trail);
      }
      state := state[id := Grey];
      assert Greys() == Elems(deeper) by {
        assert forall n :: n in deeper <==> n in Elems(trail) || n == id;
        assert forall n :: n in Greys() <==> n in old(Greys()) || n == id;
      }
      assert IsPath(edges, deeper);
    }

    method Blacken(id: Node, ghost trail: seq<Node>)
      requires Valid() && OnStack(trail + [id]) && id !in trail && id in nodes
      requires forall d :: d in Out(edges, id) ==> d in order
      modifies this
      ensures Valid() && OnStack(trail)
      ensures state == old(state)[id := Black] && order == old(order) + [id]
    {
      ghost var deeper := trail + [id];
      assert deeper[|trail|] == id;
      assert id in Elems(deeper) && id in Greys();
      ExtendOrder(edges, order, id);
      state := state[id := Black];
      order := order + [id];
      assert forall n :: n in deeper <==> n in trail || n == id;
      assert Greys() == Elems(trail) by {
        assert forall n :: n in Greys() <==> n in old(Greys()) && n != id;
        assert forall n :: n in Elems(deeper) <==> n in deeper;
      }
      assert forall n :: n in order <==> n in old(order) || n == id;
      if trail != [] {
        forall i, j | 0 <= i && j == i + 1 && j < |trail| ensures trail[j] in Out(edges, trail[i]) {
          assert deeper[i] == trail[i] && deeper[j] == trail[j];
        }
      }
    }

    lemma StackCycle(trail: seq<Node>, id: Node)
      requires OnStack(trail) && id in Greys()
      requires trail != [] ==> id in Out(edges, trail[|trail| - 1])
      ensures OnCycle(edges, id)
    {
      assert id in Elems(trail);
      var k :| 0 <= k < |trail| && trail[k] == id;
      CycleThrough(edges, trail[k..] + [id]);
    }
  }

  /** Visits every node, in any order, as the validators do. The outcome decides the graph:
      it finishes exactly on the closed acyclic ones.
   */
  method VisitAll(edges: Edges, nodes: set<Node>) returns (v: Visited)
    ensures v.Finished? <==> Closed(edges, nodes) && Acyclic(edges, nodes)
    ensures v.CycleAt? ==> v.node in nodes && OnCycle(edges, v.node)
    ensures v.MissingAt? ==> v.node in nodes && v.dep in Out(edges, v.node) && v.dep !in nodes
  {
    var search := new Search(edges, nodes);
    var todo := nodes;
    while todo != {}
      invariant fresh(search) && search.edges == edges && search.nodes == nodes
      invariant search.Valid() && search.OnStack([])
      invariant todo <= nodes
      invariant forall n :: n in nodes - todo ==> n in search.order
      decreases |todo|
    {
      var id :| id in todo;
      v := search.Visit(id, []);
      if !v.Finished? {
        return;
      }
      todo := todo - {id};
    }
    FinishedOrder(edges, nodes, search.order);
    return Finished;
  }

  lemma FinishedOrder(edges: Edges, nodes: set<Node>, order: seq<Node>)
    requires Topological(edges, order) && Elems(order) == nodes
    ensures Closed(edges, nodes) && Acyclic(edges, nodes)
  {
    TopologicalIsAcyclic(edges, order);
    forall n, d | n in nodes && d in Out(edges, n) ensures d in nodes {
      assert n in Elems(order);
      var i :| 0 <= i < |order| && order[i] == n;
      assert d in order[..i];
    }
  }
}
