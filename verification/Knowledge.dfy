/** The in-memory knowledge graph and the change-impact analysis that reads it. */
module Knowledge {
  import opened Wrappers
  import opened Ordering

  /** `OtherType("")` is the missing type. */
  datatype NodeType = File | API | Component | Test | Database | Table | OtherType(text: string)

  datatype Node = Node(id: string, projectID: string, kind: NodeType, name: string, path: string)

  datatype Edge = Edge(id: string, projectID: string, from: string, to: string, kind: string)

  type Nodes = map<string, Node>
  type Edges = map<string, Edge>

  function ProjectNodeIds(nodes: Nodes, project: string): set<string> {
    set id | id in nodes && nodes[id].projectID == project
  }

  function ProjectEdgeIds(edges: Edges, project: string): set<string> {
    set id | id in edges && edges[id].projectID == project
  }

  /** The project's nodes in id order. */
  ghost predicate ListsNodes(ns: seq<Node>, nodes: Nodes, project: string) {
    var ids := Sorting(ProjectNodeIds(nodes, project));
    |ns| == |ids| && forall i :: 0 <= i < |ids| ==> ids[i] in nodes && ns[i] == nodes[ids[i]]
  }

  ghost predicate ListsEdges(es: seq<Edge>, edges: Edges, project: string) {
    var ids := Sorting(ProjectEdgeIds(edges, project));
    |es| == |ids| && forall i :: 0 <= i < |ids| ==> ids[i] in edges && es[i] == edges[ids[i]]
  }

  class MemoryStore {
    var nodes: Nodes
    var edges: Edges

    constructor ()
      ensures Valid() && nodes == map[] && edges == map[]
    {
      nodes, edges := map[], map[];
    }

    /** Nodes and edges are stored under their own ids, and edges never dangle. */
    ghost predicate Valid()
      reads this
    {
      && (forall id :: id in nodes ==> nodes[id].id == id)
      && (forall id :: id in edges ==> edges[id].id == id && edges[id].from in nodes && edges[id].to in nodes)
    }

    method UpsertNode(n: Node) returns (ok: bool)
      requires Valid()
      modifies this`nodes
      ensures Valid()
      ensures ok <==> n.projectID != "" && n.id != "" && n.kind != OtherType("") && n.name != ""
      ensures nodes == if ok then old(nodes)[n.id := n] else old(nodes)
    {
      if n.projectID == "" || n.id == "" || n.kind == OtherType("") || n.name == "" {
        return false;
      }
      nodes := nodes[n.id := n];
      return true;
    }

    method UpsertEdge(e: Edge) returns (ok: bool)
      requires Valid()
      modifies this`edges
      ensures Valid()
      ensures ok <==>
                && e.projectID != "" && e.id != "" && e.from != "" && e.to != "" && e.kind != ""
                && e.from in nodes && e.to in nodes
      ensures edges == if ok then old(edges)[e.id := e] else old(edges)
    {
      if e.projectID == "" || e.id == "" || e.from == "" || e.to == "" || e.kind == "" {
        return false;
      }
      if e.from !in nodes {
        return false;
      }
      if e.to !in nodes {
        return false;
      }
      edges := edges[e.id := e];
      return true;
    }

    method ProjectGraph(project: string) returns (ns: seq<Node>, es: seq<Edge>)
      ensures ListsNodes(ns, nodes, project) && ListsEdges(es, edges, project)
    {
      var nodeIds := SortIds(ProjectNodeIds(nodes, project));
      ns := [];
      for k := 0 to |nodeIds|
        invariant |ns| == k && forall i :: 0 <= i < k ==> nodeIds[i] in nodes && ns[i] == nodes[nodeIds[i]]
      {
        assert nodeIds[k] in Elems(nodeIds);
        ns := ns + [nodes[nodeIds[k]]];
      }
      var edgeIds := SortIds(ProjectEdgeIds(edges, project));
      es := [];
      for k := 0 to |edgeIds|
        invariant |es| == k && forall i :: 0 <= i < k ==> edgeIds[i] in edges && es[i] == edges[edgeIds[i]]
      {
        assert edgeIds[k] in Elems(edgeIds);
        es := es + [edges[edgeIds[k]]];
      }
    }
  }

  function IdsOf(ns: seq<Node>): (ids: seq<string>)
    ensures |ids| == |ns| && forall i :: 0 <= i < |ns| ==> ids[i] == ns[i].id
  {
    seq(|ns|, i requires 0 <= i < |ns| => ns[i].id)
  }

  /** The listed nodes whose id is wanted, in the order of the list. */
  method Pick(ns: seq<Node>, ghost nodes: Nodes, ghost project: string, ids: set<string>) returns (out: seq<Node>)
    requires ListsNodes(ns, nodes, project) && forall id :: id in nodes ==> nodes[id].id == id
    ensures Ascending(IdsOf(out))
    ensures forall n :: n in out <==> n.id in ProjectNodeIds(nodes, project) && nodes[n.id] == n && n.id in ids
  {
    hide ListsNodes, Picked;
    NodesListed(ns, nodes, project);
    out := [];
    PickedStart(ns, ids);
    for k := 0 to |ns|
      invariant Picked(ns, k, ids, out)
    {
      PickedStep(ns, k, ids, out);
      if ns[k].id in ids {
        out := out + [ns[k]];
      }
    }
    PickedAll(ns, ids, out);
  }

  ghost predicate Picked(ns: seq<Node>, k: nat, ids: set<string>, out: seq<Node>) {
    k <= |ns| && Ascending(IdsOf(out)) && forall n :: n in out <==> n in ns[..k] && n.id in ids
  }

  lemma PickedStart(ns: seq<Node>, ids: set<string>)
    ensures Picked(ns, 0, ids, [])
  {
  }

  lemma PickedStep(ns: seq<Node>, k: nat, ids: set<string>, out: seq<Node>)
    requires Picked(ns, k, ids, out) && k < |ns| && Ascending(IdsOf(ns))
    ensures Picked(ns, k + 1, ids, if ns[k].id in ids then out + [ns[k]] else out)
  {
    hide Below;
    assert ns[..k + 1] == ns[..k] + [ns[k]];
    forall i | 0 <= i < |out| ensures Below(out[i].id, ns[k].id) {
      assert out[i] in ns[..k];
      var j :| 0 <= j < k && ns[j] == out[i];
      assert Below(IdsOf(ns)[j], IdsOf(ns)[k]);
    }
  }

  lemma PickedAll(ns: seq<Node>, ids: set<string>, out: seq<Node>)
    requires Picked(ns, |ns|, ids, out)
    ensures Ascending(IdsOf(out)) && forall n :: n in out <==> n in ns && n.id in ids
  {
    assert ns[..|ns|] == ns;
  }

  lemma NodesListed(ns: seq<Node>, nodes: Nodes, project: string)
    requires ListsNodes(ns, nodes, project) && forall id :: id in nodes ==> nodes[id].id == id
    ensures Ascending(IdsOf(ns))
    ensures forall n :: n in ns <==> n.id in ProjectNodeIds(nodes, project) && nodes[n.id] == n
  {
    var ids := Sorting(ProjectNodeIds(nodes, project));
    assert IdsOf(ns) == ids;
    forall n ensures n in ns <==> n.id in ProjectNodeIds(nodes, project) && nodes[n.id] == n {
      if n in ns {
        var i :| 0 <= i < |ns| && ns[i] == n;
        assert ids[i] in Elems(ids);
      }
      if n.id in ProjectNodeIds(nodes, project) && nodes[n.id] == n {
        assert n.id in Elems(ids);
        var i :| 0 <= i < |ids| && ids[i] == n.id;
        assert ns[i] == n;
      }
    }
  }

  lemma EdgeListed(es: seq<Edge>, edges: Edges, project: string)
    requires ListsEdges(es, edges, project)
    ensures forall e :: e in es ==> exists id :: id in edges && edges[id] == e && edges[id].projectID == project
    ensures forall id :: id in edges && edges[id].projectID == project ==> edges[id] in es
  {
    var ids := Sorting(ProjectEdgeIds(edges, project));
    forall e | e in es ensures exists id :: id in edges && edges[id] == e && edges[id].projectID == project {
      var i :| 0 <= i < |es| && es[i] == e;
      assert ids[i] in Elems(ids);
    }
    forall id | id in edges && edges[id].projectID == project ensures edges[id] in es {
      assert id in Elems(ids);
      var i :| 0 <= i < |ids| && ids[i] == id;
      assert es[i] == edges[id];
    }
  }
}
