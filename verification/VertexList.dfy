/** Lists of named vertices with dependencies, and their validation: what provisioning steps
    and verification checks have in common.
 */
module VertexList {
  import opened Wrappers
  import opened Ordering
  import opened Dag
  import DepthFirst

  datatype Vertex = Vertex(id: Node, deps: seq<Node>)

  datatype ListError = Unnamed | Duplicate(id: Node) | Cycle(id: Node) | Missing(id: Node, dep: Node)

  /** Every vertex has a name of its own. */
  predicate Named(vs: seq<Vertex>) {
    (forall i :: 0 <= i < |vs| ==> vs[i].id != "") && forall i, j :: 0 <= i < j < |vs| ==> vs[i].id != vs[j].id
  }

  function EdgesOf(vs: seq<Vertex>): Edges {
    if vs == [] then map[]
    else EdgesOf(vs[..|vs| - 1])[vs[|vs| - 1].id := vs[|vs| - 1].deps]
  }

  lemma {:induction false} EdgesMeaning(vs: seq<Vertex>)
    ensures forall id :: id in EdgesOf(vs) <==> exists i :: 0 <= i < |vs| && vs[i].id == id
    ensures Named(vs) ==> forall i :: 0 <= i < |vs| ==> Out(EdgesOf(vs), vs[i].id) == vs[i].deps
  {
    if vs != [] {
      var init := vs[..|vs| - 1];
      EdgesMeaning(init);
      assert forall i :: 0 <= i < |init| ==> vs[i] == init[i];
      forall id ensures id in EdgesOf(vs) <==> exists i :: 0 <= i < |vs| && vs[i].id == id {
        assert id in EdgesOf(vs) <==> id in EdgesOf(init) || id == vs[|vs| - 1].id;
        if i :| 0 <= i < |init| && init[i].id == id {
          assert vs[i].id == id;
        }
      }
    }
  }

  /** The list is a dependency graph that can be worked off. */
  ghost predicate Workable(vs: seq<Vertex>) {
    Named(vs) && Closed(EdgesOf(vs), EdgesOf(vs).Keys) && Acyclic(EdgesOf(vs), EdgesOf(vs).Keys)
  }

  /** Accepts exactly the workable lists, and otherwise names something that is wrong. */
  method Validate(vs: seq<Vertex>) returns (err: Option<ListError>)
    ensures err.None? <==> Workable(vs)
    ensures err.Some? && (err.value.Unnamed? || err.value.Duplicate?) <==> !Named(vs)
    ensures err == Some(Unnamed) ==> exists i :: 0 <= i < |vs| && vs[i].id == ""
    ensures err.Some? && err.value.Duplicate? ==>
              exists i, j :: 0 <= i < j < |vs| && vs[i].id == vs[j].id == err.value.id
    ensures err.Some? && err.value.Cycle? ==> OnCycle(EdgesOf(vs), err.value.id)
    ensures err.Some? && err.value.Missing? ==>
              exists i :: 0 <= i < |vs| && vs[i].id == err.value.id && err.value.dep in vs[i].deps &&
                          forall j :: 0 <= j < |vs| ==> vs[j].id != err.value.dep
  {
    hide EdgesOf;
    var edges: Edges := map[];
    EdgesStart(vs);
    for k := 0 to |vs|
      invariant edges == EdgesOf(vs[..k])
      invariant Named(vs[..k])
    {
      EdgesStep(vs, k);
      if vs[k].id == "" {
        return Some(Unnamed);
      }
      if vs[k].id in edges {
        return Some(Duplicate(vs[k].id));
      }
      edges := edges[vs[k].id := vs[k].deps];
    }
    EdgesMeaning(vs);
    var v := DepthFirst.VisitAll(edges, edges.Keys);
    match v {
      case Finished => return None;
      case CycleAt(id) => return Some(Cycle(id));
      case MissingAt(id, dep) =>
        var i :| 0 <= i < |vs| && vs[i].id == id;
        return Some(Missing(id, dep));
    }
  }

  lemma EdgesStart(vs: seq<Vertex>)
    ensures EdgesOf(vs[..0]) == map[] && Named(vs[..0]) && vs[..|vs|] == vs
  {
  }

  lemma EdgesStep(vs: seq<Vertex>, k: nat)
    requires k < |vs| && Named(vs[..k])
    ensures EdgesOf(vs[..k + 1]) == EdgesOf(vs[..k])[vs[k].id := vs[k].deps]
    ensures vs[k].id == "" ==> !Named(vs)
    ensures vs[k].id in EdgesOf(vs[..k]) ==> exists i :: 0 <= i < k && vs[i].id == vs[k].id
    ensures vs[k].id != "" && vs[k].id !in EdgesOf(vs[..k]) ==> Named(vs[..k + 1])
  {
    hide EdgesOf;
    EdgesGrow(vs, k);
    EdgesMeaning(vs[..k]);
    if vs[k].id in EdgesOf(vs[..k]) {
      var i :| 0 <= i < k && vs[..k][i].id == vs[k].id;
      assert vs[i].id == vs[k].id;
    } else {
      forall i | 0 <= i < k ensures vs[i].id != vs[k].id {
        assert vs[..k][i] == vs[i];
      }
    }
  }

  lemma EdgesGrow(vs: seq<Vertex>, k: nat)
    requires k < |vs|
    ensures EdgesOf(vs[..k + 1]) == EdgesOf(vs[..k])[vs[k].id := vs[k].deps]
  {
    assert vs[..k + 1][..k] == vs[..k];
  }

  /** Some vertex of any non-empty part of a workable list depends on no vertex of the part. */
  lemma BottomVertex(vs: seq<Vertex>, part: set<nat>) returns (b: nat)
    requires Workable(vs) && part != {} && forall i :: i in part ==> i < |vs|
    ensures b in part && forall i :: i in part ==> vs[i].id !in vs[b].deps
  {
    EdgesMeaning(vs);
    var ids := set i | i in part :: vs[i].id;
    var some :| some in part;
    assert vs[some].id in ids;
    AcyclicSubset(EdgesOf(vs), EdgesOf(vs).Keys, ids);
    var id := Bottom(EdgesOf(vs), ids);
    b :| b in part && vs[b].id == id;
    assert Out(EdgesOf(vs), vs[b].id) == vs[b].deps;
  }
}
