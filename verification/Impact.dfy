/** Change impact: what a node can affect, found breadth first, and how risky that is. */
module Impact {
  import opened Wrappers
  import opened Ordering
  import opened Knowledge

  /** An edge of the project leads from `a` to `b`. */
  ghost predicate Link(edges: Edges, project: string, a: string, b: string) {
    exists id :: id in edges && edges[id].projectID == project && edges[id].from == a && edges[id].to == b
  }

  ghost predicate IsWalk(edges: Edges, project: string, p: seq<string>) {
    p != [] && forall i, j :: 0 <= i && j == i + 1 && j < |p| ==> Link(edges, project, p[i], p[j])
  }

  ghost predicate Reaches(edges: Edges, project: string, a: string, b: string) {
    exists p :: IsWalk(edges, project, p) && p[0] == a && p[|p| - 1] == b
  }

  lemma ReachesSelf(edges: Edges, project: string, a: string)
    ensures Reaches(edges, project, a, a)
  {
    assert IsWalk(edges, project, [a]);
  }

  lemma ReachesNext(edges: Edges, project: string, a: string, b: string, c: string)
    requires Reaches(edges, project, a, b) && Link(edges, project, b, c)
    ensures Reaches(edges, project, a, c)
  {
    var p :| IsWalk(edges, project, p) && p[0] == a && p[|p| - 1] == b;
    assert IsWalk(edges, project, p + [c]);
  }

  ghost predicate ClosedUnder(edges: Edges, project: string, s: set<string>) {
    forall a, b :: a in s && Link(edges, project, a, b) ==> b in s
  }

  lemma {:induction false} WalkStays(edges: Edges, project: string, s: set<string>, p: seq<string>, k: nat)
    requires ClosedUnder(edges, project, s) && IsWalk(edges, project, p) && p[0] in s && k < |p|
    ensures p[k] in s
  {
    if k > 0 {
      WalkStays(edges, project, s, p, k - 1);
      assert Link(edges, project, p[k - 1], p[k]);
    }
  }

  /** The state of the search: what is seen is reachable, and what is seen but not queued has
      all its successors seen.
   */
  ghost predicate Searching(edges: Edges, project: string, root: string, seen: set<string>, queue: seq<string>) {
    && root in seen
    && (forall x :: x in queue ==> x in seen)
    && (forall x :: x in seen ==> Reaches(edges, project, root, x))
    && (forall x, y :: x in seen && x !in queue && Link(edges, project, x, y) ==> y in seen)
  }

  /** In the middle of an expansion of `id`: the first `k` edges are looked at. */
  ghost predicate Expanding(edges: Edges, project: string, root: string, seen: set<string>, queue: seq<string>,
        es: seq<Edge>, id: string, k: nat)
  {
    && k <= |es| && root in seen && id in seen
    && (forall x :: x in queue ==> x in seen)
    && (forall x :: x in seen ==> Reaches(edges, project, root, x))
    && (forall x, y :: x in seen && x != id && x !in queue && Link(edges, project, x, y) ==> y in seen)
    && (forall i :: 0 <= i < k && es[i].from == id ==> es[i].to in seen)
  }

  lemma ExpandingStart(edges: Edges, project: string, root: string, seen: set<string>, queue: seq<string>,
          es: seq<Edge>)
    requires Searching(edges, project, root, seen, queue) && queue != []
    ensures Expanding(edges, project, root, seen, queue[1..], es, queue[0], 0)
  {
    assert queue == [queue[0]] + queue[1..];
    assert forall x :: x in queue <==> x == queue[0] || x in queue[1..];
  }

  lemma ExpandingStep(edges: Edges, project: string, root: string, seen: set<string>, queue: seq<string>,
          es: seq<Edge>, id: string, k: nat)
    requires Expanding(edges, project, root, seen, queue, es, id, k) && ListsEdges(es, edges, project) && k < |es|
    ensures es[k].from != id || es[k].to in seen ==> Expanding(edges, project, root, seen, queue, es, id, k + 1)
    ensures es[k].from == id ==> Expanding(edges, project, root, seen + {es[k].to}, queue + [es[k].to], es, id, k + 1)
  {
    EdgeListed(es, edges, project);
    if es[k].from == id {
      assert es[k] in es;
      assert Link(edges, project, id, es[k].to);
      ReachesNext(edges, project, root, id, es[k].to);
    }
  }

  lemma ExpandingEnd(edges: Edges, project: string, root: string, seen: set<string>, queue: seq<string>,
          es: seq<Edge>, id: string)
    requires Expanding(edges, project, root, seen, queue, es, id, |es|) && ListsEdges(es, edges, project)
    ensures Searching(edges, project, root, seen, queue)
  {
    EdgeListed(es, edges, project);
    forall y | Link(edges, project, id, y) ensures y in seen {
      var e :| e in edges && edges[e].projectID == project && edges[e].from == id && edges[e].to == y;
      assert edges[e] in es;
      var i :| 0 <= i < |es| && es[i] == edges[e];
    }
  }

  function Targets(es: seq<Edge>): set<string> {
    set e | e in es :: e.to
  }

  /** The queue loop: terminates, cycles included, with exactly what is reachable. */
  method ReachableFrom(es: seq<Edge>, root: string, ghost edges: Edges, ghost project: string)
    returns (seen: set<string>)
    requires ListsEdges(es, edges, project)
    ensures forall x :: x in seen <==> Reaches(edges, project, root, x)
  {
    hide Searching, ListsEdges, Targets, Reaches;
    seen := {root};
    var queue := [root];
    SearchStart(edges, project, root);
    ghost var all := {root} + Targets(es);
    while queue != []
      invariant Searching(edges, project, root, seen, queue) && seen <= all
      decreases |all - seen|, |queue|
    {
      ghost var seen0, queue0 := seen, queue;
      seen, queue := Expand(es, root, seen, queue, edges, project);
      if seen != seen0 {
        SmallerRest(all, seen0, seen);
      }
    }
    SearchEnd(edges, project, root, seen);
  }

  method Expand(es: seq<Edge>, ghost root: string, seen: set<string>, queue: seq<string>, ghost edges: Edges,
          ghost project: string)
    returns (seen': set<string>, queue': seq<string>)
    requires ListsEdges(es, edges, project) && queue != []
    requires Searching(edges, project, root, seen, queue) && seen <= {root} + Targets(es)
    ensures Searching(edges, project, root, seen', queue') && seen <= seen' <= {root} + Targets(es)
    ensures seen' == seen ==> |queue'| < |queue|
  {
    hide Searching, Expanding, ListsEdges;
    var id := queue[0];
    seen', queue' := seen, queue[1..];
    ExpandingStart(edges, project, root, seen, queue, es);
    for k := 0 to |es|
      invariant Expanding(edges, project, root, seen', queue', es, id, k)
      invariant seen <= seen' <= {root} + Targets(es)
      invariant seen' == seen ==> queue' == queue[1..]
    {
      ExpandingStep(edges, project, root, seen', queue', es, id, k);
      if es[k].from == id && es[k].to !in seen' {
        assert es[k] in es;
        seen' := seen' + {es[k].to};
        queue' := queue' + [es[k].to];
      }
    }
    ExpandingEnd(edges, project, root, seen', queue', es, id);
  }

  lemma SearchStart(edges: Edges, project: string, root: string)
    ensures Searching(edges, project, root, {root}, [root])
  {
    ReachesSelf(edges, project, root);
  }

  lemma SearchEnd(edges: Edges, project: string, root: string, seen: set<string>)
    requires Searching(edges, project, root, seen, [])
    ensures forall x :: x in seen <==> Reaches(edges, project, root, x)
  {
    forall x | Reaches(edges, project, root, x) ensures x in seen {
      var p :| IsWalk(edges, project, p) && p[0] == root && p[|p| - 1] == x;
      WalkStays(edges, project, seen, p, |p| - 1);
    }
  }

  lemma SmallerRest(all: set<string>, a: set<string>, b: set<string>)
    requires a <= b <= all && a != b
    ensures |all - b| < |all - a|
  {
    SubsetCount(all - b, all - a);
  }

  // -------------------------------------------------------------------- the analysis

  datatype Risk = Low | Medium | High

  datatype Analysis = Analysis(
    nodes: seq<Node>, risk: Risk, approvalRequired: bool,
    files: seq<string>, apis: seq<string>, components: seq<string>, tests: seq<string>, reasons: seq<string>)

  /** The project nodes, other than the root, that the root reaches. */
  ghost function Affected(nodes: Nodes, edges: Edges, project: string, root: string): set<string> {
    set id | id in nodes && nodes[id].projectID == project && id != root && Reaches(edges, project, root, id)
  }

  predicate IsData(n: Node) { n.kind.Database? || n.kind.Table? }

  predicate IsCounted(n: Node) { n.kind.File? || n.kind.API? || n.kind.Component? || n.kind.Test? }

  ghost function CountedIn(nodes: Nodes, ids: set<string>): set<string> {
    set id | id in ids && id in nodes && IsCounted(nodes[id])
  }

  ghost function RiskOf(nodes: Nodes, ids: set<string>): Risk {
    if exists id :: id in ids && id in nodes && IsData(nodes[id]) then High
    else if |CountedIn(nodes, ids)| > 8 then Medium
    else Low
  }

  /** `Service.Impact`: exactly the affected nodes, in id order, and their risk; approval is
      required exactly when a database or table is affected.
   */
  method Analyze(store: MemoryStore, project: string, root: string) returns (a: Analysis)
    requires store.Valid()
    ensures Ascending(IdsOf(a.nodes))
    ensures Elems(IdsOf(a.nodes)) == Affected(store.nodes, store.edges, project, root)
    ensures forall n :: n in a.nodes ==> n.id in store.nodes && store.nodes[n.id] == n
    ensures a.risk == RiskOf(store.nodes, Affected(store.nodes, store.edges, project, root))
    ensures a.approvalRequired <==> a.risk.High?
    ensures a.files == Column(a.nodes, File) && a.apis == Column(a.nodes, API)
    ensures a.components == Column(a.nodes, Component) && a.tests == Column(a.nodes, Test)
    ensures IsColumn(a.nodes, File, a.files) && IsColumn(a.nodes, API, a.apis)
    ensures IsColumn(a.nodes, Component, a.components) && IsColumn(a.nodes, Test, a.tests)
    ensures a.reasons != [] && (a.risk.High? <==> a.reasons[0] == DATA_REASON)
  {
    hide ListsNodes, ListsEdges, Reaches, Below, CountedIn, RiskOf, ColumnAt, IsColumn, Column;
    var ns, es := store.ProjectGraph(project);
    var seen := ReachableFrom(es, root, store.edges, project);
    var out := Pick(ns, store.nodes, project, seen - {root});
    ghost var ids := Affected(store.nodes, store.edges, project, root);
    OutIsAffected(store.nodes, store.edges, project, root, seen, out);
    a := Classify(out);
    ghost var at := ColumnMeaning(out, File);
    at := ColumnMeaning(out, API);
    at := ColumnMeaning(out, Component);
    at := ColumnMeaning(out, Test);
    ClassifiedRisk(store.nodes, out, ids);
  }

  lemma OutIsAffected(nodes: Nodes, edges: Edges, project: string, root: string, seen: set<string>, out: seq<Node>)
    requires forall id :: id in nodes ==> nodes[id].id == id
    requires forall x :: x in seen <==> Reaches(edges, project, root, x)
    requires forall n :: n in out <==>
              n.id in ProjectNodeIds(nodes, project) && nodes[n.id] == n && n.id in seen - {root}
    ensures Elems(IdsOf(out)) == Affected(nodes, edges, project, root)
  {
    hide Reaches;
    forall id ensures id in Elems(IdsOf(out)) <==> id in Affected(nodes, edges, project, root) {
      if id in Elems(IdsOf(out)) {
        var i :| 0 <= i < |out| && IdsOf(out)[i] == id;
        assert out[i] in out;
      }
      if id in Affected(nodes, edges, project, root) {
        assert nodes[id] in out;
        var i :| 0 <= i < |out| && out[i] == nodes[id];
        assert IdsOf(out)[i] == id;
      }
    }
  }

  ghost predicate HasData(ns: seq<Node>) {
    exists n :: n in ns && IsData(n)
  }

  function CountedList(ns: seq<Node>): nat {
    if ns == [] then 0 else CountedList(ns[..|ns| - 1]) + (if IsCounted(ns[|ns| - 1]) then 1 else 0)
  }

  /** The paths of the files, or the names of another type's nodes, in the order of the list. */
  function Column(ns: seq<Node>, kind: NodeType): seq<string> {
    if ns == [] then []
    else
      var n := ns[|ns| - 1];
      Column(ns[..|ns| - 1], kind) + if n.kind == kind then [if kind.File? then n.path else n.name] else []
  }

  /** `col` lists the nodes of that type, each once and in order, files by their paths and all
      others by their names; `at` are their positions.
   */
  ghost predicate ColumnAt(ns: seq<Node>, kind: NodeType, col: seq<string>, at: seq<nat>) {
    && |at| == |col|
    && (forall i :: 0 <= i < |at| ==> at[i] < |ns| && ns[at[i]].kind == kind)
    && (forall i, j :: 0 <= i < j < |at| ==> at[i] < at[j])
    && (forall k: nat :: k < |ns| && ns[k].kind == kind ==> k in at)
    && (kind == File ==> forall i :: 0 <= i < |at| ==> col[i] == ns[at[i]].path)
    && (kind != File ==> forall i :: 0 <= i < |at| ==> col[i] == ns[at[i]].name)
  }

  ghost predicate IsColumn(ns: seq<Node>, kind: NodeType, col: seq<string>) {
    exists at :: ColumnAt(ns, kind, col, at)
  }

  lemma {:induction false} ColumnMeaning(ns: seq<Node>, kind: NodeType) returns (at: seq<nat>)
    ensures ColumnAt(ns, kind, Column(ns, kind), at) && IsColumn(ns, kind, Column(ns, kind))
  {
    hide ColumnAt;
    if ns == [] {
      at := [];
      NoColumn(kind);
    } else {
      var n := |ns| - 1;
      at := ColumnMeaning(ns[..n], kind);
      if ns[n].kind == kind {
        ColumnTake(ns, kind, Column(ns[..n], kind), at, if kind == File then ns[n].path else ns[n].name);
        at := at + [n];
      } else {
        ColumnSkip(ns, kind, Column(ns[..n], kind), at);
        assert Column(ns, kind) == Column(ns[..n], kind);
      }
    }
    assert ColumnAt(ns, kind, Column(ns, kind), at);
  }

  lemma NoColumn(kind: NodeType)
    ensures ColumnAt([], kind, [], [])
  {
  }

  lemma ColumnSkip(ns: seq<Node>, kind: NodeType, col: seq<string>, at: seq<nat>)
    requires ns != [] && ColumnAt(ns[..|ns| - 1], kind, col, at) && ns[|ns| - 1].kind != kind
    ensures ColumnAt(ns, kind, col, at)
  {
    var init := ns[..|ns| - 1];
    assert forall i :: 0 <= i < |at| ==> at[i] < |init| && ns[at[i]] == init[at[i]];
    forall k: nat | k < |ns| && ns[k].kind == kind ensures k in at {
      assert init[k] == ns[k];
    }
  }

  lemma ColumnTake(ns: seq<Node>, kind: NodeType, col: seq<string>, at: seq<nat>, s: string)
    requires ns != [] && ColumnAt(ns[..|ns| - 1], kind, col, at) && ns[|ns| - 1].kind == kind
    requires s == if kind == File then ns[|ns| - 1].path else ns[|ns| - 1].name
    ensures ColumnAt(ns, kind, col + [s], at + [|ns| - 1])
  {
    var n := |ns| - 1;
    var init, more := ns[..n], at + [n];
    assert forall i :: 0 <= i < |at| ==> more[i] == at[i] && at[i] < n && ns[at[i]] == init[at[i]];
    assert more[|at|] == n;
    forall k: nat | k < |ns| && ns[k].kind == kind ensures k in more {
      if k < n {
        assert init[k] == ns[k];
        var i :| 0 <= i < |at| && at[i] == k;
        assert more[i] == k;
      }
    }
  }

  lemma {:induction false} ColumnsCount(ns: seq<Node>)
    ensures |Column(ns, File)| + |Column(ns, API)| + |Column(ns, Component)| + |Column(ns, Test)| == CountedList(ns)
  {
    if ns != [] {
      ColumnsCount(ns[..|ns| - 1]);
    }
  }

  /** What the loop has made of the first nodes. */
  ghost predicate Tallied(a: Analysis, ns: seq<Node>) {
    && a.files == Column(ns, File) && a.apis == Column(ns, API)
    && a.components == Column(ns, Component) && a.tests == Column(ns, Test)
    && a.risk == (if HasData(ns) then High else Low)
    && (a.approvalRequired <==> HasData(ns))
    && (a.reasons == [] <==> !HasData(ns))
    && (a.reasons != [] ==> a.reasons[0] == DATA_REASON)
  }

  const DATA_REASON := "database impact requires approval"

  function TallyOne(a: Analysis, n: Node): Analysis {
    match n.kind
    case File => a.(files := a.files + [n.path])
    case API => a.(apis := a.apis + [n.name])
    case Component => a.(components := a.components + [n.name])
    case Test => a.(tests := a.tests + [n.name])
    case Database => a.(risk := High, approvalRequired := true, reasons := a.reasons + [DATA_REASON])
    case Table => a.(risk := High, approvalRequired := true, reasons := a.reasons + [DATA_REASON])
    case OtherType(_) => a
  }

  lemma TalliedStep(a: Analysis, ns: seq<Node>, k: nat)
    requires k < |ns| && Tallied(a, ns[..k])
    ensures Tallied(TallyOne(a, ns[k]), ns[..k + 1])
  {
    var n := ns[k];
    assert ns[..k + 1] == ns[..k] + [n] && ns[..k + 1][..k] == ns[..k];
    assert HasData(ns[..k + 1]) <==> HasData(ns[..k]) || IsData(n) by {
      hide Column;
      assert forall x :: x in ns[..k + 1] <==> x in ns[..k] || x == n;
    }
  }

  /** The loop over the affected nodes and the two adjustments after it. */
  method Classify(out: seq<Node>) returns (a: Analysis)
    ensures a.nodes == out
    ensures a.files == Column(out, File) && a.apis == Column(out, API)
    ensures a.components == Column(out, Component) && a.tests == Column(out, Test)
    ensures a.risk == if HasData(out) then High else if CountedList(out) > 8 then Medium else Low
    ensures a.approvalRequired <==> HasData(out)
    ensures a.reasons != [] && (HasData(out) <==> a.reasons[0] == DATA_REASON)
  {
    hide Column, HasData, CountedList;
    a := Analysis(out, Low, false, [], [], [], [], []);
    NothingTallied(a, out);
    for k := 0 to |out|
      invariant a.nodes == out && Tallied(a, out[..k])
    {
      TalliedStep(a, out, k);
      var n := out[k];
      match n.kind {
        case File => a := a.(files := a.files + [n.path]);
        case API => a := a.(apis := a.apis + [n.name]);
        case Component => a := a.(components := a.components + [n.name]);
        case Test => a := a.(tests := a.tests + [n.name]);
        case Database =>
          a := a.(risk := High, approvalRequired := true, reasons := a.reasons + ["database impact requires approval"]);
        case Table =>
          a := a.(risk := High, approvalRequired := true, reasons := a.reasons + ["database impact requires approval"]);
        case OtherType(_) =>
      }
    }
    assert out[..|out|] == out;
    ColumnsCount(out);
    if |a.files| + |a.apis| + |a.components| + |a.tests| > 8 && a.risk == Low {
      a := a.(risk := Medium);
    }
    if |a.reasons| == 0 {
      a := a.(reasons := ["impact is derived from structured graph relationships"]);
    }
  }

  lemma NothingTallied(a: Analysis, out: seq<Node>)
    requires a == Analysis(out, Low, false, [], [], [], [], [])
    ensures Tallied(a, out[..0])
  {
  }

  lemma ClassifiedRisk(nodes: Nodes, out: seq<Node>, ids: set<string>)
    requires Ascending(IdsOf(out)) && Elems(IdsOf(out)) == ids
    requires forall n :: n in out ==> n.id in nodes && nodes[n.id] == n
    ensures RiskOf(nodes, ids) == if HasData(out) then High else if CountedList(out) > 8 then Medium else Low
    ensures CountedList(out) == |CountedIn(nodes, ids)|
  {
    AscendingDistinct(IdsOf(out));
    hide Below;
    CountedDistinct(nodes, out);
    forall i | 0 <= i < |out| ensures IdsOf(out)[i] in ids && nodes[IdsOf(out)[i]] == out[i] {
      assert out[i] in out;
      assert IdsOf(out)[i] in Elems(IdsOf(out));
    }
    forall id | id in ids ensures id in nodes && nodes[id] in out {
      var i :| 0 <= i < |out| && IdsOf(out)[i] == id;
    }
    if HasData(out) {
      var n :| n in out && IsData(n);
      var i :| 0 <= i < |out| && out[i] == n;
      assert IdsOf(out)[i] in ids;
    }
  }

  lemma {:induction false} CountedDistinct(nodes: Nodes, out: seq<Node>)
    requires Distinct(IdsOf(out)) && forall n :: n in out ==> n.id in nodes && nodes[n.id] == n
    ensures CountedList(out) == |CountedIn(nodes, Elems(IdsOf(out)))|
  {
    hide IsCounted;
    if out == [] {
      NoneCounted(nodes);
    } else {
      var init := out[..|out| - 1];
      IdsOfLast(out);
      CountedDistinct(nodes, init);
      CountedMore(nodes, Elems(IdsOf(init)), out[|out| - 1]);
    }
  }

  lemma NoneCounted(nodes: Nodes)
    ensures |CountedIn(nodes, Elems(IdsOf([])))| == 0
  {
    assert CountedIn(nodes, Elems(IdsOf([]))) == {};
  }

  lemma IdsOfLast(out: seq<Node>)
    requires out != [] && Distinct(IdsOf(out))
    ensures var init, n := out[..|out| - 1], out[|out| - 1];
            Distinct(IdsOf(init)) && n.id !in Elems(IdsOf(init)) && Elems(IdsOf(out)) == Elems(IdsOf(init)) + {n.id}
            && n in out && forall m :: m in init ==> m in out
  {
    var init, n := out[..|out| - 1], out[|out| - 1];
    assert IdsOf(out) == IdsOf(init) + [n.id];
    assert forall i :: 0 <= i < |init| ==> IdsOf(init)[i] == IdsOf(out)[i];
  }

  lemma CountedMore(nodes: Nodes, ids: set<string>, n: Node)
    requires n.id !in ids && n.id in nodes && nodes[n.id] == n
    ensures |CountedIn(nodes, ids + {n.id})| == |CountedIn(nodes, ids)| + if IsCounted(n) then 1 else 0
  {
    hide IsCounted;
    assert CountedIn(nodes, ids + {n.id}) == CountedIn(nodes, ids) + if IsCounted(n) then {n.id} else {};
  }

  // ------------------------------------------------------------------ monotonicity

  /** `b` holds everything `a` holds, unchanged. */
  ghost predicate Extends<K, V>(a: map<K, V>, b: map<K, V>) {
    forall k :: k in a ==> k in b && b[k] == a[k]
  }

  function Level(r: Risk): nat {
    match r case Low => 0 case Medium => 1 case High => 2
  }

  lemma MoreEdgesReach(edges: Edges, more: Edges, project: string, a: string, b: string)
    requires Extends(edges, more) && Reaches(edges, project, a, b)
    ensures Reaches(more, project, a, b)
  {
    var p :| IsWalk(edges, project, p) && p[0] == a && p[|p| - 1] == b;
    forall i, j | 0 <= i && j == i + 1 && j < |p| ensures Link(more, project, p[i], p[j]) {
      assert Link(edges, project, p[i], p[j]);
      var id :| id in edges && edges[id].projectID == project && edges[id].from == p[i] && edges[id].to == p[j];
      assert more[id] == edges[id];
    }
    assert IsWalk(more, project, p);
  }

  /** Adding nodes and edges never takes a node out of the impact and never lowers the risk. */
  lemma ImpactGrows(nodes: Nodes, edges: Edges, moreNodes: Nodes, moreEdges: Edges, project: string, root: string)
    requires Extends(nodes, moreNodes) && Extends(edges, moreEdges)
    ensures Affected(nodes, edges, project, root) <= Affected(moreNodes, moreEdges, project, root)
    ensures Level(RiskOf(nodes, Affected(nodes, edges, project, root)))
         <= Level(RiskOf(moreNodes, Affected(moreNodes, moreEdges, project, root)))
  {
    hide Reaches;
    var few := Affected(nodes, edges, project, root);
    var many := Affected(moreNodes, moreEdges, project, root);
    forall id | id in few ensures id in many {
      MoreEdgesReach(edges, moreEdges, project, root, id);
    }
    assert CountedIn(nodes, few) <= CountedIn(moreNodes, many);
    SubsetCount(CountedIn(nodes, few), CountedIn(moreNodes, many));
    if RiskOf(nodes, few).High? {
      var id :| id in few && id in nodes && IsData(nodes[id]);
      assert id in many && moreNodes[id] == nodes[id];
    }
  }
}
