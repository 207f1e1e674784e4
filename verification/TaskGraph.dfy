/** Task graphs: validation, the ready list and failure propagation. */
module TaskGraph {
  import opened Wrappers
  import opened Ordering
  import opened Dag
  import DepthFirst

  type ID = string

  /** `Unset` is the empty string; `Custom` any text that is none of the named statuses. */
  datatype TaskStatus =
    | Unset | Pending | Ready | Running | Waiting | Blocked
    | Succeeded | Failed | Cancelled | TimedOut
    | Custom(text: string)
  {
    predicate Open() { Pending? || Ready? }
    predicate Failing() { Failed? || TimedOut? || Cancelled? }
  }

  datatype WorkflowStatus =
    | WorkflowCreated | WorkflowPlanned | WorkflowRunning
    | WorkflowSucceeded | WorkflowFailed | WorkflowCancelled

  datatype RetryPolicy = RetryPolicy(maxAttempts: int, retryableErrors: seq<string>)

  /** `payload` stands for the fields that no operation here reads: title, description,
      type, priority, timestamps and so on.
   */
  datatype Task = Task(
    id: ID,
    workflowID: ID,
    parentTaskID: ID,
    status: TaskStatus,
    dependencies: seq<ID>,
    retry: RetryPolicy,
    payload: string)

  /** Go's zero `Task`. */
  const ZERO_TASK := Task("", "", "", Unset, [], RetryPolicy(0, []), "")

  datatype Graph = Graph(tasks: map<ID, Task>, dependencies: Edges) {
    /** `graph.Tasks[id].Status`, the empty status when the key is absent. */
    function Status(id: ID): TaskStatus {
      if id in tasks then tasks[id].status else Unset
    }

    function Deps(id: ID): seq<ID> {
      Out(dependencies, id)
    }

    function OpenIds(): set<ID> {
      set id | id in tasks && tasks[id].status.Open()
    }

    function SetStatus(id: ID, status: TaskStatus): Graph
      requires id in tasks
    {
      this.(tasks := tasks[id := tasks[id].(status := status)])
    }
  }

  datatype GraphError = CycleError | MissingDependency | DuplicateDependency | InvalidParent

  class Workflow {
    var status: WorkflowStatus
    var graph: Graph

    constructor (graph: Graph, status: WorkflowStatus)
      ensures this.graph == graph && this.status == status
    {
      this.graph := graph;
      this.status := status;
    }
  }

  // ---------------------------------------------------------------- validation

  predicate ParentFits(g: Graph, task: Task) {
    task.parentTaskID == "" ||
    (task.parentTaskID in g.tasks && g.tasks[task.parentTaskID].workflowID == task.workflowID)
  }

  predicate WellFormedTask(g: Graph, id: ID)
    requires id in g.tasks
  {
    && g.tasks[id].id == id
    && Distinct(g.Deps(id))
    && (forall d :: d in g.Deps(id) ==> d in g.tasks)
    && ParentFits(g, g.tasks[id])
  }

  predicate LocallyValid(g: Graph) {
    forall id :: id in g.tasks ==> WellFormedTask(g, id)
  }

  ghost predicate ValidGraph(g: Graph) {
    LocallyValid(g) && Acyclic(g.dependencies, g.tasks.Keys)
  }

  /** What is wrong with the dependency list of a task, reading it from position `k`. */
  function DepsProblem(g: Graph, deps: seq<ID>, k: nat): Option<GraphError>
    requires k <= |deps|
    decreases |deps| - k
  {
    if k == |deps| then None
    else if deps[k] in deps[..k] then Some(DuplicateDependency)
    else if deps[k] !in g.tasks then Some(MissingDependency)
    else DepsProblem(g, deps, k + 1)
  }

  /** The local problem reported for one task: a task stored under a foreign id, then the
      first bad dependency, then a bad parent.
   */
  function TaskProblem(g: Graph, id: ID): Option<GraphError>
    requires id in g.tasks
  {
    var deps := DepsProblem(g, g.Deps(id), 0);
    if g.tasks[id].id != id then Some(InvalidParent)
    else if deps.Some? then deps
    else if !ParentFits(g, g.tasks[id]) then Some(InvalidParent)
    else None
  }

  lemma {:induction false} DepsProblemMeaning(g: Graph, deps: seq<ID>, k: nat)
    requires k <= |deps| && Distinct(deps[..k])
    ensures DepsProblem(g, deps, k).None? <==>
              Distinct(deps) && forall i :: k <= i < |deps| ==> deps[i] in g.tasks
    ensures DepsProblem(g, deps, k) == Some(DuplicateDependency) ==> !Distinct(deps)
    ensures DepsProblem(g, deps, k) == Some(MissingDependency) ==> exists d :: d in deps && d !in g.tasks
    ensures DepsProblem(g, deps, k) !in {Some(CycleError), Some(InvalidParent)}
    decreases |deps| - k
  {
    if k == |deps| {
      assert deps[..k] == deps;
    } else if deps[k] in deps[..k] {
      var i :| 0 <= i < k && deps[i] == deps[k];
    } else if deps[k] in g.tasks {
      assert deps[..k + 1] == deps[..k] + [deps[k]];
      DepsProblemMeaning(g, deps, k + 1);
    } else {
      assert deps[k] in deps;
    }
  }

  /** No problem is reported for a task exactly when it is well formed. */
  lemma TaskProblemMeaning(g: Graph, id: ID)
    requires id in g.tasks
    ensures TaskProblem(g, id).None? <==> WellFormedTask(g, id)
    ensures TaskProblem(g, id) == Some(DuplicateDependency) ==> !Distinct(g.Deps(id))
    ensures TaskProblem(g, id) == Some(MissingDependency) ==> exists d :: d in g.Deps(id) && d !in g.tasks
    ensures TaskProblem(g, id) == Some(InvalidParent) ==>
              || g.tasks[id].id != id
              || (var parent := g.tasks[id].parentTaskID;
                  parent != "" && (parent in g.tasks ==> g.tasks[parent].workflowID != g.tasks[id].workflowID))
    ensures TaskProblem(g, id) != Some(CycleError)
  {
    DepsProblemMeaning(g, g.Deps(id), 0);
  }

  /** Accepts exactly the valid graphs; answers "cycle" exactly when the tasks are locally
      sound and a dependency cycle exists; any other answer is the problem of some task.
   */
  method ValidateGraph(g: Graph) returns (err: Option<GraphError>)
    ensures err.None? <==> ValidGraph(g)
    ensures err.None? ==>
              forall id :: id in g.tasks ==>
                var task := g.tasks[id];
                && task.id == id && Distinct(g.Deps(id)) && (forall d :: d in g.Deps(id) ==> d in g.tasks)
                && (task.parentTaskID != "" ==>
                     task.parentTaskID in g.tasks && g.tasks[task.parentTaskID].workflowID == task.workflowID)
    ensures err == Some(CycleError) <==> LocallyValid(g) && !Acyclic(g.dependencies, g.tasks.Keys)
    ensures err.Some? && err != Some(CycleError) ==>
              exists id :: id in g.tasks && TaskProblem(g, id) == err
  {
    var todo := g.tasks.Keys;
    while todo != {}
      invariant todo <= g.tasks.Keys
      invariant forall id :: id in g.tasks.Keys - todo ==> WellFormedTask(g, id)
      decreases |todo|
    {
      var id :| id in todo;
      err := CheckTask(g, id);
      TaskProblemMeaning(g, id);
      if err.Some? {
        return;
      }
      todo := todo - {id};
    }
    var sorted := SortEdges(g);
    SortedSameCycles(g, sorted);
    var v := DepthFirst.VisitAll(sorted, g.tasks.Keys);
    match v {
      case Finished => return None;
      case CycleAt(_) => return Some(CycleError);
      case MissingAt(_, _) => assert false;
    }
  }

  method CheckTask(g: Graph, id: ID) returns (err: Option<GraphError>)
    requires id in g.tasks
    ensures err == TaskProblem(g, id)
  {
    var task := g.tasks[id];
    if task.id != id {
      return Some(InvalidParent);
    }
    var seen: set<ID> := {};
    var deps := g.Deps(id);
    for k := 0 to |deps|
      invariant seen == Elems(deps[..k])
      invariant DepsProblem(g, deps, 0) == DepsProblem(g, deps, k)
    {
      if deps[k] in seen {
        return Some(DuplicateDependency);
      }
      seen := seen + {deps[k]};
      assert deps[..k + 1] == deps[..k] + [deps[k]];
      if deps[k] !in g.tasks {
        return Some(MissingDependency);
      }
    }
    if task.parentTaskID != "" {
      if task.parentTaskID !in g.tasks || g.tasks[task.parentTaskID].workflowID != task.workflowID {
        return Some(InvalidParent);
      }
    }
    return None;
  }

  /** The sorted copies of the dependency lists that the visit walks. */
  method SortEdges(g: Graph) returns (sorted: Edges)
    ensures sorted.Keys == g.tasks.Keys
    ensures forall id :: id in sorted ==> sorted[id] == Sorting(Elems(g.Deps(id)))
  {
    sorted := map[];
    var todo := g.tasks.Keys;
    while todo != {}
      invariant todo <= g.tasks.Keys
      invariant sorted.Keys == g.tasks.Keys - todo
      invariant forall id :: id in sorted ==> sorted[id] == Sorting(Elems(g.Deps(id)))
      decreases |todo|
    {
      var id :| id in todo;
      var deps := SortIds(Elems(g.Deps(id)));
      sorted := sorted[id := deps];
      todo := todo - {id};
    }
  }

  lemma SortedSameCycles(g: Graph, sorted: Edges)
    requires LocallyValid(g) && sorted.Keys == g.tasks.Keys
    requires forall id :: id in sorted ==> sorted[id] == Sorting(Elems(g.Deps(id)))
    ensures Closed(sorted, g.tasks.Keys)
    ensures Acyclic(sorted, g.tasks.Keys) <==> Acyclic(g.dependencies, g.tasks.Keys)
  {
    forall n, d | n in g.tasks.Keys
      ensures d in Out(sorted, n) <==> d in Out(g.dependencies, n)
    {
      assert d in sorted[n] <==> d in Elems(sorted[n]);
    }
    assert Closed(g.dependencies, g.tasks.Keys) by {
      assert forall n :: n in g.tasks ==> WellFormedTask(g, n);
    }
    forall n | n in g.tasks.Keys
      ensures OnCycle(sorted, n) <==> OnCycle(g.dependencies, n)
    {
      SameEdgesSameCycles(sorted, g.dependencies, g.tasks.Keys, n);
      SameEdgesSameCycles(g.dependencies, sorted, g.tasks.Keys, n);
    }
  }

  /** What validation asks for, field by field; a cycle is a list of ids each of which has the
      next among its dependencies and which ends where it began.
   */
  lemma ValidMeaning(g: Graph)
    ensures ValidGraph(g) <==>
              && (forall id :: id in g.tasks ==>
                   var task := g.tasks[id];
                   && task.id == id && Distinct(g.Deps(id)) && (forall d :: d in g.Deps(id) ==> d in g.tasks)
                   && (task.parentTaskID != "" ==>
                        task.parentTaskID in g.tasks && g.tasks[task.parentTaskID].workflowID == task.workflowID))
              && !exists p: seq<ID> ::
                   && |p| >= 2 && p[0] in g.tasks && p[|p| - 1] == p[0]
                   && forall i :: 0 <= i < |p| - 1 ==> p[i + 1] in g.Deps(p[i])
  {
  }

  lemma ValidIsClosed(g: Graph)
    requires ValidGraph(g)
    ensures Closed(g.dependencies, g.tasks.Keys)
  {
    assert forall n :: n in g.tasks ==> WellFormedTask(g, n);
  }

  // ---------------------------------------------------------------- ready list

  predicate IsReady(g: Graph, id: ID) {
    id in g.tasks && g.tasks[id].status.Open() &&
    forall d :: d in g.Deps(id) ==> g.Status(d).Succeeded?
  }

  function ReadySet(g: Graph): set<ID> {
    set id | id in g.tasks && IsReady(g, id)
  }

  ghost function ReadyList(g: Graph): (ids: seq<ID>)
    ensures forall id :: id in ids <==> IsReady(g, id)
    ensures Distinct(ids)
  {
    var ids := Sorting(ReadySet(g));
    AscendingDistinct(ids);
    assert forall id :: id in ids <==> id in Elems(ids);
    ids
  }

  lemma ReadyMeaning(g: Graph)
    ensures Ascending(ReadyList(g)) && ReadySet(g) <= g.tasks.Keys
    ensures forall id :: id in ReadyList(g) <==>
              && id in g.tasks && (g.tasks[id].status == Pending || g.tasks[id].status == Ready)
              && forall d :: d in g.Deps(id) ==> d in g.tasks && g.tasks[d].status == Succeeded
  {
  }

  method ReadyTasks(g: Graph) returns (out: seq<ID>)
    ensures out == ReadyList(g) && Ascending(out)
    ensures forall id :: id in out <==>
              && id in g.tasks && (g.tasks[id].status == Pending || g.tasks[id].status == Ready)
              && forall d :: d in g.Deps(id) ==> d in g.tasks && g.tasks[d].status == Succeeded
  {
    hide IsReady, Sifted;
    var ids := SortIds(g.tasks.Keys);
    out := [];
    NothingSifted(ids, ReadySet(g));
    for k := 0 to |ids|
      invariant Sifted(ids, k, ReadySet(g), out)
    {
      SiftOne(ids, k, ReadySet(g), out);
      var ready := TaskReady(g, ids[k]);
      if ready {
        out := out + [ids[k]];
      }
    }
    SiftedAll(ids, g.tasks.Keys, ReadySet(g), out);
    ReadyMeaning(g);
  }

  /** `out` lists, in ascending order, the wanted ones among the first `k` of `ids`. */
  ghost predicate Sifted(ids: seq<ID>, k: nat, wanted: set<ID>, out: seq<ID>) {
    k <= |ids| && Ascending(out) && Elems(out) == Elems(ids[..k]) * wanted
  }

  lemma NothingSifted(ids: seq<ID>, wanted: set<ID>)
    ensures Sifted(ids, 0, wanted, [])
  {
  }

  lemma SiftOne(ids: seq<ID>, k: nat, wanted: set<ID>, out: seq<ID>)
    requires k < |ids| && Ascending(ids) && Sifted(ids, k, wanted, out)
    ensures ids[k] in Elems(ids)
    ensures Sifted(ids, k + 1, wanted, if ids[k] in wanted then out + [ids[k]] else out)
  {
    assert ids[..k + 1] == ids[..k] + [ids[k]];
    assert Elems(ids[..k + 1]) == Elems(ids[..k]) + {ids[k]};
    forall i | 0 <= i < |out| ensures Below(out[i], ids[k]) {
      assert out[i] in Elems(out);
    }
    assert Elems(out + [ids[k]]) == Elems(out) + {ids[k]};
  }

  lemma SiftedAll(ids: seq<ID>, all: set<ID>, wanted: set<ID>, out: seq<ID>)
    requires Sifted(ids, |ids|, wanted, out) && Elems(ids) == all && wanted <= all
    ensures out == Sorting(wanted)
  {
    assert ids[..|ids|] == ids;
    SortingIs(out, wanted);
  }

  method TaskReady(g: Graph, id: ID) returns (ready: bool)
    requires id in g.tasks
    ensures ready <==> id in ReadySet(g)
  {
    var status := g.tasks[id].status;
    if !status.Pending? && !status.Ready? {
      return false;
    }
    var deps := g.Deps(id);
    for k := 0 to |deps|
      invariant forall i :: 0 <= i < k ==> g.Status(deps[i]).Succeeded?
    {
      if !g.Status(deps[k]).Succeeded? {
        return false;
      }
    }
    return true;
  }

  // ------------------------------------------------------- failure propagation

  /** One of these tasks failed, timed out or was cancelled. */
  ghost predicate OneFailed(g: Graph, ids: seq<ID>) {
    exists d :: d in ids && d in g.tasks && g.tasks[d].status in {Failed, TimedOut, Cancelled}
  }

  predicate FailedDependency(g: Graph, id: ID) {
    exists d :: d in g.Deps(id) && g.Status(d).Failing()
  }

  lemma FailedMeaning(g: Graph, id: ID)
    ensures FailedDependency(g, id) <==> OneFailed(g, g.Deps(id))
  {
  }

  predicate ShouldBlock(g: Graph, id: ID) {
    id in g.tasks && g.tasks[id].status.Open() && FailedDependency(g, id)
  }

  /** The graph after failures are propagated: every open task with a failed, timed-out or
      cancelled direct dependency is blocked, and nothing else changes.
   */
  function Propagated(g: Graph): Graph {
    g.(tasks := map id | id in g.tasks ::
      if ShouldBlock(g, id) then g.tasks[id].(status := Blocked) else g.tasks[id])
  }

  /** Part of the propagation from `g0` done: the tasks blocked so far had to be. */
  predicate Propagating(g0: Graph, g: Graph) {
    && g.dependencies == g0.dependencies
    && g.tasks.Keys == g0.tasks.Keys
    && forall id :: id in g.tasks ==>
         g.tasks[id] == g0.tasks[id] ||
         (ShouldBlock(g0, id) && g.tasks[id] == g0.tasks[id].(status := Blocked))
  }

  lemma PropagatingKeepsFailures(g0: Graph, g: Graph, id: ID)
    requires Propagating(g0, g)
    ensures g.Status(id).Failing() <==> g0.Status(id).Failing()
    ensures FailedDependency(g, id) <==> FailedDependency(g0, id)
  {
    forall d ensures g.Status(d).Failing() <==> g0.Status(d).Failing() {
      if d in g.tasks {
        assert g.tasks[d] == g0.tasks[d] || (ShouldBlock(g0, d) && g.tasks[d].status == Blocked);
      }
    }
  }

  lemma PropagationDone(g0: Graph, g: Graph)
    requires Propagating(g0, g)
    requires forall id :: id in g.tasks ==> !ShouldBlock(g, id)
    ensures g == Propagated(g0)
  {
    forall id | id in g.tasks ensures g.tasks[id] == Propagated(g0).tasks[id] {
      PropagatingKeepsFailures(g0, g, id);
      assert !ShouldBlock(g, id);
    }
  }

  lemma BlockOne(g0: Graph, g: Graph, id: ID)
    requires Propagating(g0, g) && ShouldBlock(g, id)
    ensures Propagating(g0, g.SetStatus(id, Blocked))
    ensures g.SetStatus(id, Blocked).OpenIds() == g.OpenIds() - {id}
    ensures id in g.OpenIds()
  {
    PropagatingKeepsFailures(g0, g, id);
  }

  /** Repeats passes over the tasks, each in any order and over the tasks as already
      updated, until one changes nothing: the result does not depend on the orders.
   */
  method PropagateFailures(wf: Workflow)
    modifies wf`graph
    ensures wf.graph == Propagated(old(wf.graph))
    ensures wf.graph.dependencies == old(wf.graph).dependencies && wf.graph.tasks.Keys == old(wf.graph).tasks.Keys
    ensures forall id :: id in old(wf.graph).tasks ==>
              var task := old(wf.graph).tasks[id];
              if (task.status == Pending || task.status == Ready) && OneFailed(old(wf.graph), old(wf.graph).Deps(id))
              then wf.graph.tasks[id] == task.(status := Blocked) else wf.graph.tasks[id] == task
  {
    ghost var g0 := wf.graph;
    var changed := true;
    while changed
      invariant Propagating(g0, wf.graph)
      invariant !changed ==> forall id :: id in wf.graph.tasks ==> !ShouldBlock(wf.graph, id)
      decreases |wf.graph.OpenIds()|, changed
    {
      changed := PropagationPass(wf, g0);
    }
    PropagationDone(g0, wf.graph);
  }

  method PropagationPass(wf: Workflow, ghost g0: Graph) returns (changed: bool)
    requires Propagating(g0, wf.graph)
    modifies wf`graph
    ensures Propagating(g0, wf.graph)
    ensures !changed ==> wf.graph == old(wf.graph) && forall id :: id in wf.graph.tasks ==> !ShouldBlock(wf.graph, id)
    ensures changed ==> |wf.graph.OpenIds()| < |old(wf.graph).OpenIds()|
  {
    changed := false;
    var todo := wf.graph.tasks.Keys;
    while todo != {}
      invariant Propagating(g0, wf.graph)
      invariant todo <= wf.graph.tasks.Keys
      invariant !changed ==> wf.graph == old(wf.graph)
      invariant !changed ==> forall id :: id in wf.graph.tasks.Keys - todo ==> !ShouldBlock(wf.graph, id)
      invariant wf.graph.OpenIds() <= old(wf.graph).OpenIds()
      invariant changed ==> wf.graph.OpenIds() != old(wf.graph).OpenIds()
      decreases |todo|
    {
      var id :| id in todo;
      todo := todo - {id};
      var status := wf.graph.tasks[id].status;
      if status.Pending? || status.Ready? {
        var failed := HasFailedDependency(wf.graph, id);
        if failed {
          BlockOne(g0, wf.graph, id);
          wf.graph := wf.graph.SetStatus(id, Blocked);
          changed := true;
        }
      }
    }
    SubsetCount(wf.graph.OpenIds(), old(wf.graph).OpenIds());
  }

  method HasFailedDependency(g: Graph, id: ID) returns (failed: bool)
    ensures failed <==> FailedDependency(g, id)
  {
    var deps := g.Deps(id);
    for k := 0 to |deps|
      invariant forall i :: 0 <= i < k ==> !g.Status(deps[i]).Failing()
    {
      var status := g.Status(deps[k]);
      if status.Failed? || status.TimedOut? || status.Cancelled? {
        return true;
      }
    }
    return false;
  }

  /** Propagation is a fixed point: a second one finds nothing to do. */
  lemma PropagatedTwice(g: Graph)
    ensures Propagated(Propagated(g)) == Propagated(g)
  {
    var p := Propagated(g);
    assert Propagating(g, p);
    forall id | id in p.tasks ensures !ShouldBlock(p, id) {
      PropagatingKeepsFailures(g, p, id);
    }
    assert Propagated(p).tasks == p.tasks;
  }
}
