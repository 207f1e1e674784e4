/** From a plan to a workflow: plan validation and the renaming of its task graph. */
module Planning {
  import opened Wrappers
  import opened Ordering
  import opened Dag
  import opened TaskGraph

  datatype TaskPlan = TaskPlan(goal: string, tasks: seq<Task>, dependencies: Edges)

  datatype PlanError = NoPlanner | PlannerFailed | EmptyPlan | DuplicateTask | MissingKey | BadGraph(error: GraphError)

  datatype Planned = Planned(id: ID, goal: string, status: WorkflowStatus, graph: Graph)

  // ------------------------------------------------------------ plan validation

  predicate DistinctIds(tasks: seq<Task>) {
    forall i, j :: 0 <= i < j < |tasks| ==> tasks[i].id != tasks[j].id
  }

  /** The tasks of a plan under their ids. */
  function Index(tasks: seq<Task>): map<ID, Task> {
    if tasks == [] then map[]
    else Index(tasks[..|tasks| - 1])[tasks[|tasks| - 1].id := tasks[|tasks| - 1]]
  }

  lemma {:induction false} IndexMeaning(tasks: seq<Task>)
    ensures forall id :: id in Index(tasks) <==> exists i :: 0 <= i < |tasks| && tasks[i].id == id
    ensures DistinctIds(tasks) ==> forall i :: 0 <= i < |tasks| ==> Index(tasks)[tasks[i].id] == tasks[i]
  {
    if tasks != [] {
      var init := tasks[..|tasks| - 1];
      IndexMeaning(init);
      assert forall i :: 0 <= i < |init| ==> tasks[i] == init[i];
      forall id ensures id in Index(tasks) <==> exists i :: 0 <= i < |tasks| && tasks[i].id == id {
        assert id in Index(tasks) <==> id in Index(init) || id == tasks[|tasks| - 1].id;
        if i :| 0 <= i < |init| && init[i].id == id {
          assert tasks[i].id == id;
        }
      }
    }
  }

  /** The graph that is validated: a dependency key that names no task is given the zero
      task, since reading a missing map entry yields it.
   */
  function Completed(plan: TaskPlan): Graph {
    var index := Index(plan.tasks);
    Graph(map id | id in index.Keys + plan.dependencies.Keys :: if id in index then index[id] else ZERO_TASK,
          plan.dependencies)
  }

  /** The plan is accepted exactly when it has a goal and tasks, its task ids are distinct and
      its completed graph is valid; the result is that graph. The error for a dependency key
      that names no task is never given.
   */
  method ValidatePlan(plan: TaskPlan) returns (r: Result<Graph, PlanError>)
    ensures r.Success? <==>
              plan.goal != "" && plan.tasks != [] && DistinctIds(plan.tasks) && ValidGraph(Completed(plan))
    ensures r.Success? ==> r.value == Completed(plan)
    ensures r == Failure(EmptyPlan) <==> plan.goal == "" || plan.tasks == []
    ensures r == Failure(DuplicateTask) <==> plan.goal != "" && plan.tasks != [] && !DistinctIds(plan.tasks)
    ensures r.Failure? && r.error.BadGraph? && r.error.error.CycleError? ==>
              LocallyValid(Completed(plan)) && !Acyclic(plan.dependencies, Completed(plan).tasks.Keys)
    ensures r.Failure? && r.error.BadGraph? && !r.error.error.CycleError? ==>
              exists id :: id in Completed(plan).tasks && TaskProblem(Completed(plan), id) == Some(r.error.error)
    ensures r.Failure? ==> r.error.EmptyPlan? || r.error.DuplicateTask? || r.error.BadGraph?
    ensures r != Failure(MissingKey)
  {
    hide ValidGraph, LocallyValid, Acyclic, TaskProblem, DistinctIds, Completed;
    if plan.goal == "" || |plan.tasks| == 0 {
      return Failure(EmptyPlan);
    }
    var index := IndexTasks(plan.tasks);
    if index.None? {
      return Failure(DuplicateTask);
    }
    var graph, missing := Complete(plan, index.value);
    var err := ValidateGraph(graph);
    return if missing then Failure(MissingKey) else if err.Some? then Failure(BadGraph(err.value)) else Success(graph);
  }

  method IndexTasks(tasks: seq<Task>) returns (index: Option<map<ID, Task>>)
    ensures index.Some? <==> DistinctIds(tasks)
    ensures index.Some? ==> index.value == Index(tasks)
  {
    hide Index, DistinctIds;
    IndexStart(tasks);
    var m: map<ID, Task> := map[];
    for k := 0 to |tasks|
      invariant m == Index(tasks[..k])
      invariant DistinctIds(tasks[..k])
    {
      IndexStep(tasks, k);
      if tasks[k].id in m {
        return None;
      }
      m := m[tasks[k].id := tasks[k]];
    }
    return Some(m);
  }

  lemma IndexStart(tasks: seq<Task>)
    ensures Index(tasks[..0]) == map[] && DistinctIds(tasks[..0])
    ensures tasks[..|tasks|] == tasks
  {
  }

  lemma IndexStep(tasks: seq<Task>, k: nat)
    requires k < |tasks| && DistinctIds(tasks[..k])
    ensures Index(tasks[..k + 1]) == Index(tasks[..k])[tasks[k].id := tasks[k]]
    ensures if tasks[k].id in Index(tasks[..k]) then !DistinctIds(tasks) else DistinctIds(tasks[..k + 1])
  {
    IndexMeaning(tasks[..k]);
    assert tasks[..k + 1][..k] == tasks[..k];
    if tasks[k].id in Index(tasks[..k]) {
      var i :| 0 <= i < k && tasks[..k][i].id == tasks[k].id;
      assert tasks[i].id == tasks[k].id;
    } else {
      forall i | 0 <= i < k ensures tasks[i].id != tasks[k].id {
        assert tasks[..k][i] == tasks[i];
      }
    }
  }

  /** Goes through the dependency keys. The look for a missing task comes after the assignment
      that supplies one, and finds nothing missing.
   */
  method Complete(plan: TaskPlan, index: map<ID, Task>) returns (graph: Graph, missing: bool)
    requires index == Index(plan.tasks)
    ensures graph == Completed(plan) && graph.dependencies == plan.dependencies
    ensures !missing
  {
    hide Index, Completed, Completing;
    var tasks := index;
    var todo := plan.dependencies.Keys;
    missing := false;
    CompletingEnds(plan, index, tasks, todo);
    while todo != {} && !missing
      invariant Completing(plan, index, tasks, todo) && !missing
      decreases |todo|
    {
      var id :| id in todo;
      CompletingStep(plan, index, tasks, todo, id);
      var zero := Task("", "", "", Unset, [], RetryPolicy(0, []), "");
      tasks := tasks[id := if id in tasks then tasks[id] else zero];
      missing := id !in tasks;
      todo := todo - {id};
    }
    CompletingEnds(plan, index, tasks, todo);
    graph := Graph(tasks, plan.dependencies);
  }

  /** The keys in `todo` are still to be given a task. */
  ghost predicate Completing(plan: TaskPlan, index: map<ID, Task>, tasks: map<ID, Task>, todo: set<ID>) {
    && todo <= plan.dependencies.Keys
    && (forall id :: id in tasks <==> id in index || (id in plan.dependencies && id !in todo))
    && (forall id :: id in tasks ==> tasks[id] == if id in index then index[id] else ZERO_TASK)
  }

  lemma CompletingStep(plan: TaskPlan, index: map<ID, Task>, tasks: map<ID, Task>, todo: set<ID>, id: ID)
    requires Completing(plan, index, tasks, todo) && id in todo
    ensures Completing(plan, index, tasks[id := if id in tasks then tasks[id] else ZERO_TASK], todo - {id})
  {
  }

  lemma CompletingEnds(plan: TaskPlan, index: map<ID, Task>, tasks: map<ID, Task>, todo: set<ID>)
    requires index == Index(plan.tasks)
    ensures tasks == index && todo == plan.dependencies.Keys ==> Completing(plan, index, tasks, todo)
    ensures todo == {} && Completing(plan, index, tasks, todo) ==> Graph(tasks, plan.dependencies) == Completed(plan)
  {
    hide Index;
    if todo == {} && Completing(plan, index, tasks, todo) {
      assert tasks == Completed(plan).tasks;
    }
  }

  /** A dependency key without a task is let through exactly if it is the empty id: in an
      accepted plan every key names a task unless the empty id is a key that names none.
   */
  lemma PhantomTask(plan: TaskPlan)
    requires ValidGraph(Completed(plan))
    ensures forall id :: id in plan.dependencies && id !in Index(plan.tasks) ==> id == ""
    ensures (forall id :: id in plan.dependencies ==> id in Index(plan.tasks)) <==>
              !("" in plan.dependencies && "" !in Index(plan.tasks))
  {
    hide Index;
    forall id | id in plan.dependencies && id !in Index(plan.tasks) ensures id == "" {
      assert WellFormedTask(Completed(plan), id);
    }
  }

  /** Such a plan is accepted: one task, and a dependency key that names none. */
  lemma PhantomAccepted()
    ensures var plan := TaskPlan("goal", [ZERO_TASK.(id := "a")], map["" := []]);
            && plan.goal != "" && plan.tasks != [] && DistinctIds(plan.tasks) && ValidGraph(Completed(plan))
            && "" in plan.dependencies && "" !in Index(plan.tasks)
  {
    var task := ZERO_TASK.(id := "a");
    var plan := TaskPlan("goal", [task], map["" := []]);
    assert Index([task]) == map["a" := task] by {
      assert [task][..0] == [];
    }
    var g := Completed(plan);
    assert g.Deps("a") == [] && g.Deps("") == [];
    NoEdgesAcyclic(g.dependencies, g.tasks.Keys);
  }

  lemma NoEdgesAcyclic(edges: Edges, nodes: set<Node>)
    requires forall n :: Out(edges, n) == []
    ensures Acyclic(edges, nodes)
  {
    forall p ensures !IsCycle(edges, p) {
      if |p| >= 2 {
        assert p[1] !in Out(edges, p[0]);
      }
    }
  }

  // ------------------------------------------------------------------- renaming

  function NewId(w: ID, id: ID): ID {
    w + "_" + id
  }

  function OldId(w: ID, id: ID): ID
    requires |id| > |w|
  {
    id[|w| + 1..]
  }

  lemma RenamingInverse(w: ID, id: ID)
    ensures |NewId(w, id)| > |w| && OldId(w, NewId(w, id)) == id
  {
    assert NewId(w, id)[|w| + 1..] == id;
  }

  lemma RenamingInjective(w: ID)
    ensures forall a, b :: NewId(w, a) == NewId(w, b) ==> a == b
  {
    forall a, b | NewId(w, a) == NewId(w, b) ensures a == b {
      RenamingInverse(w, a);
      RenamingInverse(w, b);
    }
  }

  function NewIds(w: ID, ids: seq<ID>): (r: seq<ID>)
    ensures |r| == |ids|
    ensures forall i :: 0 <= i < |ids| ==> r[i] == NewId(w, ids[i])
  {
    seq(|ids|, i requires 0 <= i < |ids| => NewId(w, ids[i]))
  }

  function NewTask(g: Graph, w: ID, id: ID): Task
    requires id in g.tasks
  {
    g.tasks[id].(id := NewId(w, id), workflowID := w, dependencies := NewIds(w, g.Deps(id)))
  }

  /** `h` is `g` under the renaming: the same tasks and dependency lists with new ids,
      nothing else changed and nothing added.
   */
  ghost predicate IsRenaming(g: Graph, w: ID, h: Graph) {
    Renaming(g, w, h, {})
  }

  /** The copy field by field: every task under its prefixed id, with that id, the workflow's id
      and its prefixed dependencies, listed in the task itself and in the graph; its parent,
      status, retry policy and payload are the original's. Nothing else is there.
   */
  ghost predicate Copied(g: Graph, w: ID, h: Graph) {
    && (forall n :: n in h.tasks <==> exists id :: id in g.tasks && n == w + "_" + id)
    && h.dependencies.Keys == h.tasks.Keys
    && (forall id :: id in g.tasks ==> w + "_" + id in h.tasks && CopiedTask(g, w, h, id))
  }

  ghost predicate CopiedTask(g: Graph, w: ID, h: Graph, id: ID)
    requires id in g.tasks && w + "_" + id in h.tasks
  {
    var (old', new') := (g.tasks[id], h.tasks[w + "_" + id]);
    && new'.id == w + "_" + id && new'.workflowID == w
    && new'.parentTaskID == old'.parentTaskID && new'.status == old'.status
    && new'.retry == old'.retry && new'.payload == old'.payload
    && w + "_" + id in h.dependencies && new'.dependencies == h.dependencies[w + "_" + id]
    && |new'.dependencies| == |g.Deps(id)|
    && forall i :: 0 <= i < |g.Deps(id)| ==> new'.dependencies[i] == w + "_" + g.Deps(id)[i]
  }

  lemma RenamingCopies(g: Graph, w: ID, h: Graph)
    requires IsRenaming(g, w, h)
    ensures Copied(g, w, h)
  {
    hide Renaming, NewId, OldId, CopiedTask;
    forall id | id in g.tasks ensures w + "_" + id in h.tasks && CopiedTask(g, w, h, id) {
      TaskCopied(g, w, h, id);
    }
    forall n ensures n in h.tasks <==> exists id :: id in g.tasks && n == w + "_" + id {
      if n in h.tasks {
        RenamedName(g, w, h, n);
        NewIdIs(w, OldId(w, n));
      }
    }
    assert h.dependencies.Keys == h.tasks.Keys by { RenamingKeys(g, w, h); }
  }

  lemma NewIdIs(w: ID, id: ID)
    ensures NewId(w, id) == w + "_" + id
  {
  }

  lemma RenamingKeys(g: Graph, w: ID, h: Graph)
    requires IsRenaming(g, w, h)
    ensures h.dependencies.Keys == h.tasks.Keys
  {
  }

  lemma TaskCopied(g: Graph, w: ID, h: Graph, id: ID)
    requires IsRenaming(g, w, h) && id in g.tasks
    ensures w + "_" + id in h.tasks && CopiedTask(g, w, h, id)
  {
    hide OldId, NewId;
    NewIdIs(w, id);
    assert NewId(w, id) in h.tasks && h.tasks[NewId(w, id)] == NewTask(g, w, id);
    forall i | 0 <= i < |g.Deps(id)| ensures NewIds(w, g.Deps(id))[i] == w + "_" + g.Deps(id)[i] {
      NewIdIs(w, g.Deps(id)[i]);
    }
  }

  /** The renaming loop, over the tasks in any order. */
  method Remap(g: Graph, w: ID) returns (h: Graph)
    ensures IsRenaming(g, w, h) && Copied(g, w, h)
  {
    hide NewTask, NewIds, Renaming, Copied;
    h := Graph(map[], map[]);
    var todo := g.tasks.Keys;
    RenamingStart(g, w);
    while todo != {}
      invariant todo <= g.tasks.Keys && Renaming(g, w, h, todo)
      decreases |todo|
    {
      var id :| id in todo;
      RenamingStep(g, w, h, todo, id);
      var newID := w + "_" + id;
      var deps := PrefixAll(w, g.Deps(id));
      var task := g.tasks[id].(id := newID, workflowID := w, dependencies := deps);
      RenamedRecord(g, w, id, task);
      h := Graph(h.tasks[newID := task], h.dependencies[newID := deps]);
      todo := todo - {id};
    }
    RenamingCopies(g, w, h);
  }

  lemma RenamedRecord(g: Graph, w: ID, id: ID, task: Task)
    requires id in g.tasks
    requires task == g.tasks[id].(id := w + "_" + id, workflowID := w, dependencies := NewIds(w, g.Deps(id)))
    ensures task == NewTask(g, w, id) && NewId(w, id) == w + "_" + id
  {
  }

  method PrefixAll(w: ID, ids: seq<ID>) returns (r: seq<ID>)
    ensures r == NewIds(w, ids)
  {
    r := [];
    for k := 0 to |ids|
      invariant |r| == k && forall i :: 0 <= i < k ==> r[i] == NewIds(w, ids)[i]
    {
      r := r + [w + "_" + ids[k]];
    }
  }

  /** All tasks but those in `todo` are renamed. */
  ghost predicate Renaming(g: Graph, w: ID, h: Graph, todo: set<ID>) {
    && (forall id :: id in g.tasks && id !in todo ==>
         NewId(w, id) in h.tasks && h.tasks[NewId(w, id)] == NewTask(g, w, id))
    && (forall n :: n in h.tasks ==> |n| > |w| && OldId(w, n) in g.tasks && n == NewId(w, OldId(w, n)))
    && h.dependencies.Keys == h.tasks.Keys
    && (forall id :: id in g.tasks && id !in todo ==>
         NewId(w, id) in h.dependencies && h.dependencies[NewId(w, id)] == NewIds(w, g.Deps(id)))
  }

  lemma RenamingStep(g: Graph, w: ID, h: Graph, todo: set<ID>, id: ID)
    requires Renaming(g, w, h, todo) && id in todo && id in g.tasks
    ensures var n := NewId(w, id);
            var more := Graph(h.tasks[n := NewTask(g, w, id)], h.dependencies[n := NewIds(w, g.Deps(id))]);
            Renaming(g, w, more, todo - {id})
  {
    hide NewId, NewTask, NewIds, OldId;
    RenamingInjective(w);
    RenamingInverse(w, id);
  }

  lemma RenamingStart(g: Graph, w: ID)
    ensures Renaming(g, w, Graph(map[], map[]), g.tasks.Keys)
  {
  }

  /** `Orchestrator.Plan`: what the planner returned, validated and renamed. */
  method Plan(planner: Option<Result<TaskPlan, string>>, workflowID: ID) returns (r: Result<Planned, PlanError>)
    ensures r == Failure(NoPlanner) <==> planner.None?
    ensures r == Failure(PlannerFailed) <==> planner.Some? && planner.value.Failure?
    ensures r.Success? ==>
              && planner.Some? && planner.value.Success?
              && ValidGraph(Completed(planner.value.value))
              && IsRenaming(Completed(planner.value.value), workflowID, r.value.graph)
              && Copied(Completed(planner.value.value), workflowID, r.value.graph)
              && r.value == Planned(workflowID, planner.value.value.goal, WorkflowPlanned, r.value.graph)
    ensures planner.Some? && planner.value.Success? ==>
              var plan := planner.value.value;
              r.Success? <==>
                  plan.goal != "" && plan.tasks != [] && DistinctIds(plan.tasks) && ValidGraph(Completed(plan))
  {
    hide ValidGraph, IsRenaming, Copied, Completed, DistinctIds;
    if planner.None? {
      return Failure(NoPlanner);
    }
    if planner.value.Failure? {
      return Failure(PlannerFailed);
    }
    var plan := planner.value.value;
    var validated := ValidatePlan(plan);
    if validated.Failure? {
      return Failure(validated.error);
    }
    var remapped := Remap(validated.value, workflowID);
    return Success(Planned(workflowID, plan.goal, WorkflowPlanned, remapped));
  }

  // --------------------------------------------------------- the copy is faithful

  /** Edges correspond: what a renamed task depends on are the renamed dependencies. */
  lemma RenamedEdges(g: Graph, w: ID, h: Graph, n: ID, m: ID)
    requires IsRenaming(g, w, h) && n in h.tasks
    ensures m in h.Deps(n) <==> |m| > |w| && m == NewId(w, OldId(w, m)) && OldId(w, m) in g.Deps(OldId(w, n))
  {
    var id := OldId(w, n);
    var deps := g.Deps(id);
    assert h.Deps(n) == NewIds(w, deps);
    if m in h.Deps(n) {
      var i :| 0 <= i < |deps| && NewIds(w, deps)[i] == m;
      RenamingInverse(w, deps[i]);
    }
    if |m| > |w| && m == NewId(w, OldId(w, m)) && OldId(w, m) in deps {
      var i :| 0 <= i < |deps| && deps[i] == OldId(w, m);
      assert NewIds(w, deps)[i] == m;
    }
  }

  lemma RenamedEdge(g: Graph, w: ID, h: Graph, a: ID, b: ID)
    requires IsRenaming(g, w, h) && a in g.tasks
    ensures NewId(w, a) in h.tasks && (NewId(w, b) in h.Deps(NewId(w, a)) <==> b in g.Deps(a))
  {
    hide NewId, OldId;
    RenamingInverse(w, a);
    RenamingInverse(w, b);
    RenamedEdges(g, w, h, NewId(w, a), NewId(w, b));
  }

  lemma RenamedName(g: Graph, w: ID, h: Graph, n: ID)
    requires IsRenaming(g, w, h) && n in h.tasks
    ensures |n| > |w| && OldId(w, n) in g.tasks && n == NewId(w, OldId(w, n))
  {
  }

  lemma RenamedClosed(g: Graph, w: ID, h: Graph)
    requires IsRenaming(g, w, h) && Closed(g.dependencies, g.tasks.Keys)
    ensures Closed(h.dependencies, h.tasks.Keys)
  {
    hide NewId, OldId, Renaming;
    forall n, d | n in h.tasks.Keys && d in Out(h.dependencies, n) ensures d in h.tasks.Keys {
      RenamedName(g, w, h, n);
      RenamedEdges(g, w, h, n, d);
      RenamedEdge(g, w, h, OldId(w, d), "");
    }
  }

  function OldIds(w: ID, p: seq<ID>): seq<ID>
    requires forall n :: n in p ==> |n| > |w|
  {
    seq(|p|, i requires 0 <= i < |p| => OldId(w, p[i]))
  }

  lemma CycleRenamed(g: Graph, w: ID, h: Graph, p: seq<ID>)
    requires IsRenaming(g, w, h) && Closed(g.dependencies, g.tasks.Keys)
    requires IsCycle(g.dependencies, p) && p[0] in g.tasks
    ensures IsCycle(h.dependencies, NewIds(w, p))
  {
    hide NewId, Renaming;
    var q := NewIds(w, p);
    forall i, j | 0 <= i && j == i + 1 && j < |q| ensures q[j] in Out(h.dependencies, q[i]) {
      PathInside(g.dependencies, g.tasks.Keys, p, i);
      RenamedEdge(g, w, h, p[i], p[j]);
    }
  }

  lemma CycleOriginal(g: Graph, w: ID, h: Graph, p: seq<ID>)
    requires IsRenaming(g, w, h) && Closed(h.dependencies, h.tasks.Keys)
    requires IsCycle(h.dependencies, p) && p[0] in h.tasks
    ensures OldId(w, p[0]) in g.tasks && p[0] == NewId(w, OldId(w, p[0])) && OnCycle(g.dependencies, OldId(w, p[0]))
  {
    hide NewId, OldId, Renaming;
    forall k | 0 <= k < |p| ensures |p[k]| > |w| && OldId(w, p[k]) in g.tasks && p[k] == NewId(w, OldId(w, p[k])) {
      PathInside(h.dependencies, h.tasks.Keys, p, k);
      RenamedName(g, w, h, p[k]);
    }
    var q := OldIds(w, p);
    forall i, j | 0 <= i && j == i + 1 && j < |q| ensures q[j] in Out(g.dependencies, q[i]) {
      RenamedEdge(g, w, h, q[i], q[j]);
    }
    assert IsCycle(g.dependencies, q);
    CycleThrough(g.dependencies, q);
  }

  /** The copy has a cycle through a renamed task exactly where the original has one. */
  lemma RenamedAcyclic(g: Graph, w: ID, h: Graph)
    requires IsRenaming(g, w, h) && Closed(g.dependencies, g.tasks.Keys)
    ensures forall id :: id in g.tasks ==> (OnCycle(h.dependencies, NewId(w, id)) <==> OnCycle(g.dependencies, id))
    ensures Acyclic(h.dependencies, h.tasks.Keys) <==> Acyclic(g.dependencies, g.tasks.Keys)
  {
    hide NewId, OldId, Renaming, OnCycle;
    RenamedClosed(g, w, h);
    forall id | id in g.tasks
      ensures NewId(w, id) in h.tasks && (OnCycle(h.dependencies, NewId(w, id)) <==> OnCycle(g.dependencies, id))
    {
      RenamedEdge(g, w, h, id, "");
      RenamedOnCycle(g, w, h, id);
    }
    forall n | n in h.tasks ensures |n| > |w| && OldId(w, n) in g.tasks && n == NewId(w, OldId(w, n)) {
      RenamedName(g, w, h, n);
    }
  }

  lemma RenamedOnCycle(g: Graph, w: ID, h: Graph, id: ID)
    requires IsRenaming(g, w, h) && Closed(g.dependencies, g.tasks.Keys) && Closed(h.dependencies, h.tasks.Keys)
    requires id in g.tasks && NewId(w, id) in h.tasks
    ensures OnCycle(h.dependencies, NewId(w, id)) <==> OnCycle(g.dependencies, id)
  {
    hide NewId, OldId, Renaming, IsPath;
    RenamingInverse(w, id);
    if p :| IsCycle(g.dependencies, p) && p[0] == id {
      CycleRenamed(g, w, h, p);
    }
    if p :| IsCycle(h.dependencies, p) && p[0] == NewId(w, id) {
      CycleOriginal(g, w, h, p);
    }
  }

  /** The condition under which the copy keeps its parent links: a parent id must already
      read like a renamed task, because the renaming leaves it alone.
   */
  predicate ParentsRead(g: Graph, w: ID) {
    forall id :: id in g.tasks && g.tasks[id].parentTaskID != "" ==>
      var p := g.tasks[id].parentTaskID;
      |p| > |w| && p == NewId(w, OldId(w, p)) && OldId(w, p) in g.tasks
  }

  lemma RenamedTask(g: Graph, w: ID, h: Graph, id: ID)
    requires ValidGraph(g) && IsRenaming(g, w, h) && id in g.tasks
    ensures WellFormedTask(h, NewId(w, id)) <==> ParentFits(h, h.tasks[NewId(w, id)])
  {
    var n := NewId(w, id);
    var deps := g.Deps(id);
    assert WellFormedTask(g, id);
    assert h.Deps(n) == NewIds(w, deps);
    RenamingInjective(w);
    assert Distinct(h.Deps(n));
    forall m | m in h.Deps(n) ensures m in h.tasks {
      var i :| 0 <= i < |deps| && NewIds(w, deps)[i] == m;
      assert deps[i] in g.tasks;
    }
  }

  lemma ParentsAfter(g: Graph, w: ID, h: Graph, id: ID)
    requires IsRenaming(g, w, h) && id in g.tasks
    ensures ParentFits(h, h.tasks[NewId(w, id)]) <==>
              (g.tasks[id].parentTaskID != "" ==>
                 var p := g.tasks[id].parentTaskID;
                 |p| > |w| && p == NewId(w, OldId(w, p)) && OldId(w, p) in g.tasks)
  {
  }

  /** The renamed graph of a valid plan is valid again exactly when its parent links still
      read; for a plan without parent tasks it always is.
   */
  lemma RenamedValid(g: Graph, w: ID, h: Graph)
    requires ValidGraph(g) && IsRenaming(g, w, h)
    ensures ValidGraph(h) <==> ParentsRead(g, w)
    ensures (forall id :: id in g.tasks ==> g.tasks[id].parentTaskID == "") ==> ValidGraph(h)
  {
    forall id | id in g.tasks
      ensures WellFormedTask(h, NewId(w, id)) <==> ParentFits(h, h.tasks[NewId(w, id)])
    {
      RenamedTask(g, w, h, id);
      ParentsAfter(g, w, h, id);
    }
    LocalAfter(g, w, h);
    if LocallyValid(h) {
      assert Closed(h.dependencies, h.tasks.Keys) by {
        assert forall n :: n in h.tasks ==> WellFormedTask(h, n);
      }
      RenamedAcyclic(g, w, h);
    }
  }

  lemma LocalAfter(g: Graph, w: ID, h: Graph)
    requires ValidGraph(g) && IsRenaming(g, w, h)
    ensures LocallyValid(h) <==> ParentsRead(g, w)
  {
    forall id | id in g.tasks
      ensures WellFormedTask(h, NewId(w, id)) <==>
                (g.tasks[id].parentTaskID != "" ==>
                   var p := g.tasks[id].parentTaskID;
                   |p| > |w| && p == NewId(w, OldId(w, p)) && OldId(w, p) in g.tasks)
    {
      RenamedTask(g, w, h, id);
      ParentsAfter(g, w, h, id);
    }
    if ParentsRead(g, w) {
      forall n | n in h.tasks ensures WellFormedTask(h, n) {
        assert n == NewId(w, OldId(w, n));
      }
    }
  }

  const ONE_PARENT := Graph(map["a" := ZERO_TASK.(id := "a", parentTaskID := "b"), "b" := ZERO_TASK.(id := "b")], map[])

  /** A plan with one parent link, valid before the renaming and invalid after it. */
  lemma ParentLinkBreaks(w: ID, h: Graph)
    requires IsRenaming(ONE_PARENT, w, h)
    ensures ValidGraph(ONE_PARENT)
    ensures !ValidGraph(h)
  {
    hide ValidGraph, Renaming;
    OneParentValid();
    RenamedValid(ONE_PARENT, w, h);
    assert "b" != NewId(w, "a") && "b" != NewId(w, "b");
    assert "a" in ONE_PARENT.tasks && ONE_PARENT.tasks["a"].parentTaskID == "b";
  }

  lemma OneParentValid()
    ensures ValidGraph(ONE_PARENT)
  {
    var g := ONE_PARENT;
    assert g.Deps("a") == [] && g.Deps("b") == [];
    assert Topological(g.dependencies, ["a", "b"]);
    TopologicalIsAcyclic(g.dependencies, ["a", "b"]);
    assert g.tasks.Keys == Elems(["a", "b"]);
  }

  lemma RenamedStatus(g: Graph, w: ID, h: Graph, id: ID)
    requires IsRenaming(g, w, h)
    ensures h.Status(NewId(w, id)) == g.Status(id)
  {
    RenamingInverse(w, id);
  }

  lemma RenamedReady(g: Graph, w: ID, h: Graph, id: ID)
    requires IsRenaming(g, w, h)
    ensures IsReady(h, NewId(w, id)) <==> IsReady(g, id)
  {
    RenamingInverse(w, id);
    RenamedStatus(g, w, h, id);
    var deps := g.Deps(id);
    if id in g.tasks {
      assert h.Deps(NewId(w, id)) == NewIds(w, deps);
      forall i | 0 <= i < |deps| ensures h.Status(NewIds(w, deps)[i]) == g.Status(deps[i]) {
        RenamedStatus(g, w, h, deps[i]);
      }
      assert forall i :: 0 <= i < |deps| ==> NewIds(w, deps)[i] in NewIds(w, deps);
    }
  }

  /** The copy offers its tasks in the order of the original: the common prefix keeps the
      order of the ids.
   */
  lemma RenamedReadyList(g: Graph, w: ID, h: Graph)
    requires IsRenaming(g, w, h)
    ensures ReadyList(h) == NewIds(w, ReadyList(g))
  {
    var ids := ReadyList(g);
    var renamed := NewIds(w, ids);
    forall i, j | 0 <= i < j < |renamed| ensures Below(renamed[i], renamed[j]) {
      BelowPrefix(w + "_", ids[i], ids[j]);
    }
    forall n ensures n in renamed <==> n in ReadySet(h) {
      RenamedReadyMember(g, w, h, n);
    }
    SortingIs(renamed, ReadySet(h));
  }

  lemma RenamedReadyMember(g: Graph, w: ID, h: Graph, n: ID)
    requires IsRenaming(g, w, h)
    ensures n in NewIds(w, ReadyList(g)) <==> n in ReadySet(h)
  {
    var ids := ReadyList(g);
    if n in NewIds(w, ids) {
      var i :| 0 <= i < |ids| && NewIds(w, ids)[i] == n;
      assert ids[i] in ids;
      RenamedReady(g, w, h, ids[i]);
    }
    if n in ReadySet(h) {
      RenamedReady(g, w, h, OldId(w, n));
      var i :| 0 <= i < |ids| && ids[i] == OldId(w, n);
      assert NewIds(w, ids)[i] == n;
    }
  }

  /** Propagating failures and renaming commute. */
  lemma RenamedPropagated(g: Graph, w: ID, h: Graph)
    requires IsRenaming(g, w, h)
    ensures IsRenaming(Propagated(g), w, Propagated(h))
  {
    hide ShouldBlock, Propagated, NewTask, NewIds, NewId, OldId;
    PropagatedShape(g);
    PropagatedShape(h);
    forall id | id in g.tasks ensures Propagated(h).tasks[NewId(w, id)] == NewTask(Propagated(g), w, id) {
      RenamedPropagatedTask(g, w, h, id);
    }
  }

  lemma PropagatedShape(g: Graph)
    ensures Propagated(g).tasks.Keys == g.tasks.Keys && Propagated(g).dependencies == g.dependencies
  {
  }

  lemma RenamedPropagatedTask(g: Graph, w: ID, h: Graph, id: ID)
    requires IsRenaming(g, w, h) && id in g.tasks
    ensures NewId(w, id) in Propagated(h).tasks
    ensures Propagated(h).tasks[NewId(w, id)] == NewTask(Propagated(g), w, id)
  {
    hide ShouldBlock, NewId, OldId, NewIds;
    RenamedShouldBlock(g, w, h, id);
    assert Propagated(g).Deps(id) == g.Deps(id);
  }

  lemma RenamedShouldBlock(g: Graph, w: ID, h: Graph, id: ID)
    requires IsRenaming(g, w, h) && id in g.tasks
    ensures ShouldBlock(h, NewId(w, id)) <==> ShouldBlock(g, id)
  {
    var deps := g.Deps(id);
    RenamedStatus(g, w, h, id);
    assert h.Deps(NewId(w, id)) == NewIds(w, deps);
    forall i | 0 <= i < |deps| ensures h.Status(NewIds(w, deps)[i]) == g.Status(deps[i]) {
      RenamedStatus(g, w, h, deps[i]);
    }
    assert forall i :: 0 <= i < |deps| ==> NewIds(w, deps)[i] in NewIds(w, deps);
  }
}
