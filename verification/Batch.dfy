/** One batch of the scheduler as a state machine over all its interleavings.

    The main goroutine marks each ready task running and, unless another run of the same
    scheduler holds its lock, spawns a goroutine for it; meanwhile the goroutines already
    spawned pass the semaphore, execute with retries, store the outcome, give the permit back
    and unlock. Every read-modify-write of the task map, the lock table or the semaphore is
    one atomic action.
 */
module Batch {
  import opened Ordering
  import opened TaskGraph
  import opened Retry

  datatype Job = Job(
    ready: seq<ID>,         // the ready list
    start: map<ID, Task>,   // the task map when the batch starts
    held: set<ID>,          // locks that other runs hold throughout
    capacity: int)          // the size of the semaphore channel
  {
    ghost predicate Valid() {
      && Distinct(ready)
      && capacity >= 1
      && forall id :: id in ready ==> id in start && start[id].id == id && start[id].status.Open()
    }

    /** The copy of the task that its goroutine works on. */
    function Launched(id: ID): Task
      requires id in start
    {
      start[id].(status := Running)
    }
  }

  datatype Phase =
    | Queued                                  // for the semaphore
    | Executing(tried: seq<ExecResult>)       // holds a permit; attempts returned so far
    | Stored(tried: seq<ExecResult>)          // outcome written, permit still held
    | Released(tried: seq<ExecResult>)        // permit returned, lock still held
    | Finished(tried: seq<ExecResult>)
  {
    function Written(): seq<ExecResult> {
      if Stored? || Released? || Finished? then tried else []
    }

    /** The attempts that have returned. */
    function Tried(): seq<ExecResult> {
      if Queued? then [] else tried
    }

    predicate HoldsPermit() { Executing? || Stored? }
  }

  datatype State = State(
    tasks: map<ID, Task>,
    locks: set<ID>,
    permits: int,
    launched: nat,          // how many of the ready tasks the main goroutine is done with
    marked: bool,           // the next one is already marked running
    runs: map<ID, Phase>)   // the spawned goroutines
  {
    function Live(): set<ID> {
      LiveIn(runs)
    }

    function Holding(): set<ID> {
      HoldingIn(runs)
    }
  }

  function LiveIn(runs: map<ID, Phase>): set<ID> {
    set id | id in runs && !runs[id].Finished?
  }

  function HoldingIn(runs: map<ID, Phase>): set<ID> {
    set id | id in runs && runs[id].HoldsPermit()
  }

  lemma PhaseUpdate(runs: map<ID, Phase>, id: ID, p: Phase)
    ensures LiveIn(runs[id := p]) == if p.Finished? then LiveIn(runs) - {id} else LiveIn(runs) + {id}
    ensures HoldingIn(runs[id := p]) == if p.HoldsPermit() then HoldingIn(runs) + {id} else HoldingIn(runs) - {id}
  {
  }

  datatype Action =
    | Mark
    | Spawn
    | Acquire(id: ID)
    | Return(id: ID, result: ExecResult)
    | Store(id: ID)
    | Release(id: ID)
    | Unlock(id: ID)

  /** The next action of some goroutine. (That an id is a key of the maps read here holds
      in every reachable state, by the invariant below.)
   */
  ghost predicate Enabled(job: Job, s: State, a: Action) {
    match a
    case Mark => s.launched < |job.ready| && !s.marked && job.ready[s.launched] in s.tasks
    case Spawn => s.launched < |job.ready| && s.marked
    case Acquire(id) => id in s.runs && s.runs[id].Queued? && s.permits < job.capacity
    case Return(id, _) => Retrying(job, s, id) && GoesOn(job.Launched(id), s.runs[id].tried)
    case Store(id) => Retrying(job, s, id) && !GoesOn(job.Launched(id), s.runs[id].tried)
    case Release(id) => id in s.runs && s.runs[id].Stored?
    case Unlock(id) => id in s.runs && s.runs[id].Released?
  }

  predicate Retrying(job: Job, s: State, id: ID) {
    id in s.runs && s.runs[id].Executing? && id in job.start && id in s.tasks
  }

  ghost function Apply(job: Job, s: State, a: Action): State
    requires Enabled(job, s, a)
  {
    match a
    case Mark =>
      var id := job.ready[s.launched];
      s.(tasks := s.tasks[id := s.tasks[id].(status := Running)], marked := true)
    case Spawn =>
      var id := job.ready[s.launched];
      if id in s.locks then s.(launched := s.launched + 1, marked := false)
      else s.(locks := s.locks + {id}, runs := s.runs[id := Queued], launched := s.launched + 1, marked := false)
    case Acquire(id) => s.(permits := s.permits + 1, runs := s.runs[id := Executing([])])
    case Return(id, result) => s.(runs := s.runs[id := Executing(s.runs[id].tried + [result])])
    case Store(id) =>
      var tried := s.runs[id].tried;
      s.(tasks := s.tasks[id := s.tasks[id].(status := StatusAfter(tried))], runs := s.runs[id := Stored(tried)])
    case Release(id) => s.(permits := s.permits - 1, runs := s.runs[id := Released(s.runs[id].tried)])
    case Unlock(id) => s.(locks := s.locks - {id}, runs := s.runs[id := Finished(s.runs[id].tried)])
  }

  function Initial(job: Job): State {
    State(job.start, job.held, 0, 0, false, map[])
  }

  /** `wg.Wait()` returns and the launch loop is over. */
  predicate Complete(job: Job, s: State) {
    s.launched == |job.ready| && forall id :: id in s.runs ==> s.runs[id].Finished?
  }

  // ------------------------------------------------------------------ invariant

  /** What the task map holds for `id`. */
  function Expected(job: Job, s: State, id: ID): Task
    requires id in job.start && s.launched <= |job.ready|
  {
    if id in s.runs then job.start[id].(status := StatusAfter(s.runs[id].Written()))
    else if id in job.ready[..s.launched] || (s.marked && s.launched < |job.ready| && id == job.ready[s.launched])
    then job.Launched(id)
    else job.start[id]
  }

  ghost predicate PhaseOk(task: Task, phase: Phase) {
    match phase
    case Queued => true
    case Executing(tried) => GoesOn(task, tried) || Settled(task, tried)
    case Stored(tried) => Settled(task, tried)
    case Released(tried) => Settled(task, tried)
    case Finished(tried) => Settled(task, tried)
  }

  ghost predicate Counters(job: Job, s: State) {
    && s.launched <= |job.ready|
    && (s.marked ==> s.launched < |job.ready|)
    && (forall id :: id in s.runs <==> id in job.ready[..s.launched] && id !in job.held)
    && (forall id :: id in s.locks <==> id in job.held || (id in s.runs && !s.runs[id].Finished?))
    && s.permits == |s.Holding()|
    && s.permits <= job.capacity
  }

  ghost predicate Contents(job: Job, s: State)
    requires s.launched <= |job.ready|
  {
    && s.tasks.Keys == job.start.Keys
    && (forall id :: id in s.tasks ==> s.tasks[id] == Expected(job, s, id))
  }

  ghost predicate Phases(job: Job, s: State) {
    forall id :: id in s.runs ==> id in job.start && PhaseOk(job.Launched(id), s.runs[id])
  }

  ghost predicate Inv(job: Job, s: State) {
    Counters(job, s) && Contents(job, s) && Phases(job, s)
  }

  lemma InitialInv(job: Job)
    requires job.Valid()
    ensures Inv(job, Initial(job))
  {
    assert Initial(job).Holding() == {};
    assert Initial(job).Live() == {};
  }

  lemma MarkInv(job: Job, s: State)
    requires job.Valid() && Inv(job, s) && Enabled(job, s, Mark)
    ensures Inv(job, Apply(job, s, Mark))
  {
    hide GoesOn, Settled;
    var s' := Apply(job, s, Mark);
    assert s'.Holding() == s.Holding() && s'.Live() == s.Live();
    var id := job.ready[s.launched];
    assert id in job.ready;
    assert id !in Elems(job.ready[..s.launched]);
  }

  lemma NextReady(ready: seq<ID>, k: nat)
    requires Distinct(ready) && k < |ready|
    ensures ready[..k + 1] == ready[..k] + [ready[k]]
    ensures ready[k] !in ready[..k]
    ensures forall x :: x in ready[..k + 1] <==> x in ready[..k] || x == ready[k]
  {
  }

  lemma SpawnCounters(job: Job, s: State, id: ID)
    requires Counters(job, s) && Enabled(job, s, Spawn) && id == job.ready[s.launched]
    requires id !in job.ready[..s.launched]
    requires forall x :: x in job.ready[..s.launched + 1] <==> x in job.ready[..s.launched] || x == id
    ensures Counters(job, Apply(job, s, Spawn))
    ensures id in s.locks <==> id in job.held
  {
    NewRun(s.runs, id);
  }

  lemma NewRun(runs: map<ID, Phase>, id: ID)
    requires id !in runs
    ensures HoldingIn(runs[id := Queued]) == HoldingIn(runs)
  {
  }

  lemma SpawnContents(job: Job, s: State, id: ID)
    requires s.launched < |job.ready| && id == job.ready[s.launched] && id in job.start
    requires Contents(job, s) && Phases(job, s) && Enabled(job, s, Spawn)
    requires id !in s.runs && job.ready[..s.launched + 1] == job.ready[..s.launched] + [id]
    ensures Contents(job, Apply(job, s, Spawn)) && Phases(job, Apply(job, s, Spawn))
  {
    hide GoesOn, Settled;
    var s' := Apply(job, s, Spawn);
    forall x | x in s'.tasks ensures s'.tasks[x] == Expected(job, s', x) {
      assert s.tasks[x] == Expected(job, s, x);
      assert x in job.ready[..s'.launched] <==> x in job.ready[..s.launched] || x == id;
    }
  }

  function Permit(p: Phase): int {
    if p.HoldsPermit() then 1 else 0
  }

  /** A goroutine moving from one phase to another keeps the counts right if it takes or
      returns the permit, and returns the lock, as the phases say.
   */
  lemma PhaseCounters(job: Job, s: State, s': State, id: ID)
    requires Counters(job, s) && id in s.runs && id in s'.runs && !s.runs[id].Finished?
    requires s'.runs == s.runs[id := s'.runs[id]]
    requires s'.launched == s.launched && s'.marked == s.marked
    requires s'.locks == if s'.runs[id].Finished? then s.locks - {id} else s.locks
    requires s'.permits == s.permits + Permit(s'.runs[id]) - Permit(s.runs[id]) <= job.capacity
    ensures Counters(job, s')
  {
    var p := s'.runs[id];
    PhaseUpdate(s.runs, id, p);
    assert id in s.Holding() <==> s.runs[id].HoldsPermit();
    assert |s'.Holding()| == |s.Holding()| + Permit(p) - Permit(s.runs[id]);
  }

  lemma WorkerCounters(job: Job, s: State, a: Action)
    requires Counters(job, s) && !a.Mark? && !a.Spawn? && Enabled(job, s, a)
    ensures Counters(job, Apply(job, s, a))
  {
    hide GoesOn, Settled;
    PhaseCounters(job, s, Apply(job, s, a), a.id);
  }

  lemma WorkerContents(job: Job, s: State, a: Action)
    requires s.launched <= |job.ready| && Contents(job, s)
    requires !a.Mark? && !a.Spawn? && Enabled(job, s, a)
    ensures Contents(job, Apply(job, s, a))
  {
    hide GoesOn, Settled;
    var s' := Apply(job, s, a);
    forall id | id in s'.tasks ensures s'.tasks[id] == Expected(job, s', id) {
      assert s.tasks[id] == Expected(job, s, id);
      if id == a.id && a.Store? {
        assert s'.runs[id].Written() == s.runs[id].tried;
      } else {
        assert s'.tasks[id] == s.tasks[id];
        if id in s.runs {
          assert s'.runs[id].Written() == s.runs[id].Written();
        }
      }
    }
  }

  lemma WorkerPhases(job: Job, s: State, a: Action)
    requires job.Valid() && Inv(job, s) && !a.Mark? && !a.Spawn? && Enabled(job, s, a)
    ensures Phases(job, Apply(job, s, a))
  {
    hide Counters, Contents;
    var s' := Apply(job, s, a);
    forall id | id in s'.runs ensures id in job.start && PhaseOk(job.Launched(id), s'.runs[id]) {
      assert PhaseOk(job.Launched(id), s.runs[id]);
      if a.Return? && id == a.id {
        OneMore(job.Launched(id), s.runs[id].tried, a.result);
      }
    }
  }

  lemma StepInv(job: Job, s: State, a: Action)
    requires job.Valid() && Inv(job, s) && Enabled(job, s, a)
    ensures Inv(job, Apply(job, s, a))
  {
    if a.Mark? {
      MarkInv(job, s);
    } else if a.Spawn? {
      var id := job.ready[s.launched];
      NextReady(job.ready, s.launched);
      assert id in job.ready && id !in s.runs;
      SpawnCounters(job, s, id);
      SpawnContents(job, s, id);
    } else {
      WorkerCounters(job, s, a);
      WorkerContents(job, s, a);
      WorkerPhases(job, s, a);
    }
  }

  // ------------------------------------------------------------- interleavings

  /** `acts` is an interleaving: each action is enabled where it happens. */
  ghost predicate Playable(job: Job, acts: seq<Action>)
    decreases |acts|, 0
  {
    acts == [] ||
    (var earlier := acts[..|acts| - 1];
     Playable(job, earlier) && Enabled(job, After(job, earlier), acts[|acts| - 1]))
  }

  ghost function After(job: Job, acts: seq<Action>): State
    requires Playable(job, acts)
    decreases |acts|, 1
  {
    if acts == [] then Initial(job)
    else Apply(job, After(job, acts[..|acts| - 1]), acts[|acts| - 1])
  }

  lemma {:induction false} ReachableInv(job: Job, acts: seq<Action>)
    requires job.Valid() && Playable(job, acts)
    ensures Inv(job, After(job, acts))
    decreases |acts|
  {
    if acts == [] {
      InitialInv(job);
    } else {
      var earlier := acts[..|acts| - 1];
      ReachableInv(job, earlier);
      StepInv(job, After(job, earlier), acts[|acts| - 1]);
    }
  }

  /** At every point of every interleaving: at most `capacity` tasks execute; all the
      dependencies of an executing task have succeeded, and still have; and no task that was
      already decided when the batch started has changed.
   */
  lemma Safety(job: Job, g: Graph, acts: seq<Action>)
    requires job.Valid() && Playable(job, acts) && g.tasks == job.start
    requires forall id :: id in job.ready ==> IsReady(g, id)
    ensures var s := After(job, acts);
            && |set id | id in s.runs && s.runs[id].Executing?| <= job.capacity
            && (forall id, d :: id in s.runs && d in g.Deps(id) ==> d in s.tasks && s.tasks[d].status.Succeeded?)
            && (forall id :: id in job.start && !job.start[id].status.Open() ==>
                 id in s.tasks && s.tasks[id] == job.start[id])
  {
    hide GoesOn, Settled, Phases, Contents, IsReady;
    ReachableInv(job, acts);
    var s := After(job, acts);
    PermitsBound(job, s);
    forall id | id in job.start && !job.start[id].status.Open()
      ensures id in s.tasks && s.tasks[id] == job.start[id]
    {
      DecidedUntouched(job, s, id);
    }
    forall id, d | id in s.runs && d in g.Deps(id)
      ensures d in s.tasks && s.tasks[d].status.Succeeded?
    {
      assert id in Elems(job.ready[..s.launched]);
      DependencyHeld(job, g, s, id, d);
    }
  }

  lemma PermitsBound(job: Job, s: State)
    requires job.Valid() && Inv(job, s)
    ensures |set id | id in s.runs && s.runs[id].Executing?| <= job.capacity
  {
    hide GoesOn, Settled, Phases, Contents;
    SubsetCount((set id | id in s.runs && s.runs[id].Executing?), s.Holding());
  }

  lemma DependencyHeld(job: Job, g: Graph, s: State, id: ID, d: ID)
    requires job.Valid() && Inv(job, s) && g.tasks == job.start
    requires id in job.ready && IsReady(g, id) && d in g.Deps(id)
    ensures d in s.tasks && s.tasks[d].status.Succeeded?
  {
    assert g.Status(d).Succeeded?;
    DecidedUntouched(job, s, d);
  }

  lemma DecidedUntouched(job: Job, s: State, id: ID)
    requires job.Valid() && Inv(job, s) && id in job.start && !job.start[id].status.Open()
    ensures id in s.tasks && s.tasks[id] == job.start[id]
  {
    hide GoesOn, Settled, Phases;
    assert id !in job.ready;
    assert id !in Elems(job.ready[..s.launched]);
    assert s.tasks[id] == Expected(job, s, id);
  }

  /** What a batch leaves for given outcomes: executed tasks get theirs, tasks whose lock was
      held elsewhere stay running, all others are as before.
   */
  function Outcome(job: Job, statuses: map<ID, TaskStatus>): map<ID, Task> {
    map id | id in job.start ::
      if id in statuses then job.start[id].(status := statuses[id])
      else if id in job.ready then job.Launched(id)
      else job.start[id]
  }

  function Statuses(s: State): map<ID, TaskStatus> {
    map id | id in s.runs :: StatusAfter(s.runs[id].Written())
  }

  /** When a batch is over, exactly the ready tasks whose lock was free have run, each to a
      settled list of attempts; the task map is determined by their outcomes; every lock
      and every permit the batch took is back.
   */
  lemma BatchOutcome(job: Job, s: State)
    requires job.Valid() && Inv(job, s) && Complete(job, s)
    ensures s.runs.Keys == Elems(job.ready) - job.held
    ensures forall id :: id in s.runs ==> Settled(job.Launched(id), s.runs[id].Written())
    ensures s.tasks == Outcome(job, Statuses(s))
    ensures s.locks == job.held && s.permits == 0
  {
    hide GoesOn, Settled;
    assert job.ready[..|job.ready|] == job.ready;
    assert s.Live() == {} && s.Holding() == {};
    forall id | id in s.runs ensures Settled(job.Launched(id), s.runs[id].Written()) {
      assert PhaseOk(job.Launched(id), s.runs[id]);
    }
    OutcomeTasks(job, s);
  }

  lemma OutcomeTasks(job: Job, s: State)
    requires job.Valid() && Counters(job, s) && Contents(job, s) && Complete(job, s)
    ensures s.tasks == Outcome(job, Statuses(s))
  {
    hide GoesOn, Settled;
    assert job.ready[..|job.ready|] == job.ready;
    forall id | id in job.start ensures s.tasks[id] == Outcome(job, Statuses(s))[id] {
      assert s.tasks[id] == Expected(job, s, id);
    }
  }

  /** Completion order does not matter: two finished interleavings of the same batch in which
      every task came out the same leave the same task map and the same locks.
   */
  lemma Confluence(job: Job, acts: seq<Action>, others: seq<Action>)
    requires job.Valid() && Playable(job, acts) && Playable(job, others)
    requires Complete(job, After(job, acts)) && Complete(job, After(job, others))
    requires Statuses(After(job, acts)) == Statuses(After(job, others))
    ensures After(job, acts).tasks == After(job, others).tasks
    ensures After(job, acts).locks == After(job, others).locks
  {
    ReachableInv(job, acts);
    ReachableInv(job, others);
    BatchOutcome(job, After(job, acts));
    BatchOutcome(job, After(job, others));
  }

  // ---------------------------------------------------------- progress and bound

  /** Goroutines that can take a step of their own. */
  function Movable(runs: map<ID, Phase>, permits: int, capacity: int): set<ID> {
    set id | id in runs && !runs[id].Finished? && (runs[id].Queued? ==> permits < capacity)
  }

  /** No deadlock: short of completion some goroutine can move, the main one as long as it
      has tasks to launch.
   */
  lemma NeverStuck(job: Job, s: State)
    requires job.Valid() && Inv(job, s) && !Complete(job, s)
    ensures s.launched < |job.ready| || Movable(s.runs, s.permits, job.capacity) != {}
    ensures exists a :: Enabled(job, s, a)
  {
    hide GoesOn, Settled, Contents, Phases;
    if s.launched < |job.ready| {
      MainEnabled(job, s);
    } else {
      var id :| id in s.runs && !s.runs[id].Finished?;
      if id !in Movable(s.runs, s.permits, job.capacity) {
        assert s.Holding() != {};
        id :| id in s.Holding();
      }
      var a := MovableEnabled(job, s, id, Ok(Succeeded));
    }
  }

  lemma MainEnabled(job: Job, s: State)
    requires job.Valid() && Inv(job, s) && s.launched < |job.ready|
    ensures Enabled(job, s, if s.marked then Spawn else Mark)
  {
    hide GoesOn, Settled, Phases;
    assert job.ready[s.launched] in job.ready;
  }

  lemma MovableEnabled(job: Job, s: State, id: ID, result: ExecResult) returns (a: Action)
    requires job.Valid() && Inv(job, s) && id in Movable(s.runs, s.permits, job.capacity)
    ensures Enabled(job, s, a) && !a.Mark? && !a.Spawn? && a.id == id
    ensures a.Return? ==> a.result == result
  {
    assert PhaseOk(job.Launched(id), s.runs[id]);
    assert id in s.tasks;
    match s.runs[id] {
      case Queued => a := Acquire(id);
      case Executing(tried) =>
        a := if GoesOn(job.Launched(id), tried) then Return(id, result) else Store(id);
      case Stored(_) => a := Release(id);
      case Released(_) => a := Unlock(id);
    }
  }

  /** How many actions the i-th ready task can still cause. */
  function Weight(job: Job, s: State, i: nat): nat
    requires job.Valid() && i < |job.ready|
  {
    var id := job.ready[i];
    var n := Attempts(job.Launched(id));
    if i >= s.launched then (if s.marked && i == s.launched then n + 5 else n + 6)
    else if id in s.runs then PhaseWeight(n, s.runs[id])
    else 0
  }

  function PhaseWeight(n: nat, phase: Phase): nat {
    match phase
    case Queued => n + 4
    case Executing(tried) => 3 + (if |tried| <= n then n - |tried| else 0)
    case Stored(_) => 2
    case Released(_) => 1
    case Finished(_) => 0
  }

  ghost function Remaining(job: Job, s: State, upTo: nat): nat
    requires job.Valid() && upTo <= |job.ready|
  {
    if upTo == 0 then 0 else Remaining(job, s, upTo - 1) + Weight(job, s, upTo - 1)
  }

  lemma {:induction false} RemainingDrops(job: Job, s: State, s': State, k: nat, upTo: nat)
    requires job.Valid() && upTo <= |job.ready|
    requires forall i :: 0 <= i < upTo && i != k ==> Weight(job, s', i) == Weight(job, s, i)
    requires k < upTo ==> Weight(job, s', k) < Weight(job, s, k)
    ensures if k < upTo then Remaining(job, s', upTo) < Remaining(job, s, upTo)
            else Remaining(job, s', upTo) == Remaining(job, s, upTo)
  {
    if upTo > 0 {
      RemainingDrops(job, s, s', k, upTo - 1);
    }
  }

  /** Every action uses up some of the work left, so a batch is over after a bounded number
      of them, whatever the interleaving.
   */
  lemma StepCounts(job: Job, s: State, a: Action)
    requires job.Valid() && Inv(job, s) && Enabled(job, s, a)
    ensures Remaining(job, Apply(job, s, a), |job.ready|) < Remaining(job, s, |job.ready|)
  {
    hide GoesOn, Settled, Contents, Phases, Weight;
    var k := s.launched;
    if a.Mark? || a.Spawn? {
      MainDrops(job, s, a);
    } else {
      assert a.id in Elems(job.ready[..s.launched]);
      k :| 0 <= k < s.launched && job.ready[k] == a.id;
      WorkerDrops(job, s, a, k);
    }
    RemainingDrops(job, s, Apply(job, s, a), k, |job.ready|);
  }

  /** `a` changes what one ready task, the k-th, can still cause, and lowers it. */
  ghost predicate Drops(job: Job, s: State, s': State, k: nat)
    requires job.Valid()
  {
    && k < |job.ready|
    && (forall i :: 0 <= i < |job.ready| && i != k ==> Weight(job, s', i) == Weight(job, s, i))
    && Weight(job, s', k) < Weight(job, s, k)
  }

  lemma MainDrops(job: Job, s: State, a: Action)
    requires job.Valid() && Inv(job, s) && (a.Mark? || a.Spawn?) && Enabled(job, s, a)
    ensures Drops(job, s, Apply(job, s, a), s.launched)
  {
    hide GoesOn, Settled, Contents, Phases;
    var k := s.launched;
    forall i | 0 <= i < |job.ready| && i != k
      ensures Weight(job, Apply(job, s, a), i) == Weight(job, s, i)
    {
      assert job.ready[i] != job.ready[k];
    }
  }

  lemma WorkerDrops(job: Job, s: State, a: Action, k: nat)
    requires job.Valid() && Inv(job, s) && !a.Mark? && !a.Spawn? && Enabled(job, s, a)
    requires k < s.launched && job.ready[k] == a.id
    ensures Drops(job, s, Apply(job, s, a), k)
  {
    hide GoesOn, Settled, Contents;
    forall i | 0 <= i < |job.ready| && i != k
      ensures Weight(job, Apply(job, s, a), i) == Weight(job, s, i)
    {
      assert job.ready[i] != job.ready[k];
    }
    assert PhaseOk(job.Launched(a.id), s.runs[a.id]);
    PhaseWeightDrops(job, s, a);
  }

  lemma PhaseWeightDrops(job: Job, s: State, a: Action)
    requires !a.Mark? && !a.Spawn? && Enabled(job, s, a)
    requires a.id in job.start && PhaseOk(job.Launched(a.id), s.runs[a.id])
    ensures var n := Attempts(job.Launched(a.id));
            PhaseWeight(n, Apply(job, s, a).runs[a.id]) < PhaseWeight(n, s.runs[a.id])
  {
    if s.runs[a.id].Executing? {
      TriedBound(job.Launched(a.id), s.runs[a.id].tried);
    }
  }

  lemma TriedBound(task: Task, tried: seq<ExecResult>)
    requires GoesOn(task, tried) || Settled(task, tried)
    ensures |tried| <= Attempts(task)
  {
    if Settled(task, tried) {
      SettledMeaning(task, tried);
    }
  }

  lemma {:induction false} InterleavingBound(job: Job, acts: seq<Action>)
    requires job.Valid() && Playable(job, acts)
    ensures |acts| + Remaining(job, After(job, acts), |job.ready|) <= Remaining(job, Initial(job), |job.ready|)
    decreases |acts|
  {
    if acts != [] {
      var earlier := acts[..|acts| - 1];
      InterleavingBound(job, earlier);
      ReachableInv(job, earlier);
      StepCounts(job, After(job, earlier), acts[|acts| - 1]);
    }
  }
}
