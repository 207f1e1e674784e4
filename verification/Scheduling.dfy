/** The scheduler itself: its lock table, one batch run in an arbitrary interleaving, and
    the loop over batches.
 */
module Scheduling {
  import opened Wrappers
  import opened Ordering
  import opened TaskGraph
  import opened Retry
  import opened Batch
  import opened Schedule
  import opened FinalStates
  import opened Layers
  import Dag

  datatype RunError = Invalid(error: GraphError) | NoExecutor | ContextDone

  class Scheduler {
    const executor: Executor?
    const maxParallel: int
    var locks: set<ID>

    constructor (executor: Executor?, maxParallel: int)
      ensures Valid() && this.executor == executor && locks == {}
      ensures this.maxParallel == if maxParallel < 1 then 1 else maxParallel
    {
      this.executor := executor;
      this.maxParallel := if maxParallel < 1 then 1 else maxParallel;
      locks := {};
    }

    predicate Valid() { maxParallel >= 1 }

    method LockTask(id: ID) returns (locked: bool)
      modifies this`locks
      ensures locked <==> id !in old(locks)
      ensures locks == old(locks) + {id}
    {
      if id in locks {
        return false;
      }
      locks := locks + {id};
      return true;
    }

    method UnlockTask(id: ID)
      modifies this`locks
      ensures locks == old(locks) - {id}
    {
      locks := locks - {id};
    }

    /** One step of the launch loop. */
    method StepMain(wf: Workflow, ready: seq<ID>, launched: nat, marked: bool, runs: map<ID, Phase>, permits: int,
            ghost job: Job)
      returns (launched': nat, marked': bool, runs': map<ID, Phase>, ghost a: Action)
      requires launched < |ready| && job.ready == ready && ready[launched] in wf.graph.tasks
      modifies this`locks, wf`graph
      ensures Enabled(job, old(State(wf.graph.tasks, locks, permits, launched, marked, runs)), a)
      ensures State(wf.graph.tasks, locks, permits, launched', marked', runs')
           == Apply(job, old(State(wf.graph.tasks, locks, permits, launched, marked, runs)), a)
      ensures wf.graph.dependencies == old(wf.graph.dependencies)
      ensures a.Mark? || a.Spawn?
    {
      launched', marked', runs' := launched, marked, runs;
      var id := ready[launched];
      if !marked {
        a := Mark;
        wf.graph := wf.graph.SetStatus(id, Running);
        marked' := true;
      } else {
        a := Spawn;
        var locked := LockTask(id);
        if locked {
          runs' := runs[id := Queued];
        }
        launched', marked' := launched + 1, false;
      }
    }

    /** One step of the goroutine of `id`. */
    method StepWorker(wf: Workflow, exec: Executor, id: ID, launched: nat, marked: bool, runs: map<ID, Phase>,
            permits: int, ghost job: Job)
      returns (runs': map<ID, Phase>, permits': int, ghost a: Action)
      requires id in runs && !runs[id].Finished? && (runs[id].Queued? ==> permits < job.capacity)
      requires id in wf.graph.tasks && id in job.start && wf.graph.tasks[id].(status := Running) == job.Launched(id)
      requires PhaseOk(job.Launched(id), runs[id])
      modifies this`locks, wf`graph, exec
      ensures Enabled(job, old(State(wf.graph.tasks, locks, permits, launched, marked, runs)), a)
      ensures State(wf.graph.tasks, locks, permits', launched, marked, runs')
           == Apply(job, old(State(wf.graph.tasks, locks, permits, launched, marked, runs)), a)
      ensures wf.graph.dependencies == old(wf.graph.dependencies)
      ensures !a.Mark? && !a.Spawn? && a.id == id
      ensures a.Return? ==> a.result == exec.script(|old(exec.calls)|, job.Launched(id), |runs[id].tried| + 1)
      ensures a.Return? ==> exec.calls == old(exec.calls) + [Call(job.start[id].id, |runs[id].tried| + 1, a.result)]
      ensures !a.Return? ==> exec.calls == old(exec.calls)
    {
      runs', permits' := runs, permits;
      var task := wf.graph.tasks[id].(status := Running);
      match runs[id] {
        case Queued =>
          a := Acquire(id);
          permits' := permits + 1;
          runs' := runs[id := Executing([])];
        case Executing(tried) =>
          var another := WantsAnother(task, tried);
          if another {
            var result := exec.Execute(task, |tried| + 1);
            a := Return(id, result);
            runs' := runs[id := Executing(tried + [result])];
          } else {
            a := Store(id);
            var status;
            match tried[|tried| - 1] {
              case Err(e) =>
                if e.deadline {
                  status := TimedOut;
                } else if e.canceled {
                  status := Cancelled;
                } else {
                  status := Failed;
                }
              case Ok(reported) =>
                status := reported;
                if status == Unset {
                  status := Succeeded;
                }
            }
            wf.graph := wf.graph.SetStatus(id, status);
            runs' := runs[id := Stored(tried)];
          }
        case Stored(tried) =>
          a := Release(id);
          permits' := permits - 1;
          runs' := runs[id := Released(tried)];
        case Released(tried) =>
          a := Unlock(id);
          UnlockTask(id);
          runs' := runs[id := Phase.Finished(tried)];
      }
    }

    method MoveWorker(wf: Workflow, exec: Executor, id: ID, launched: nat, marked: bool, runs: map<ID, Phase>,
            permits: int, ghost job: Job, ghost quiet: nat, ghost before: seq<Call>)
      returns (runs': map<ID, Phase>, permits': int, ghost a: Action)
      requires job.Valid() && exec.QuietFrom(quiet)
      requires Inv(job, State(wf.graph.tasks, locks, permits, launched, marked, runs))
      requires id in Movable(runs, permits, job.capacity)
      requires Accounted(exec.script, job.start, before, exec.calls, runs) && (|before| >= quiet ==> NoneReopens(runs))
      modifies this`locks, wf`graph, exec
      ensures Enabled(job, old(State(wf.graph.tasks, locks, permits, launched, marked, runs)), a)
      ensures State(wf.graph.tasks, locks, permits', launched, marked, runs')
           == Apply(job, old(State(wf.graph.tasks, locks, permits, launched, marked, runs)), a)
      ensures wf.graph.dependencies == old(wf.graph.dependencies)
      ensures Accounted(exec.script, job.start, before, exec.calls, runs') && (|before| >= quiet ==> NoneReopens(runs'))
    {
      hide Inv, Apply, Enabled, Accounted, NoneReopens, GoesOn, Settled, PhaseOk, Job.Valid;
      ghost var s := State(wf.graph.tasks, locks, permits, launched, marked, runs);
      ghost var calls := exec.calls;
      CallsGrow(exec.script, job.start, before, calls, runs);
      MovableIsTask(job, s, id);
      runs', permits', a := StepWorker(wf, exec, id, launched, marked, runs, permits, job);
      WorkerKeepsAccount(job, s, a, exec.script, before, calls, exec.calls);
      if |before| >= quiet {
        WorkerNotReopening(s, a, job);
      }
    }

    /** Lets the main goroutine or any goroutine that is able to move take one step. */
    method StepAny(wf: Workflow, exec: Executor, ready: seq<ID>, launched: nat, marked: bool, runs: map<ID, Phase>,
            permits: int, ghost job: Job, ghost quiet: nat, ghost before: seq<Call>)
      returns (launched': nat, marked': bool, runs': map<ID, Phase>, permits': int)
      requires job.Valid() && job.ready == ready && job.capacity == maxParallel && exec.QuietFrom(quiet)
      requires Inv(job, State(wf.graph.tasks, locks, permits, launched, marked, runs))
      requires launched < |ready| || exists id :: id in runs && !runs[id].Finished?
      requires Accounted(exec.script, job.start, before, exec.calls, runs) && (|before| >= quiet ==> NoneReopens(runs))
      modifies this`locks, wf`graph, exec
      ensures wf.graph.dependencies == old(wf.graph.dependencies)
      ensures Inv(job, State(wf.graph.tasks, locks, permits', launched', marked', runs'))
      ensures Remaining(job, State(wf.graph.tasks, locks, permits', launched', marked', runs'), |ready|)
            < Remaining(job, old(State(wf.graph.tasks, locks, permits, launched, marked, runs)), |ready|)
      ensures Accounted(exec.script, job.start, before, exec.calls, runs') && (|before| >= quiet ==> NoneReopens(runs'))
    {
      hide Movable, Inv, Apply, Enabled, Accounted, NoneReopens, Remaining, GoesOn, Settled, PhaseOk, Job.Valid;
      ghost var s := State(wf.graph.tasks, locks, permits, launched, marked, runs);
      ghost var a: Action;
      launched', marked', runs', permits' := launched, marked, runs, permits;
      var movable := Movable(runs, permits, maxParallel);
      NeverStuck(job, s);
      var main: bool := *;
      if launched < |ready| && (main || movable == {}) {
        NextIsTask(job, s);
        launched', marked', runs', a := StepMain(wf, ready, launched, marked, runs, permits, job);
        MainKeepsAccount(job, s, a, exec.script, before, exec.calls);
      } else {
        var id :| id in movable;
        runs', permits', a := MoveWorker(wf, exec, id, launched, marked, runs, permits, job, quiet, before);
      }
      StepInv(job, s, a);
      StepCounts(job, s, a);
    }

    /** The goroutines of one batch, interleaved arbitrarily until all are done. */
    method RunBatch(wf: Workflow, exec: Executor, ready: seq<ID>, ghost job: Job, ghost quiet: nat)
      returns (runs: map<ID, Phase>)
      requires job == Job(ready, wf.graph.tasks, locks, maxParallel) && job.Valid()
      requires exec.QuietFrom(quiet)
      modifies this`locks, wf`graph, exec
      ensures wf.graph.dependencies == old(wf.graph.dependencies)
      ensures runs.Keys == Elems(ready) - job.held
      ensures forall id :: id in runs ==> Settled(job.Launched(id), runs[id].Written())
      ensures forall id :: id in runs ==> runs[id].Finished?
      ensures wf.graph.tasks == Outcome(job, map id | id in runs :: StatusAfter(runs[id].Written()))
      ensures locks == old(locks)
      ensures Accounted(exec.script, job.start, old(exec.calls), exec.calls, runs)
      ensures |old(exec.calls)| >= quiet ==> NoneReopens(runs)
    {
      hide Inv, Accounted, NoneReopens, Remaining, Settled, Job.Valid;
      runs := map[];
      var permits, marked := 0, false;
      var launched: nat := 0;
      InitialInv(job);
      NothingCalled(exec.script, job.start, exec.calls);
      while launched < |ready| || exists id :: id in runs && !runs[id].Finished?
        invariant wf.graph.dependencies == old(wf.graph.dependencies)
        invariant Inv(job, State(wf.graph.tasks, locks, permits, launched, marked, runs))
        invariant Accounted(exec.script, job.start, old(exec.calls), exec.calls, runs)
        invariant |old(exec.calls)| >= quiet ==> NoneReopens(runs)
        decreases Remaining(job, State(wf.graph.tasks, locks, permits, launched, marked, runs), |ready|)
      {
        launched, marked, runs, permits :=
          StepAny(wf, exec, ready, launched, marked, runs, permits, job, quiet, old(exec.calls));
      }
      LaunchedAll(job, State(wf.graph.tasks, locks, permits, launched, marked, runs));
      BatchOutcome(job, State(wf.graph.tasks, locks, permits, launched, marked, runs));
    }

    /** Executes the ready list and waits: one more round of the run. */
    method RunReady(wf: Workflow, exec: Executor, ready: seq<ID>, ghost g: Graph, ghost quiet: nat)
      returns (ghost r: Round)
      requires Valid() && locks == {} && exec.QuietFrom(quiet)
      requires ValidGraph(g) && wf.graph == Propagated(g) && ready == ReadyList(wf.graph) && ready != []
      modifies this`locks, wf`graph, exec
      ensures ValidRound(g, r) && wf.graph == AfterRound(g, r)
      ensures locks == {}
      ensures |exec.calls| > |old(exec.calls)|
      ensures RoundRecorded(exec.script, g.tasks, old(exec.calls), exec.calls, r)
      ensures |old(exec.calls)| >= quiet ==> Reopened(r) == {}
    {
      hide CallsFor, RoundRecorded, Reopened, Phase.Written, ValidGraph, ValidRound, AfterRound, ReadyList, Propagated;
      hide Settled, Outcome, Accounted, NoneReopens, Job.Valid;
      ghost var job := Job(ready, wf.graph.tasks, locks, maxParallel);
      ReadyJob(g, job);
      ghost var before := exec.calls;
      var runs := RunBatch(wf, exec, ready, job, quiet);
      r := Round(ready, map id | id in runs :: runs[id].Written());
      BatchIsRound(g, job, runs);
      SettledNonEmpty(job, runs);
      RoundAccounted(exec.script, job.start, before, exec.calls, runs, r);
      GenuineBefore(exec.script, g, before, exec.calls, r);
      if |before| >= quiet {
        RoundQuiet(runs, r);
      }
    }

    /** The workflow is run to its end: rounds of ready tasks until nothing is ready, all
        tasks are decided, or the context is done. `ctxDone(k)` is `ctx.Err() != nil` at the
        head of the k-th pass; `quiet` a call number from which the executor reports no open
        status any more, without which the loop need not end.
     */
    method Run(ctxDone: nat -> bool, wf: Workflow, ghost quiet: nat)
      returns (err: Option<RunError>, ghost rounds: seq<Round>)
      requires Valid() && locks == {}
      requires executor != null ==> executor.QuietFrom(quiet)
      modifies this`locks, wf, if executor == null then {} else {executor}
      ensures locks == {}
      ensures (err.Some? && err.value.Invalid?) <==> !ValidGraph(old(wf.graph))
      ensures err == Some(NoExecutor) <==> ValidGraph(old(wf.graph)) && executor == null
      ensures !ValidGraph(old(wf.graph)) || executor == null ==>
                wf.graph == old(wf.graph) && wf.status == old(wf.status) && rounds == []
      ensures executor != null ==>
                Recorded(executor.script, old(wf.graph).tasks, old(executor.calls), executor.calls, rounds)
      ensures ValidRounds(old(wf.graph), rounds)
      ensures err == Some(ContextDone) ==>
                ctxDone(|rounds|) && wf.status == WorkflowCancelled && wf.graph == At(old(wf.graph), rounds, |rounds|)
      ensures err.None? ==>
                && wf.graph == Final(old(wf.graph), rounds) && AtRest(wf.graph) && wf.status == Verdict(wf.graph)
                && forall k :: 0 <= k < |rounds| ==> !ctxDone(k)
      ensures err.None? || err == Some(ContextDone) ==> AnswersStand(wf.graph, rounds)
      ensures err.None? ==> Judges(wf.status, wf.graph) && (GaveUp(rounds) ==> wf.status != WorkflowSucceeded)
      ensures err.None? && AlwaysSucceeds(executor.script) && StartsOpen(old(wf.graph)) ==>
                wf.status == WorkflowSucceeded && InLayers(old(wf.graph), rounds)
    {
      hide CallsFor, Recorded, RoundRecorded, Executor.QuietFrom, ValidGraph, ValidRounds, ValidRound, AfterRound, At;
      hide Propagated, ReadyList, AtRest, Verdict, Reopened, AlwaysSucceeds, StartsOpen, InLayers;
      hide AnswersStand, Judges, GaveUp;
      rounds := [];
      ghost var g0 := wf.graph;
      NoRoundsYet(g0);
      if executor != null {
        NothingRecorded(executor.script, g0.tasks, executor.calls);
      }
      var invalid := ValidateGraph(wf.graph);
      if invalid.Some? {
        return Some(Invalid(invalid.value)), [];
      }
      if executor == null {
        return Some(NoExecutor), [];
      }
      wf.status := WorkflowRunning;
      var pass := 0;
      while true
        invariant locks == {} && pass == |rounds|
        invariant ValidRounds(g0, rounds) && wf.graph == At(g0, rounds, |rounds|)
        invariant ValidGraph(wf.graph)
        invariant forall k :: 0 <= k < |rounds| ==> !ctxDone(k)
        invariant wf.status == WorkflowRunning
        invariant Recorded(executor.script, g0.tasks, old(executor.calls), executor.calls, rounds)
        decreases if |executor.calls| < quiet then quiet - |executor.calls| else 0, |wf.graph.OpenIds()|
      {
        if ctxDone(pass) {
          wf.status := WorkflowCancelled;
          AnswersLast(g0, rounds);
          return Some(ContextDone), rounds;
        }
        ghost var g := wf.graph;
        PropagateFailures(wf);
        var ready := ReadyTasks(wf.graph);
        if |ready| == 0 {
          NothingReady(g);
          var verdict := Tally(wf.graph);
          SuccessfulRun(executor.script, g0, old(executor.calls), executor.calls, rounds);
          AnswersJudged(g0, rounds);
          wf.status := verdict;
          return None, rounds;
        }
        ghost var calls := executor.calls;
        ghost var r := RunReady(wf, executor, ready, g, quiet);
        RoundShrinks(g, r);
        OneMoreRound(g0, rounds, r);
        RecordedMore(executor.script, g0, old(executor.calls), calls, executor.calls, rounds, r);
        RoundValid(g, r);
        rounds := rounds + [r];
        pass := pass + 1;
        var verdict := Tally(wf.graph);
        if verdict != WorkflowRunning {
          AllDecided(wf.graph);
          SuccessfulRun(executor.script, g0, old(executor.calls), executor.calls, rounds);
          AnswersJudged(g0, rounds);
          wf.status := verdict;
          return None, rounds;
        }
      }
    }
  }

  lemma AnswersJudged(g: Graph, rounds: seq<Round>)
    requires ValidRounds(g, rounds)
    ensures var f := Final(g, rounds);
            && AnswersStand(f, rounds) && Judges(Verdict(f), f)
            && (GaveUp(rounds) ==> Verdict(f) != WorkflowSucceeded)
  {
    hide ValidRounds, AnswersStand, Judges, GaveUp, Verdict, Final;
    AnswersLast(g, rounds);
    VerdictJudges(Final(g, rounds));
    if GaveUp(rounds) {
      GivenUpShows(Final(g, rounds), rounds, Verdict(Final(g, rounds)));
    }
  }

  lemma NoRoundsYet(g: Graph)
    ensures ValidRounds(g, []) && At(g, [], 0) == g
  {
  }

  /** The verdict the two flag loops compute. */
  method Tally(g: Graph) returns (verdict: WorkflowStatus)
    ensures verdict == Verdict(g)
  {
    var pending, failed := false, false;
    var todo := g.tasks.Keys;
    while todo != {}
      invariant todo <= g.tasks.Keys
      invariant pending <==>
                exists id :: id in g.tasks.Keys - todo && (g.tasks[id].status.Open() || g.tasks[id].status.Running?)
      invariant failed <==>
                exists id :: id in g.tasks.Keys - todo && (g.tasks[id].status.Failed? || g.tasks[id].status.TimedOut?)
      decreases |todo|
    {
      var id :| id in todo;
      todo := todo - {id};
      var status := g.tasks[id].status;
      if status.Pending? || status.Ready? || status.Running? {
        pending := true;
      }
      if status.Failed? || status.TimedOut? {
        failed := true;
      }
    }
    return if pending then WorkflowRunning else if failed then WorkflowFailed else WorkflowSucceeded;
  }

  lemma NothingReady(g: Graph)
    requires ReadyList(Propagated(g)) == []
    ensures AtRest(Propagated(g))
  {
    var p := Propagated(g);
    forall id ensures !IsReady(p, id) {
      assert id !in ReadyList(p);
    }
    PropagatedTwice(g);
    forall id ensures !ShouldBlock(p, id) {
      if id in p.tasks {
        assert Propagated(p).tasks[id] == p.tasks[id];
      }
    }
  }

  lemma AllDecided(g: Graph)
    requires Verdict(g) != WorkflowRunning
    ensures Propagated(g) == g && AtRest(g)
  {
    assert forall id :: id in g.tasks ==> !g.tasks[id].status.Open();
    assert Propagated(g).tasks == g.tasks;
  }

  lemma RoundValid(g: Graph, r: Round)
    requires ValidGraph(g) && ValidRound(g, r)
    ensures ValidGraph(AfterRound(g, r))
  {
    hide ShouldBlock, StatusAfter, ValidGraph, ValidRound;
    assert SameShape(g, AfterRound(g, r));
    SameShapeValid(g, AfterRound(g, r));
  }

  lemma ReadyJob(g: Graph, job: Job)
    requires ValidGraph(g) && job.start == Propagated(g).tasks && job.ready == ReadyList(Propagated(g))
    requires job.capacity >= 1
    ensures job.Valid()
  {
    forall id | id in job.ready ensures id in job.start && job.start[id].id == id && job.start[id].status.Open() {
      assert IsReady(Propagated(g), id);
      assert WellFormedTask(g, id);
    }
  }

  lemma SettledNonEmpty(job: Job, runs: map<ID, Phase>)
    requires job.ready != [] && runs.Keys == Elems(job.ready)
    requires forall id :: id in runs ==> id in job.start && Settled(job.Launched(id), runs[id].Written())
    ensures runs != map[]
    ensures forall id :: id in runs ==> runs[id].Written() != []
  {
    assert job.ready[0] in Elems(job.ready);
    assert job.ready[0] in runs;
  }

  /** What a batch leaves is what a round of the schedule says. */
  lemma BatchIsRound(g: Graph, job: Job, runs: map<ID, Phase>)
    requires job.start == Propagated(g).tasks && job.ready == ReadyList(Propagated(g)) && job.ready != []
    requires job.held == {}
    requires runs.Keys == Elems(job.ready) && job.Valid()
    requires forall id :: id in runs ==> id in job.start && Settled(job.Launched(id), runs[id].Written())
    ensures var r := Round(job.ready, map id | id in runs :: runs[id].Written());
            && ValidRound(g, r)
            && AfterRound(g, r)
               == Propagated(g).(tasks := Outcome(job, map id | id in runs :: StatusAfter(runs[id].Written())))
  {
    hide ValidRound, AfterRound, Settled, StatusAfter, Propagated, Outcome, ReadyList, Job.Valid, Phase.Written;
    var r := Round(job.ready, map id | id in runs :: runs[id].Written());
    RoundIsValid(g, job, runs, r);
    RoundTasks(g, job, runs, r);
  }

  lemma RoundIsValid(g: Graph, job: Job, runs: map<ID, Phase>, r: Round)
    requires job.start == Propagated(g).tasks && job.ready == ReadyList(Propagated(g)) && job.ready != []
    requires runs.Keys == Elems(job.ready)
    requires forall id :: id in runs ==> id in job.start && Settled(job.Launched(id), runs[id].Written())
    requires r == Round(job.ready, map id | id in runs :: runs[id].Written())
    ensures ValidRound(g, r)
  {
    hide Settled, Propagated, ReadyList, Phase.Written;
  }

  lemma RoundTasks(g: Graph, job: Job, runs: map<ID, Phase>, r: Round)
    requires job.start == Propagated(g).tasks && runs.Keys == Elems(job.ready)
    requires r.results == map id | id in runs :: runs[id].Written()
    ensures AfterRound(g, r)
         == Propagated(g).(tasks := Outcome(job, map id | id in runs :: StatusAfter(runs[id].Written())))
  {
    hide StatusAfter, ShouldBlock;
    var statuses := map id | id in runs :: StatusAfter(runs[id].Written());
    assert forall id :: id in job.ready <==> id in Elems(job.ready);
    assert AfterRound(g, r).tasks == Outcome(job, statuses);
  }

  // ------------------------------------------------------------- rounds and calls

  function Attempted(r: Round, id: ID): seq<Call> {
    if id in r.results then CallsOf(id, r.results[id]) else []
  }

  /** The calls that the first `k` rounds made for `id`. */
  function RoundCalls(rounds: seq<Round>, k: nat, id: ID): seq<Call>
    requires k <= |rounds|
  {
    if k == 0 then [] else RoundCalls(rounds, k - 1, id) + Attempted(rounds[k - 1], id)
  }

  /** The calls logged since `before` are, task by task, exactly the attempts of the round, and
      what they returned is what the executor answered.
   */
  ghost predicate RoundRecorded(script: Script, tasks: map<ID, Task>, before: seq<Call>, calls: seq<Call>, r: Round) {
    && before <= calls
    && Genuine(script, tasks, calls, |before|)
    && forall id :: CallsFor(calls, id) == CallsFor(before, id) + Attempted(r, id)
  }

  ghost predicate Recorded(script: Script, tasks: map<ID, Task>, before: seq<Call>, calls: seq<Call>,
          rounds: seq<Round>)
  {
    && before <= calls
    && Genuine(script, tasks, calls, |before|)
    && forall id :: CallsFor(calls, id) == CallsFor(before, id) + RoundCalls(rounds, |rounds|, id)
  }

  lemma {:induction false} RoundCallsPrefix(rounds: seq<Round>, r: Round, k: nat, id: ID)
    requires k <= |rounds|
    ensures RoundCalls(rounds + [r], k, id) == RoundCalls(rounds, k, id)
  {
    if k > 0 {
      RoundCallsPrefix(rounds, r, k - 1, id);
    }
  }

  lemma NothingRecorded(script: Script, tasks: map<ID, Task>, calls: seq<Call>)
    ensures Recorded(script, tasks, calls, calls, [])
  {
  }

  /** The tasks differ in their status only, so that their running copies are the same. */
  lemma GenuineShape(script: Script, g: Graph, h: Graph, calls: seq<Call>, from: nat)
    requires SameShape(g, h) && Genuine(script, h.tasks, calls, from)
    ensures Genuine(script, g.tasks, calls, from)
  {
    forall n | from <= n < |calls|
      ensures calls[n].task in g.tasks
      ensures calls[n].result == script(n, g.tasks[calls[n].task].(status := TaskStatus.Running), calls[n].attempt)
    {
      var id := calls[n].task;
      assert h.tasks[id].(status := TaskStatus.Running) == g.tasks[id].(status := TaskStatus.Running);
    }
  }

  lemma GenuineBefore(script: Script, g: Graph, before: seq<Call>, calls: seq<Call>, r: Round)
    requires RoundRecorded(script, Propagated(g).tasks, before, calls, r)
    ensures RoundRecorded(script, g.tasks, before, calls, r)
  {
    hide CallsFor, Attempted, ShouldBlock, Genuine;
    assert SameShape(g, Propagated(g));
    GenuineShape(script, g, Propagated(g), calls, |before|);
  }

  lemma RecordedMore(script: Script, g: Graph, before: seq<Call>, calls: seq<Call>, calls': seq<Call>,
          rounds: seq<Round>, r: Round)
    requires Recorded(script, g.tasks, before, calls, rounds)
    requires RoundRecorded(script, At(g, rounds, |rounds|).tasks, calls, calls', r)
    ensures Recorded(script, g.tasks, before, calls', rounds + [r])
  {
    hide CallsFor, Attempted, At, SameShape;
    ShapeKept(g, rounds, |rounds|);
    GenuineShape(script, g, At(g, rounds, |rounds|), calls', |calls|);
    forall n | |before| <= n < |calls| ensures calls'[n] == calls[n] {
    }
    forall id ensures CallsFor(calls', id) == CallsFor(before, id) + RoundCalls(rounds + [r], |rounds| + 1, id) {
      RoundCallsPrefix(rounds, r, |rounds|, id);
    }
  }

  lemma {:induction false} AttemptInRounds(rounds: seq<Round>, k: nat, j: nat, id: ID, c: Call)
    requires j < k <= |rounds| && c in Attempted(rounds[j], id)
    ensures c in RoundCalls(rounds, k, id)
  {
    if j < k - 1 {
      AttemptInRounds(rounds, k - 1, j, id, c);
    }
  }

  /** Every result a round records is what the executor answered at some call of the run. */
  lemma ResultAnswered(script: Script, tasks: map<ID, Task>, before: seq<Call>, calls: seq<Call>, rounds: seq<Round>,
        k: nat, id: ID, i: nat)
    requires Recorded(script, tasks, before, calls, rounds)
    requires k < |rounds| && id in rounds[k].results && i < |rounds[k].results[id]|
    ensures id in tasks
    ensures exists n: nat :: |before| <= n < |calls| && calls[n] == Call(id, i + 1, rounds[k].results[id][i]) &&
              calls[n].result == script(n, tasks[id].(status := TaskStatus.Running), i + 1)
  {
    hide CallsFor, RoundCalls;
    var c := Call(id, i + 1, rounds[k].results[id][i]);
    assert Attempted(rounds[k], id)[i] == c;
    AttemptInRounds(rounds, |rounds|, k, id, c);
    var since := calls[|before|..];
    assert calls == before + since;
    CallsForSplit(before, since, id);
    SamePrefix(CallsFor(before, id), CallsFor(since, id), RoundCalls(rounds, |rounds|, id));
    CallsForMember(since, id, c);
    var m :| 0 <= m < |since| && since[m] == c;
    assert calls[|before| + m] == c;
  }

  lemma SamePrefix(p: seq<Call>, a: seq<Call>, b: seq<Call>)
    requires p + a == p + b
    ensures a == b
  {
    assert a == (p + a)[|p|..] && b == (p + b)[|p|..];
  }

  ghost predicate AlwaysSucceeds(script: Script) {
    forall n, task, attempt :: script(n, task, attempt) in {Ok(Succeeded), Ok(Unset)}
  }

  /** Every answer is success or an error. */
  ghost predicate AlwaysPlain(script: Script) {
    forall n, task, attempt ::
      var r := script(n, task, attempt);
      r.Ok? ==> r.status.Unset? || Plain(r.status)
  }

  /** What the executor answers decides what the rounds record: an executor that always
      succeeds makes every execution succeed, one that only succeeds or errs makes every
      outcome plain.
   */
  lemma AnswersDecide(script: Script, g: Graph, before: seq<Call>, calls: seq<Call>, rounds: seq<Round>)
    requires ValidRounds(g, rounds) && Recorded(script, g.tasks, before, calls, rounds)
    ensures AlwaysSucceeds(script) ==> AllSucceed(rounds)
    ensures AlwaysPlain(script) ==> PlainOutcomes(rounds)
  {
    hide Recorded, At, ValidRound, StatusAfter, AlwaysSucceeds, AlwaysPlain, Plain;
    forall k, id | 0 <= k < |rounds| && id in rounds[k].results
      ensures AlwaysSucceeds(script) ==> StatusAfter(rounds[k].results[id]).Succeeded?
      ensures AlwaysPlain(script) ==> Plain(StatusAfter(rounds[k].results[id]))
    {
      AnswerDecides(script, g, before, calls, rounds, k, id);
    }
  }

  lemma AnswerDecides(script: Script, g: Graph, before: seq<Call>, calls: seq<Call>, rounds: seq<Round>, k: nat, id: ID)
    requires Recorded(script, g.tasks, before, calls, rounds)
    requires k < |rounds| && id in rounds[k].results && ValidRound(At(g, rounds, k), rounds[k])
    ensures AlwaysSucceeds(script) ==> StatusAfter(rounds[k].results[id]).Succeeded?
    ensures AlwaysPlain(script) ==> Plain(StatusAfter(rounds[k].results[id]))
  {
    hide Recorded, At, ValidRound;
    var tried := rounds[k].results[id];
    LastAttempt(At(g, rounds, k), rounds[k], id);
    ResultAnswered(script, g.tasks, before, calls, rounds, k, id, |tried| - 1);
  }

  lemma LastAttempt(g: Graph, r: Round, id: ID)
    requires ValidRound(g, r) && id in r.results
    ensures r.results[id] != []
  {
  }

  /** The whole of a run whose executor always succeeds: every task succeeds, in as many rounds
      as the longest dependency path has tasks.
   */
  lemma SuccessfulRun(script: Script, g: Graph, before: seq<Call>, calls: seq<Call>, rounds: seq<Round>)
    requires ValidGraph(g) && ValidRounds(g, rounds) && Recorded(script, g.tasks, before, calls, rounds)
    requires AtRest(Final(g, rounds))
    ensures AlwaysSucceeds(script) && StartsOpen(g) ==>
              Verdict(Final(g, rounds)) == WorkflowSucceeded && InLayers(g, rounds)
  {
    hide Recorded, ValidRounds, ValidGraph, AtRest, Verdict, StartsOpen, AlwaysSucceeds, Final;
    if AlwaysSucceeds(script) && StartsOpen(g) {
      AnswersDecide(script, g, before, calls, rounds);
      LayeredRun(g, rounds);
      forall k, id | 0 <= k < |rounds| ensures id in rounds[k].ready <==> InLayer(g, id, k) {
        RoundIsLayer(g, rounds, k, id);
      }
    }
  }

  /** Round k executes layer k, the last round leaves every task succeeded, and the rounds are
      as many as the longest dependency path has tasks.
   */
  ghost predicate InLayers(g: Graph, rounds: seq<Round>) {
    && (forall id :: id in g.tasks ==> Final(g, rounds).Status(id).Succeeded?)
    && (forall k, id :: 0 <= k < |rounds| ==> (id in rounds[k].ready <==> InLayer(g, id, k)))
    && (forall p :: Dag.IsPath(g.dependencies, p) && p[0] in g.tasks ==> |p| <= |rounds|)
    && (|rounds| > 0 ==> exists p :: Dag.IsPath(g.dependencies, p) && p[0] in g.tasks && |p| == |rounds|)
  }

  lemma {:induction false} CallsMeanEntry(g: Graph, rounds: seq<Round>, k: nat, id: ID)
    requires ValidRounds(g, rounds) && k <= |rounds| && RoundCalls(rounds, k, id) != []
    ensures exists j :: 0 <= j < k && id in rounds[j].ready
  {
    hide ValidRounds, Attempted;
    if k > 0 {
      EntryOf(g, rounds, k - 1, id);
      if id !in rounds[k - 1].ready {
        CallsMeanEntry(g, rounds, k - 1, id);
      }
    }
  }

  /** Over a whole run in which its outcomes never reopen it, a task is given at most
      max(1, MaxAttempts) attempts, all of them in the one round it enters.
   */
  lemma {:induction false} AttemptsBounded(g: Graph, rounds: seq<Round>, k: nat, id: ID)
    requires ValidRounds(g, rounds) && k <= |rounds| && id in g.tasks
    requires forall j :: 0 <= j < |rounds| ==> !Reopens(rounds[j], id)
    ensures |RoundCalls(rounds, k, id)|
         <= (if g.tasks[id].retry.maxAttempts < 1 then 1 else g.tasks[id].retry.maxAttempts)
    ensures RoundCalls(rounds, k, id) != [] ==>
              exists j :: 0 <= j < k && id in rounds[j].ready && RoundCalls(rounds, k, id) == Attempted(rounds[j], id)
  {
    hide ValidRound, ValidRounds, CallsOf, Reopens;
    if k > 0 {
      AttemptsBounded(g, rounds, k - 1, id);
      EntryOf(g, rounds, k - 1, id);
      if id in rounds[k - 1].ready {
        EntersOnce(g, rounds, k - 1, k - 1, id);
        CallsOfLength(id, rounds[k - 1].results[id]);
        FirstEntry(g, rounds, k - 1, id);
      }
    }
  }

  lemma CallsOfLength(id: ID, tried: seq<ExecResult>)
    ensures |CallsOf(id, tried)| == |tried|
  {
  }

  lemma EntryOf(g: Graph, rounds: seq<Round>, k: nat, id: ID)
    requires ValidRounds(g, rounds) && k < |rounds|
    ensures id in rounds[k].ready <==> id in rounds[k].results
    ensures id !in rounds[k].ready ==> Attempted(rounds[k], id) == []
  {
    hide ValidRound;
    InRound(At(g, rounds, k), rounds[k], id);
  }

  lemma FirstEntry(g: Graph, rounds: seq<Round>, k: nat, id: ID)
    requires ValidRounds(g, rounds) && k < |rounds| && id in rounds[k].ready
    requires forall j :: 0 <= j < |rounds| ==> !Reopens(rounds[j], id)
    ensures RoundCalls(rounds, k, id) == []
  {
    hide ValidRound, ValidRounds, Reopens, RoundCalls;
    if RoundCalls(rounds, k, id) != [] {
      CallsMeanEntry(g, rounds, k, id);
      var j :| 0 <= j < k && id in rounds[j].ready;
      EntersOnce(g, rounds, j, k, id);
      assert false;
    }
  }

  lemma InRound(g: Graph, r: Round, id: ID)
    requires ValidRound(g, r)
    ensures id in r.results <==> id in r.ready
  {
    assert id in r.results <==> id in Elems(r.ready);
  }

  lemma RoundAccounted(script: Script, tasks: map<ID, Task>, before: seq<Call>, calls: seq<Call>,
          runs: map<ID, Phase>, r: Round)
    requires Accounted(script, tasks, before, calls, runs) && runs != map[]
    requires forall id :: id in runs ==> runs[id].Finished? && runs[id].Written() != []
    requires r.results == map id | id in runs :: runs[id].Written()
    ensures |calls| > |before|
    ensures RoundRecorded(script, tasks, before, calls, r)
  {
    hide CallsFor, Genuine;
    var id :| id in runs;
    assert |CallsFor(calls, id)| > |CallsFor(before, id)|;
    assert |calls| == |before| ==> calls == before;
  }

  lemma RoundQuiet(runs: map<ID, Phase>, r: Round)
    requires NoneReopens(runs)
    requires forall id :: id in runs ==> runs[id].Finished?
    requires r.results == map id | id in runs :: runs[id].Written()
    ensures Reopened(r) == {}
  {
    forall id | id in r.results ensures !StatusAfter(r.results[id]).Open() {
      var tried := runs[id].Tried();
      assert r.results[id] == tried;
      if tried != [] {
        assert tried[|tried| - 1] in tried;
      }
    }
  }

  lemma LaunchedAll(job: Job, s: State)
    requires Inv(job, s)
    ensures s.launched <= |job.ready|
  {
  }

  lemma CallsGrow(script: Script, tasks: map<ID, Task>, before: seq<Call>, calls: seq<Call>, runs: map<ID, Phase>)
    requires Accounted(script, tasks, before, calls, runs)
    ensures |before| <= |calls|
  {
  }

  /** The call log has grown by exactly the attempts of the goroutines, with the results the
      executor answered.
   */
  ghost predicate Accounted(script: Script, tasks: map<ID, Task>, before: seq<Call>, calls: seq<Call>,
          runs: map<ID, Phase>)
  {
    && before <= calls
    && Genuine(script, tasks, calls, |before|)
    && forall id ::
         CallsFor(calls, id) == CallsFor(before, id) + if id in runs then CallsOf(id, runs[id].Tried()) else []
  }

  /** No attempt so far has answered with an open status. */
  ghost predicate NoneReopens(runs: map<ID, Phase>) {
    forall id, r :: id in runs && r in runs[id].Tried() ==> r.Ok? ==> !r.status.Open()
  }

  lemma NothingCalled(script: Script, tasks: map<ID, Task>, calls: seq<Call>)
    ensures Accounted(script, tasks, calls, calls, map[]) && NoneReopens(map[])
  {
  }

  lemma NextIsTask(job: Job, s: State)
    requires job.Valid() && Inv(job, s) && s.launched < |job.ready|
    ensures job.ready[s.launched] in s.tasks
  {
    assert job.ready[s.launched] in job.ready;
  }

  lemma MovableIsTask(job: Job, s: State, id: ID)
    requires job.Valid() && Inv(job, s) && id in s.runs
    ensures id in s.tasks && id in job.start && PhaseOk(job.Launched(id), s.runs[id])
    ensures s.tasks[id].(status := TaskStatus.Running) == job.Launched(id)
    ensures job.start[id].id == id
  {
    assert s.tasks[id] == Expected(job, s, id);
    assert id in job.ready[..s.launched];
    assert id in job.ready;
  }

  lemma MainKeepsAccount(job: Job, s: State, a: Action, script: Script, before: seq<Call>, calls: seq<Call>)
    requires job.Valid() && Inv(job, s) && (a.Mark? || a.Spawn?) && Enabled(job, s, a)
    requires Accounted(script, job.start, before, calls, s.runs)
    ensures Accounted(script, job.start, before, calls, Apply(job, s, a).runs)
    ensures NoneReopens(s.runs) ==> NoneReopens(Apply(job, s, a).runs)
  {
    hide CallsFor, Genuine, Inv;
    NotYetRun(job, s);
  }

  lemma NotYetRun(job: Job, s: State)
    requires job.Valid() && Inv(job, s) && s.launched < |job.ready|
    ensures job.ready[s.launched] !in s.runs
  {
    NextReady(job.ready, s.launched);
  }

  lemma WorkerKeepsAccount(job: Job, s: State, a: Action, script: Script, before: seq<Call>, calls: seq<Call>,
          calls': seq<Call>)
    requires !a.Mark? && !a.Spawn? && Enabled(job, s, a) && a.id in job.start && job.start[a.id].id == a.id
    requires Accounted(script, job.start, before, calls, s.runs)
    requires a.Return? ==> calls' == calls + [Call(a.id, |s.runs[a.id].tried| + 1, a.result)]
    requires a.Return? ==> a.result == script(|calls|, job.Launched(a.id), |s.runs[a.id].tried| + 1)
    requires !a.Return? ==> calls' == calls
    ensures Accounted(script, job.start, before, calls', Apply(job, s, a).runs)
  {
    hide CallsFor, CallsOf, GoesOn;
    var runs' := Apply(job, s, a).runs;
    forall id
      ensures CallsFor(calls', id)
           == CallsFor(before, id) + if id in runs' then CallsOf(id, runs'[id].Tried()) else []
    {
      if a.Return? {
        CallsForAppend(calls, Call(a.id, |s.runs[a.id].tried| + 1, a.result), id);
        CallsOfAppend(a.id, s.runs[a.id].tried, a.result);
      } else {
        NoCalls(id);
      }
    }
  }

  lemma NoCalls(id: ID)
    ensures CallsOf(id, []) == []
  {
  }

  lemma WorkerNotReopening(s: State, a: Action, job: Job)
    requires !a.Mark? && !a.Spawn? && Enabled(job, s, a) && NoneReopens(s.runs)
    requires a.Return? && a.result.Ok? ==> !a.result.status.Open()
    ensures NoneReopens(Apply(job, s, a).runs)
  {
    var runs' := Apply(job, s, a).runs;
    forall id, r | id in runs' && r in runs'[id].Tried() ensures r.Ok? ==> !r.status.Open() {
      if id == a.id && a.Return? {
        assert r in s.runs[id].Tried() || r == a.result;
      } else {
        assert r in s.runs[id].Tried();
      }
    }
  }
}
