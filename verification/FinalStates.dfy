/** How a run can end: which tasks are decided, which are blocked and which are left over,
    and what the final workflow status does and does not promise.
 */
module FinalStates {
  import opened Ordering
  import opened Dag
  import opened TaskGraph
  import opened Retry
  import opened Schedule

  ghost predicate StartsOpen(g: Graph) {
    forall id :: id in g.tasks ==> g.tasks[id].status.Open()
  }

  predicate Plain(s: TaskStatus) { s.Succeeded? || s.Failing() }

  /** Every execution ended in success or in an error; none reported another status. */
  ghost predicate PlainOutcomes(rounds: seq<Round>) {
    forall k, id :: 0 <= k < |rounds| && id in rounds[k].results ==> Plain(StatusAfter(rounds[k].results[id]))
  }

  ghost predicate AllDepsSucceeded(g: Graph, id: ID) {
    forall d :: d in g.Deps(id) ==> g.Status(d).Succeeded?
  }

  /** What every state of such a run satisfies. */
  ghost predicate Sane(g: Graph) {
    forall id :: id in g.tasks ==>
      var s := g.tasks[id].status;
      && (s.Open() || s.Blocked? || Plain(s))
      && (Plain(s) ==> AllDepsSucceeded(g, id))
      && (s.Blocked? ==> FailedDependency(g, id))
  }

  lemma SanePropagated(g: Graph)
    requires Sane(g)
    ensures Sane(Propagated(g))
  {
    var p := Propagated(g);
    forall d ensures p.Status(d).Succeeded? <==> g.Status(d).Succeeded? {}
    forall d ensures p.Status(d).Failing() <==> g.Status(d).Failing() {}
    forall id | id in p.tasks
      ensures Plain(p.tasks[id].status) ==> AllDepsSucceeded(p, id)
      ensures p.tasks[id].status.Blocked? ==> FailedDependency(p, id)
    {
      assert p.Deps(id) == g.Deps(id);
      assert FailedDependency(p, id) <==> FailedDependency(g, id);
    }
  }

  lemma SaneRound(g: Graph, r: Round)
    requires Sane(g) && ValidRound(g, r)
    requires forall id :: id in r.results ==> Plain(StatusAfter(r.results[id]))
    ensures Sane(AfterRound(g, r))
  {
    SanePropagated(g);
    SaneOutcomes(Propagated(g), r);
  }

  lemma SaneOutcomes(p: Graph, r: Round)
    requires Sane(p)
    requires forall id :: id in r.results ==> IsReady(p, id) && Plain(StatusAfter(r.results[id]))
    ensures Sane(p.(tasks := map id | id in p.tasks ::
              if id in r.results then p.tasks[id].(status := StatusAfter(r.results[id])) else p.tasks[id]))
  {
    var h := p.(tasks := map id | id in p.tasks ::
      if id in r.results then p.tasks[id].(status := StatusAfter(r.results[id])) else p.tasks[id]);
    forall d | Plain(p.Status(d)) || p.Status(d).Blocked? ensures h.Status(d) == p.Status(d) {}
    forall id | id in h.tasks
      ensures Plain(h.tasks[id].status) ==> AllDepsSucceeded(h, id)
      ensures h.tasks[id].status.Blocked? ==> FailedDependency(h, id)
      ensures h.tasks[id].status.Open() || h.tasks[id].status.Blocked? || Plain(h.tasks[id].status)
    {
      assert h.Deps(id) == p.Deps(id);
      assert AllDepsSucceeded(p, id) ==> AllDepsSucceeded(h, id);
      if id in r.results {
        assert AllDepsSucceeded(p, id);
      }
    }
  }

  lemma {:induction false} SaneThroughout(g: Graph, rounds: seq<Round>, k: nat)
    requires StartsOpen(g) && ValidRounds(g, rounds) && PlainOutcomes(rounds) && k <= |rounds|
    ensures Sane(At(g, rounds, k))
  {
    hide Sane, ValidRound, AfterRound;
    if k == 0 {
      SaneStart(g);
    } else {
      SaneThroughout(g, rounds, k - 1);
      SaneRound(At(g, rounds, k - 1), rounds[k - 1]);
    }
  }

  lemma SaneStart(g: Graph)
    requires StartsOpen(g)
    ensures Sane(g)
  {
  }

  /** The graph a run returns with. */
  ghost function Final(g: Graph, rounds: seq<Round>): Graph {
    Propagated(At(g, rounds, |rounds|))
  }

  /** Nothing is left to block and nothing is ready. */
  ghost predicate AtRest(f: Graph) {
    (forall id :: !ShouldBlock(f, id)) && (forall id :: !IsReady(f, id))
  }

  /** A dependency path leads from `id` to a blocked task. */
  ghost predicate ReachesBlocked(f: Graph, id: ID) {
    exists p :: PathToBlocked(f, p) && p[0] == id
  }

  ghost predicate PathToBlocked(f: Graph, p: seq<ID>) {
    |p| >= 2 && IsPath(f.dependencies, p) && f.Status(p[|p| - 1]).Blocked?
  }

  lemma BlockedByDependency(f: Graph, id: ID)
    requires Sane(f) && AtRest(f) && id in f.tasks
    ensures f.Status(id).Blocked? <==> FailedDependency(f, id)
  {
    assert !ShouldBlock(f, id);
    if FailedDependency(f, id) {
      var d :| d in f.Deps(id) && f.Status(d).Failing();
      assert !AllDepsSucceeded(f, id);
    }
  }

  lemma DecidedByDependencies(f: Graph, id: ID)
    requires Sane(f) && AtRest(f) && id in f.tasks
    ensures Plain(f.Status(id)) <==> AllDepsSucceeded(f, id)
  {
    assert !IsReady(f, id);
    if FailedDependency(f, id) {
      var d :| d in f.Deps(id) && f.Status(d).Failing();
      assert !AllDepsSucceeded(f, id);
    }
  }

  /** Every task on a path that ends in a blocked task is blocked or left over. */
  lemma {:induction false} PathToBlockedStalls(f: Graph, p: seq<ID>)
    requires Sane(f) && ValidGraph(f) && p != [] && IsPath(f.dependencies, p)
    requires f.Status(p[|p| - 1]).Blocked? && p[0] in f.tasks
    ensures f.Status(p[0]).Blocked? || f.Status(p[0]).Open()
    decreases |p|
  {
    if |p| > 1 {
      PathTail(f.dependencies, p);
      assert WellFormedTask(f, p[0]);
      PathToBlockedStalls(f, p[1..]);
      assert !AllDepsSucceeded(f, p[0]);
    }
  }

  /** A status that neither lets dependents run nor blocks them: blocked, waiting, running or
      any other text an executor reported.
   */
  predicate Holding(s: TaskStatus) { !s.Open() && !s.Succeeded? && !s.Failing() }

  /** A path through left-over tasks leads from `id` to a task that holds its dependents up. */
  ghost predicate ReachesHolding(f: Graph, id: ID) {
    exists p :: PathToHolding(f, p) && p[0] == id
  }

  ghost predicate PathToHolding(f: Graph, p: seq<ID>) {
    && |p| >= 2 && IsPath(f.dependencies, p)
    && (forall i :: 0 <= i < |p| - 1 ==> f.Status(p[i]).Open())
    && p[|p| - 1] in f.tasks && Holding(f.Status(p[|p| - 1]))
  }

  /** Whatever was reported, following the dependencies that have not succeeded from a
      left-over task ends, since the graph is acyclic, and can only end in a task that holds.
   */
  lemma LeftOverReachesHolding(f: Graph, id: ID)
    requires ValidGraph(f) && AtRest(f) && id in f.OpenIds()
    ensures ReachesHolding(f, id)
  {
    var lost := set x | x in f.OpenIds() && !ReachesHolding(f, x);
    if lost != {} {
      AcyclicSubset(f.dependencies, f.tasks.Keys, lost);
      var b := Bottom(f.dependencies, lost);
      assert !IsReady(f, b) && !ShouldBlock(f, b);
      var d :| d in f.Deps(b) && !f.Status(d).Succeeded?;
      assert WellFormedTask(f, b);
      assert d in f.OpenIds() ==> ReachesHolding(f, d);
      StepTowardsHolding(f, b, d);
      assert false;
    }
    assert id !in lost;
  }

  lemma StepTowardsHolding(f: Graph, id: ID, d: ID)
    requires d in f.Deps(id) && d in f.tasks && f.Status(id).Open() && (Holding(f.Status(d)) || ReachesHolding(f, d))
    ensures ReachesHolding(f, id)
  {
    if Holding(f.Status(d)) {
      assert PathToHolding(f, [id, d]);
    } else {
      var p :| PathToHolding(f, p) && p[0] == d;
      PathPrepend(f.dependencies, id, p);
      assert PathToHolding(f, [id] + p);
    }
  }

  /** When executions only succeeded or failed, the task that holds is a blocked one. */
  lemma LeftOverReachesBlocked(f: Graph, id: ID)
    requires Sane(f) && ValidGraph(f) && AtRest(f) && id in f.OpenIds()
    ensures ReachesBlocked(f, id)
    ensures exists p :: PathToHolding(f, p) && p[0] == id && f.Status(p[|p| - 1]).Blocked?
  {
    LeftOverReachesHolding(f, id);
    var p :| PathToHolding(f, p) && p[0] == id;
    assert f.Status(p[|p| - 1]).Blocked?;
    assert PathToBlocked(f, p);
  }

  /** How every task ends, in terms of its dependencies alone: blocked exactly when a direct
      dependency failed, decided exactly when all succeeded, left over exactly when neither
      and a path of dependencies leads to a blocked task.
   */
  lemma Classification(f: Graph, id: ID)
    requires Sane(f) && ValidGraph(f) && AtRest(f) && id in f.tasks
    ensures f.Status(id).Blocked? <==> FailedDependency(f, id)
    ensures Plain(f.Status(id)) <==> AllDepsSucceeded(f, id)
    ensures f.Status(id).Open() <==> !FailedDependency(f, id) && ReachesBlocked(f, id)
  {
    BlockedByDependency(f, id);
    DecidedByDependencies(f, id);
    if f.Status(id).Open() {
      LeftOverReachesBlocked(f, id);
    }
    if p :| PathToBlocked(f, p) && p[0] == id {
      PathToBlockedStalls(f, p);
    }
  }

  // ------------------------------------------------------------------ the verdict

  /** The status `Run` gives a workflow whose tasks it leaves like this. */
  function Verdict(f: Graph): WorkflowStatus {
    if exists id :: id in f.tasks && (f.tasks[id].status.Open() || f.tasks[id].status.Running?) then WorkflowRunning
    else if exists id :: id in f.tasks && (f.tasks[id].status.Failed? || f.tasks[id].status.TimedOut?)
    then WorkflowFailed
    else WorkflowSucceeded
  }

  /** A task that is left running, or left over behind one that holds it up. */
  ghost predicate Stays(f: Graph, id: ID) {
    f.Status(id).Running? || (f.Status(id).Open() && ReachesHolding(f, id))
  }

  /** Every execution stored success, or a status that makes its task eligible again. */
  ghost predicate OnlySuccess(rounds: seq<Round>) {
    forall k, id :: 0 <= k < |rounds| && id in rounds[k].results ==>
      var s := StatusAfter(rounds[k].results[id]);
      s.Succeeded? || s.Open()
  }

  /** What the verdict means when all tasks started open, whatever the executor reported:
      "running" comes with a task left running or with a stall, caused by a task that holds
      others up; and "succeeded" means that every task succeeded exactly when no execution
      stored anything else for good. If executions only succeeded or failed, a stall is
      caused by a blocked task and only a cancelled task can hide behind "succeeded".
   */
  lemma VerdictMeaning(g: Graph, rounds: seq<Round>)
    requires ValidGraph(g) && StartsOpen(g) && ValidRounds(g, rounds)
    requires AtRest(Final(g, rounds))
    ensures var f := Final(g, rounds);
            && (Verdict(f) == WorkflowRunning <==>
                 exists id :: id in f.tasks && Stays(f, id))
            && ((forall id :: id in f.tasks ==> !Holding(f.tasks[id].status)) ==> Verdict(f) != WorkflowRunning)
            && (Verdict(f) == WorkflowSucceeded ==> (AllSucceeded(f) <==> OnlySuccess(rounds)))
    ensures var f := Final(g, rounds);
            PlainOutcomes(rounds) ==>
              && (Verdict(f) == WorkflowRunning <==>
                   exists id :: id in f.tasks && !FailedDependency(f, id) && ReachesBlocked(f, id))
              && ((forall id :: id in f.tasks ==> !f.tasks[id].status.Blocked?) ==> Verdict(f) != WorkflowRunning)
              && (Verdict(f) == WorkflowSucceeded ==>
                   (AllSucceeded(f) <==> (forall id :: id in f.tasks ==> !f.tasks[id].status.Cancelled?)))
  {
    hide Sane, AtRest, ValidRounds, PlainOutcomes, OnlySuccess, ReachesBlocked, FailedDependency;
    var f := Final(g, rounds);
    FinalValid(g, rounds);
    RunningMeansHeld(f);
    if Verdict(f) == WorkflowSucceeded {
      SucceededMeans(g, rounds);
    }
    if PlainOutcomes(rounds) {
      FinalSane(g, rounds);
      RunningMeansStalled(f);
      if Verdict(f) == WorkflowSucceeded {
        SucceededUnlessCancelled(f);
      }
    }
  }

  ghost predicate AllSucceeded(f: Graph) {
    forall id :: id in f.tasks ==> f.tasks[id].status.Succeeded?
  }

  lemma FinalValid(g: Graph, rounds: seq<Round>)
    requires ValidGraph(g)
    ensures SameShape(g, Final(g, rounds)) && ValidGraph(Final(g, rounds))
  {
    hide ShouldBlock, ValidGraph;
    ShapeKept(g, rounds, |rounds|);
    assert SameShape(g, Final(g, rounds));
    SameShapeValid(g, Final(g, rounds));
  }

  lemma RunningMeansHeld(f: Graph)
    requires ValidGraph(f) && AtRest(f)
    ensures Verdict(f) == WorkflowRunning <==>
              exists id :: id in f.tasks && Stays(f, id)
    ensures (forall id :: id in f.tasks ==> !Holding(f.tasks[id].status)) ==> Verdict(f) != WorkflowRunning
  {
    hide AtRest, ValidGraph;
    forall id | id in f.tasks && f.tasks[id].status.Open()
      ensures ReachesHolding(f, id) && exists x :: x in f.tasks && Holding(f.tasks[x].status)
    {
      LeftOverReachesHolding(f, id);
      var p :| PathToHolding(f, p) && p[0] == id;
    }
  }

  /** With the verdict "succeeded", every task has succeeded if and only if no execution stored
      a status other than success or one that reopens its task.
   */
  lemma SucceededMeans(g: Graph, rounds: seq<Round>)
    requires StartsOpen(g) && ValidRounds(g, rounds) && Verdict(Final(g, rounds)) == WorkflowSucceeded
    ensures AllSucceeded(Final(g, rounds)) <==> OnlySuccess(rounds)
  {
    hide ValidRounds, ValidRound, AfterRound;
    var f := Final(g, rounds);
    if AllSucceeded(f) {
      forall k, id | 0 <= k < |rounds| && id in rounds[k].results
        ensures var s := StatusAfter(rounds[k].results[id]); s.Succeeded? || s.Open()
      {
        StoredStays(g, rounds, k, id);
      }
    }
    if OnlySuccess(rounds) {
      OpenOrSucceeded(g, rounds, |rounds|);
    }
  }

  /** A status that is not open, once stored for a task, is the task's status at the end. */
  lemma StoredStays(g: Graph, rounds: seq<Round>, k: nat, id: ID)
    requires ValidRounds(g, rounds) && k < |rounds| && id in rounds[k].results
    ensures var s := StatusAfter(rounds[k].results[id]);
            !s.Open() ==> id in Final(g, rounds).tasks && Final(g, rounds).tasks[id].status == s
  {
    hide ValidRound, AfterRound, StatusAfter;
    var s := StatusAfter(rounds[k].results[id]);
    assert ValidRound(At(g, rounds, k), rounds[k]);
    ResultIsReady(At(g, rounds, k), rounds[k], id);
    ReadyIsDecided(At(g, rounds, k), rounds[k], id);
    assert At(g, rounds, k + 1) == AfterRound(At(g, rounds, k), rounds[k]);
    if !s.Open() {
      DecidedStays(g, rounds, k + 1, |rounds|, id);
    }
  }

  lemma ResultIsReady(g: Graph, r: Round, id: ID)
    requires ValidRound(g, r) && id in r.results
    ensures id in r.ready
  {
    assert id in Elems(r.ready);
  }

  ghost predicate OpenOrDone(h: Graph) {
    forall id :: id in h.tasks ==> h.tasks[id].status.Open() || h.tasks[id].status.Succeeded?
  }

  lemma {:induction false} OpenOrSucceeded(g: Graph, rounds: seq<Round>, k: nat)
    requires StartsOpen(g) && ValidRounds(g, rounds) && OnlySuccess(rounds) && k <= |rounds|
    ensures OpenOrDone(At(g, rounds, k)) && Propagated(At(g, rounds, k)) == At(g, rounds, k)
  {
    hide ValidRounds, OnlySuccess, Propagated, AfterRound, OpenOrDone, StartsOpen;
    if k > 0 {
      OpenOrSucceeded(g, rounds, k - 1);
      SuccessKept(At(g, rounds, k - 1), rounds, k - 1);
    } else {
      StartDone(g);
    }
    NothingToBlock(At(g, rounds, k));
  }

  lemma StartDone(g: Graph)
    requires StartsOpen(g)
    ensures OpenOrDone(g)
  {
  }

  lemma SuccessKept(h: Graph, rounds: seq<Round>, k: nat)
    requires k < |rounds| && OnlySuccess(rounds) && Propagated(h) == h && OpenOrDone(h)
    ensures OpenOrDone(AfterRound(h, rounds[k]))
  {
    hide StatusAfter, Propagated;
  }

  lemma NothingToBlock(h: Graph)
    requires OpenOrDone(h)
    ensures Propagated(h) == h
  {
    assert forall d :: !h.Status(d).Failing();
    assert forall id :: !ShouldBlock(h, id);
    assert Propagated(h).tasks == h.tasks;
  }

  lemma RunningMeansStalled(f: Graph)
    requires Sane(f) && ValidGraph(f) && AtRest(f)
    ensures Verdict(f) == WorkflowRunning <==>
              exists id :: id in f.tasks && !FailedDependency(f, id) && ReachesBlocked(f, id)
    ensures (forall id :: id in f.tasks ==> !f.tasks[id].status.Blocked?) ==> Verdict(f) != WorkflowRunning
  {
    forall id | id in f.tasks
      ensures f.tasks[id].status.Open() <==> !FailedDependency(f, id) && ReachesBlocked(f, id)
      ensures !f.tasks[id].status.Running?
      ensures (forall x :: x in f.tasks ==> !f.tasks[x].status.Blocked?) ==> !ReachesBlocked(f, id)
    {
      Classification(f, id);
      if forall x :: x in f.tasks ==> !f.tasks[x].status.Blocked? {
        NoBlockedNoPath(f, id);
      }
    }
  }

  lemma FinalSane(g: Graph, rounds: seq<Round>)
    requires ValidGraph(g) && StartsOpen(g) && ValidRounds(g, rounds) && PlainOutcomes(rounds)
    ensures Sane(Final(g, rounds)) && ValidGraph(Final(g, rounds))
  {
    SaneThroughout(g, rounds, |rounds|);
    SanePropagated(At(g, rounds, |rounds|));
    ShapeKept(g, rounds, |rounds|);
    assert SameShape(g, Final(g, rounds));
    SameShapeValid(g, Final(g, rounds));
  }

  lemma NoBlockedNoPath(f: Graph, id: ID)
    requires ValidGraph(f) && id in f.tasks
    requires forall x :: x in f.tasks ==> !f.tasks[x].status.Blocked?
    ensures !ReachesBlocked(f, id)
  {
    ValidIsClosed(f);
    if p :| PathToBlocked(f, p) && p[0] == id {
      PathInside(f.dependencies, f.tasks.Keys, p, |p| - 1);
      assert false;
    }
  }

  lemma SucceededUnlessCancelled(f: Graph)
    requires Sane(f) && ValidGraph(f) && Verdict(f) == WorkflowSucceeded
    ensures AllSucceeded(f) <==> (forall id :: id in f.tasks ==> !f.tasks[id].status.Cancelled?)
  {
    if forall id :: id in f.tasks ==> !f.tasks[id].status.Cancelled? {
      forall id | id in f.tasks ensures f.tasks[id].status.Succeeded? {
        assert WellFormedTask(f, id);
        assert forall d :: d in f.Deps(id) ==> d in f.tasks && !f.Status(d).Failing();
        assert !FailedDependency(f, id);
      }
    }
  }

  // --------------------------------------------------------- answers and verdicts

  /** Every task ends with what the executor answered it last, unless that answer made it
      eligible again.
   */
  ghost predicate AnswersStand(f: Graph, rounds: seq<Round>) {
    forall k, id :: 0 <= k < |rounds| && id in rounds[k].results ==>
      && id in f.tasks && rounds[k].results[id] != []
      && (var last := rounds[k].results[id][|rounds[k].results[id]| - 1];
          last in {Ok(Pending), Ok(Ready)} || Answered(last, f.tasks[id].status))
  }

  lemma AnswersLast(g: Graph, rounds: seq<Round>)
    requires ValidRounds(g, rounds)
    ensures AnswersStand(At(g, rounds, |rounds|), rounds) && AnswersStand(Final(g, rounds), rounds)
  {
    hide ValidRound, AfterRound, Answered;
    forall k, id | 0 <= k < |rounds| && id in rounds[k].results
      ensures rounds[k].results[id] != [] && id in At(g, rounds, |rounds|).tasks && id in Final(g, rounds).tasks
      ensures var last := rounds[k].results[id][|rounds[k].results[id]| - 1];
              last in {Ok(Pending), Ok(Ready)} ||
              (Answered(last, At(g, rounds, |rounds|).tasks[id].status) &&
               Answered(last, Final(g, rounds).tasks[id].status))
    {
      AnswerLasts(g, rounds, k, id);
    }
  }

  lemma AnswerLasts(g: Graph, rounds: seq<Round>, k: nat, id: ID)
    requires ValidRounds(g, rounds) && k < |rounds| && id in rounds[k].results
    ensures rounds[k].results[id] != [] && id in At(g, rounds, |rounds|).tasks && id in Final(g, rounds).tasks
    ensures var last := rounds[k].results[id][|rounds[k].results[id]| - 1];
            last in {Ok(Pending), Ok(Ready)} ||
            (Answered(last, At(g, rounds, |rounds|).tasks[id].status) &&
             Answered(last, Final(g, rounds).tasks[id].status))
  {
    hide ValidRound, AfterRound, ShouldBlock;
    var h := At(g, rounds, k);
    assert ValidRound(h, rounds[k]);
    ResultIsReady(h, rounds[k], id);
    ReadyIsDecided(h, rounds[k], id);
    RoundLeaves(h, rounds[k], id);
    ShapeKept(g, rounds, k);
    ShapeKept(g, rounds, |rounds|);
    var last := rounds[k].results[id][|rounds[k].results[id]| - 1];
    assert At(g, rounds, k + 1) == AfterRound(h, rounds[k]);
    if last !in {Ok(Pending), Ok(Ready)} {
      DecidedStays(g, rounds, k + 1, |rounds|, id);
      NotBlocked(At(g, rounds, |rounds|), id);
    }
  }

  lemma NotBlocked(g: Graph, id: ID)
    requires id in g.tasks && !g.tasks[id].status.Open()
    ensures id in Propagated(g).tasks && Propagated(g).tasks[id] == g.tasks[id]
  {
  }

  /** The verdict in terms of statuses: running as long as a task is pending, ready or running,
      otherwise failed if one has failed or timed out, otherwise succeeded.
   */
  ghost predicate Judges(verdict: WorkflowStatus, f: Graph) {
    && (verdict == WorkflowRunning <==>
         exists id :: id in f.tasks && f.tasks[id].status in {Pending, Ready, Running})
    && (verdict == WorkflowFailed <==>
         && (forall id :: id in f.tasks ==> f.tasks[id].status !in {Pending, Ready, Running})
         && exists id :: id in f.tasks && f.tasks[id].status in {Failed, TimedOut})
    && (verdict == WorkflowSucceeded <==>
         forall id :: id in f.tasks ==> f.tasks[id].status !in {Pending, Ready, Running, Failed, TimedOut})
  }

  lemma VerdictJudges(f: Graph)
    ensures Judges(Verdict(f), f)
  {
  }

  /** Some task was given up with an error that is a deadline or no cancellation. */
  ghost predicate GaveUp(rounds: seq<Round>) {
    exists k, id :: 0 <= k < |rounds| && id in rounds[k].results && rounds[k].results[id] != [] &&
      var last := rounds[k].results[id][|rounds[k].results[id]| - 1];
      last.Err? && (last.error.deadline || !last.error.canceled)
  }

  /** Such an error leaves its task failed or timed out, and rules success out. */
  lemma GivenUpShows(f: Graph, rounds: seq<Round>, verdict: WorkflowStatus)
    requires AnswersStand(f, rounds) && Judges(verdict, f) && GaveUp(rounds)
    ensures exists id :: id in f.tasks && f.tasks[id].status in {Failed, TimedOut}
    ensures verdict != WorkflowSucceeded
  {
    var k, id :| 0 <= k < |rounds| && id in rounds[k].results && rounds[k].results[id] != [] &&
      var last := rounds[k].results[id][|rounds[k].results[id]| - 1];
      last.Err? && (last.error.deadline || !last.error.canceled);
    assert f.tasks[id].status in {Failed, TimedOut};
  }

  // ------------------------------------------------------- what a verdict hides

  /** "Succeeded" does not mean that the work was done: a run whose only task is given some
      status that is neither open, running, failed nor timed out ends with that verdict.
   */
  lemma SucceededThough(tried: seq<ExecResult>, s: TaskStatus)
    requires Settled(Lone(Running).tasks["a"], tried) && StatusAfter(tried) == s
    requires !s.Open() && !s.Running? && !s.Failed? && !s.TimedOut?
    ensures ValidRounds(Lone(Pending), [LoneRound(tried)]) && Final(Lone(Pending), [LoneRound(tried)]) == Lone(s)
    ensures AtRest(Lone(s)) && Verdict(Lone(s)) == WorkflowSucceeded
  {
    hide ValidRound, AfterRound, Settled, StatusAfter;
    LoneRoundValid(tried);
    LoneStays(s);
    var r := LoneRound(tried);
    assert At(Lone(Pending), [r], 1) == AfterRound(At(Lone(Pending), [r], 0), r);
  }

  /** So it is when the executor cancels the task, and when it reports it waiting. */
  lemma SucceededThoughCancelled(message: string) returns (cancelled: seq<Round>, waiting: seq<Round>)
    ensures ValidRounds(Lone(Pending), cancelled) && PlainOutcomes(cancelled) && ValidRounds(Lone(Pending), waiting)
    ensures Final(Lone(Pending), cancelled) == Lone(Cancelled) && Final(Lone(Pending), waiting) == Lone(Waiting)
    ensures AtRest(Lone(Cancelled)) && Verdict(Lone(Cancelled)) == WorkflowSucceeded
    ensures AtRest(Lone(Waiting)) && Verdict(Lone(Waiting)) == WorkflowSucceeded
  {
    hide ValidRounds, Settled, AtRest, Verdict, Final;
    var error := [Err(ExecError(false, true, message))];
    OneAttemptSettles(error);
    OneAttemptSettles([Ok(Waiting)]);
    SucceededThough(error, Cancelled);
    SucceededThough([Ok(Waiting)], Waiting);
    cancelled, waiting := [LoneRound(error)], [LoneRound([Ok(Waiting)])];
  }

  /** Three tasks in a chain: "c" depends on "b", "b" on "a". */
  function Chain(a: TaskStatus, b: TaskStatus, c: TaskStatus): Graph {
    Graph(map["a" := ZERO_TASK.(id := "a", status := a), "b" := ZERO_TASK.(id := "b", status := b),
              "c" := ZERO_TASK.(id := "c", status := c)],
          map["b" := ["a"], "c" := ["b"]])
  }

  /** A stall: the first task of the chain fails, the second is blocked, the third waits for
      it for ever, and the run returns without an error in the status it started with.
   */
  lemma StalledRun(message: string) returns (rounds: seq<Round>)
    ensures ValidGraph(Chain(Pending, Pending, Pending)) && StartsOpen(Chain(Pending, Pending, Pending))
    ensures ValidRounds(Chain(Pending, Pending, Pending), rounds) && PlainOutcomes(rounds)
    ensures Final(Chain(Pending, Pending, Pending), rounds) == Chain(Failed, Blocked, Pending)
    ensures AtRest(Chain(Failed, Blocked, Pending)) && Verdict(Chain(Failed, Blocked, Pending)) == WorkflowRunning
  {
    hide ValidRound, AfterRound, AtRest, ValidGraph;
    var g := Chain(Pending, Pending, Pending);
    var r := FailingRound(message);
    rounds := [r];
    ChainValid();
    ChainAtRest();
    assert At(g, rounds, 1) == AfterRound(At(g, rounds, 0), r);
  }

  lemma ChainValid()
    ensures ValidGraph(Chain(Pending, Pending, Pending))
  {
    hide Acyclic;
    ChainAcyclic();
    var g := Chain(Pending, Pending, Pending);
    assert g.Deps("a") == [] && g.Deps("b") == ["a"] && g.Deps("c") == ["b"];
  }

  lemma ChainAcyclic()
    ensures var g := Chain(Pending, Pending, Pending); Acyclic(g.dependencies, g.tasks.Keys)
  {
    hide Topological, Acyclic, Elems;
    var edges := Chain(Pending, Pending, Pending).dependencies;
    assert Out(edges, "a") == [] && Out(edges, "b") == ["a"] && Out(edges, "c") == ["b"];
    NothingOrdered(edges);
    ExtendOrder(edges, [], "a");
    ExtendOrder(edges, [] + ["a"], "b");
    ExtendOrder(edges, [] + ["a"] + ["b"], "c");
    TopologicalIsAcyclic(edges, [] + ["a"] + ["b"] + ["c"]);
    assert Elems([] + ["a"] + ["b"] + ["c"]) == {"a", "b", "c"} == Chain(Pending, Pending, Pending).tasks.Keys;
  }

  lemma NothingOrdered(edges: Edges)
    ensures Topological(edges, []) && Elems<ID>([]) == {}
  {
  }

  lemma FailingRound(message: string) returns (r: Round)
    ensures ValidRound(Chain(Pending, Pending, Pending), r)
    ensures AfterRound(Chain(Pending, Pending, Pending), r) == Chain(Failed, Pending, Pending)
    ensures r.results.Keys == {"a"} && StatusAfter(r.results["a"]) == Failed
  {
    hide Settled, Propagated, ReadyList;
    var g := Chain(Pending, Pending, Pending);
    var tried := [Err(ExecError(false, false, message))];
    r := Round(["a"], map["a" := tried]);
    OneAttemptSettles(tried);
    ChainReady();
    assert Elems(["a"]) == {"a"};
    assert g.tasks["a"].(status := TaskStatus.Running) == Lone(TaskStatus.Running).tasks["a"];
    assert AfterRound(g, r).tasks == Chain(Failed, Pending, Pending).tasks;
  }

  lemma ChainReady()
    ensures Propagated(Chain(Pending, Pending, Pending)) == Chain(Pending, Pending, Pending)
    ensures ReadyList(Chain(Pending, Pending, Pending)) == ["a"]
  {
    var g := Chain(Pending, Pending, Pending);
    NothingToBlock(g);
    assert g.Deps("a") == [] && g.Deps("b") == ["a"] && g.Deps("c") == ["b"];
    assert "a" in g.Deps("b") && "b" in g.Deps("c");
    assert ReadySet(g) == {"a"} && Elems(["a"]) == {"a"};
    SortingIs(["a"], {"a"});
  }

  lemma ChainAtRest()
    ensures Propagated(Chain(Failed, Pending, Pending)) == Chain(Failed, Blocked, Pending)
    ensures AtRest(Chain(Failed, Blocked, Pending)) && Verdict(Chain(Failed, Blocked, Pending)) == WorkflowRunning
  {
    var g := Chain(Failed, Pending, Pending);
    var f := Chain(Failed, Blocked, Pending);
    assert g.Deps("a") == [] && g.Deps("b") == ["a"] && g.Deps("c") == ["b"];
    assert f.Deps("a") == [] && f.Deps("b") == ["a"] && f.Deps("c") == ["b"];
    assert "a" in g.Deps("b") && "b" in f.Deps("c");
    assert Propagated(g).tasks == f.tasks;
    assert "c" in f.tasks;
  }
}
