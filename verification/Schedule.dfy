/** Whole runs of the scheduler as sequences of rounds. A round propagates failures, takes
    the ready list and settles every task on it; `Batch` shows that what a round leaves does
    not depend on how its goroutines interleave, so outcomes are all a round records.
 */
module Schedule {
  import opened Ordering
  import opened Dag
  import opened TaskGraph
  import opened Retry

  datatype Round = Round(ready: seq<ID>, results: map<ID, seq<ExecResult>>)

  function AfterRound(g: Graph, r: Round): Graph {
    var p := Propagated(g);
    p.(tasks := map id | id in p.tasks ::
      if id in r.results then p.tasks[id].(status := StatusAfter(r.results[id])) else p.tasks[id])
  }

  ghost predicate ValidRound(g: Graph, r: Round) {
    var p := Propagated(g);
    && r.ready == ReadyList(p) && r.ready != []
    && r.results.Keys == Elems(r.ready)
    && forall id :: id in r.results ==> id in p.tasks && Settled(p.tasks[id].(status := Running), r.results[id])
  }

  /** The graph after the first `k` rounds. */
  ghost function At(g: Graph, rounds: seq<Round>, k: nat): Graph
    requires k <= |rounds|
  {
    if k == 0 then g else AfterRound(At(g, rounds, k - 1), rounds[k - 1])
  }

  ghost predicate ValidRounds(g: Graph, rounds: seq<Round>) {
    forall k :: 0 <= k < |rounds| ==> ValidRound(At(g, rounds, k), rounds[k])
  }

  lemma {:induction false} AtPrefix(g: Graph, rounds: seq<Round>, r: Round, k: nat)
    requires k <= |rounds|
    ensures At(g, rounds + [r], k) == At(g, rounds, k)
  {
    if k > 0 {
      AtPrefix(g, rounds, r, k - 1);
    }
  }

  lemma OneMoreRound(g: Graph, rounds: seq<Round>, r: Round)
    requires ValidRounds(g, rounds) && ValidRound(At(g, rounds, |rounds|), r)
    ensures ValidRounds(g, rounds + [r])
    ensures At(g, rounds + [r], |rounds| + 1) == AfterRound(At(g, rounds, |rounds|), r)
  {
    hide ValidRound, AfterRound;
    forall k | 0 <= k <= |rounds| ensures ValidRound(At(g, rounds + [r], k), (rounds + [r])[k]) {
      AtPrefix(g, rounds, r, k);
    }
    AtPrefix(g, rounds, r, |rounds|);
  }

  /** Nothing but task statuses ever changes. */
  predicate SameShape(g: Graph, h: Graph) {
    && h.dependencies == g.dependencies
    && h.tasks.Keys == g.tasks.Keys
    && forall id :: id in g.tasks ==> h.tasks[id] == g.tasks[id].(status := h.tasks[id].status)
  }

  lemma {:induction false} ShapeKept(g: Graph, rounds: seq<Round>, k: nat)
    requires k <= |rounds|
    ensures SameShape(g, At(g, rounds, k))
  {
    hide AfterRound;
    if k > 0 {
      ShapeKept(g, rounds, k - 1);
      ShapeKeptOnce(At(g, rounds, k - 1), rounds[k - 1]);
    }
  }

  lemma ShapeKeptOnce(g: Graph, r: Round)
    ensures SameShape(g, AfterRound(g, r))
  {
    hide ShouldBlock, StatusAfter;
  }

  lemma SameShapeValid(g: Graph, h: Graph)
    requires SameShape(g, h) && ValidGraph(g)
    ensures ValidGraph(h)
  {
    forall id | id in h.tasks ensures WellFormedTask(h, id) {
      assert WellFormedTask(g, id);
    }
  }

  /** What a round leaves, in terms of the last answers alone: a deadline error times its task
      out even if it is a cancellation as well, a mere cancellation cancels it, any other
      error fails it; an empty status is success and any other is taken over. A task without
      an answer keeps its record, unless it is open and one of its dependencies failed.
   */
  lemma RoundLeaves(g: Graph, r: Round, id: ID)
    requires ValidRound(g, r) && id in g.tasks
    ensures id in AfterRound(g, r).tasks
    ensures id in r.results ==>
              && r.results[id] != []
              && AfterRound(g, r).tasks[id] == g.tasks[id].(status := AfterRound(g, r).tasks[id].status)
              && Answered(r.results[id][|r.results[id]| - 1], AfterRound(g, r).tasks[id].status)
    ensures id !in r.results ==>
              var task := g.tasks[id];
              if (task.status == Pending || task.status == Ready) && OneFailed(g, g.Deps(id))
              then AfterRound(g, r).tasks[id] == task.(status := Blocked) else AfterRound(g, r).tasks[id] == task
  {
    hide ReadyList;
    if id in r.results {
      assert id in Elems(r.ready);
      assert Settled(Propagated(g).tasks[id].(status := Running), r.results[id]);
      ReadyIsDecided(g, r, id);
    }
    assert FailedDependency(g, id) <==> OneFailed(g, g.Deps(id)) by { FailedMeaning(g, id); }
  }

  /** How an attempt's answer is to be stored if no other attempt follows. */
  predicate Answered(last: ExecResult, s: TaskStatus) {
    && (last.Err? && last.error.deadline ==> s == TimedOut)
    && (last.Err? && !last.error.deadline && last.error.canceled ==> s == Cancelled)
    && (last.Err? && !last.error.deadline && !last.error.canceled ==> s == Failed)
    && (last.Ok? && last.status == Unset ==> s == Succeeded)
    && (last.Ok? && last.status != Unset ==> s == last.status)
  }

  // ------------------------------------------------------ what a run never undoes

  /** In one round only ready tasks and tasks with a failed dependency change. */
  lemma DecidedOneRound(g: Graph, r: Round, id: ID)
    requires ValidRound(g, r) && id in g.tasks && !g.tasks[id].status.Open()
    ensures id in AfterRound(g, r).tasks && AfterRound(g, r).tasks[id] == g.tasks[id]
  {
    assert Propagated(g).tasks[id] == g.tasks[id];
    assert id !in r.ready;
    assert id !in r.results;
  }

  /** A task that is not open any more keeps its record to the end of the run; a succeeded
      task in particular never changes.
   */
  lemma {:induction false} DecidedStays(g: Graph, rounds: seq<Round>, j: nat, k: nat, id: ID)
    requires ValidRounds(g, rounds) && j <= k <= |rounds|
    requires id in At(g, rounds, j).tasks && !At(g, rounds, j).tasks[id].status.Open()
    ensures id in At(g, rounds, k).tasks && At(g, rounds, k).tasks[id] == At(g, rounds, j).tasks[id]
    decreases k
  {
    hide ValidRound, AfterRound;
    if j < k {
      DecidedStays(g, rounds, j, k - 1, id);
      DecidedOneRound(At(g, rounds, k - 1), rounds[k - 1], id);
    }
  }

  /** A task enters a round only when all its dependencies have succeeded, and they stay
      succeeded from then on.
   */
  lemma RunsAfterDependencies(g: Graph, rounds: seq<Round>, k: nat, j: nat, id: ID, d: ID)
    requires ValidRounds(g, rounds) && k < |rounds| && k <= j <= |rounds|
    requires id in rounds[k].ready && d in g.Deps(id)
    ensures At(g, rounds, j).Status(d).Succeeded?
  {
    ShapeKept(g, rounds, k);
    ReadyDependencies(At(g, rounds, k), rounds[k], id, d);
    DecidedStays(g, rounds, k, j, d);
  }

  lemma ReadyDependencies(g: Graph, r: Round, id: ID, d: ID)
    requires ValidRound(g, r) && id in r.ready && d in g.Deps(id)
    ensures d in g.tasks && g.tasks[d].status.Succeeded?
  {
    assert IsReady(Propagated(g), id);
    assert d in Propagated(g).Deps(id);
    assert Propagated(g).Status(d).Succeeded?;
  }

  /** The round reported a status that makes `id` eligible again. */
  predicate Reopens(r: Round, id: ID) {
    id in r.results && StatusAfter(r.results[id]).Open()
  }

  /** Unless its own outcome reopens it, a task enters at most one round; there it is given
      at least one and at most max(1, MaxAttempts) attempts.
   */
  lemma EntersOnce(g: Graph, rounds: seq<Round>, j: nat, k: nat, id: ID)
    requires ValidRounds(g, rounds) && j < |rounds| && k < |rounds|
    requires id in rounds[j].ready && id in rounds[k].ready
    requires !Reopens(rounds[j], id) && !Reopens(rounds[k], id)
    ensures j == k
    ensures id in g.tasks && id in rounds[j].results
    ensures 1 <= |rounds[j].results[id]|
              <= (if g.tasks[id].retry.maxAttempts < 1 then 1 else g.tasks[id].retry.maxAttempts)
  {
    hide ValidRound, Reopens;
    ShapeKept(g, rounds, j);
    EntryBounded(At(g, rounds, j), rounds[j], id);
    if j < k {
      NotAgain(g, rounds, j, k, id);
      assert false;
    } else if k < j {
      NotAgain(g, rounds, k, j, id);
      assert false;
    }
  }

  lemma EntryBounded(g: Graph, r: Round, id: ID)
    requires ValidRound(g, r) && id in r.ready
    ensures id in g.tasks && id in r.results
    ensures 1 <= |r.results[id]| <= (if g.tasks[id].retry.maxAttempts < 1 then 1 else g.tasks[id].retry.maxAttempts)
  {
    hide Settled, ReadyList;
    assert id in Elems(r.ready);
    SettledMeaning(Propagated(g).tasks[id].(status := Running), r.results[id]);
  }

  lemma NotAgain(g: Graph, rounds: seq<Round>, j: nat, k: nat, id: ID)
    requires ValidRounds(g, rounds) && j < k < |rounds|
    requires id in rounds[j].ready && !Reopens(rounds[j], id)
    ensures id !in rounds[k].ready
  {
    hide ValidRound, AfterRound;
    ReadyIsDecided(At(g, rounds, j), rounds[j], id);
    assert At(g, rounds, j + 1) == AfterRound(At(g, rounds, j), rounds[j]);
    DecidedStays(g, rounds, j + 1, k, id);
    if id in rounds[k].ready {
      ReadyIsDecided(At(g, rounds, k), rounds[k], id);
      assert false;
    }
  }

  /** A task on the ready list was open, and is given the status of its last attempt. */
  lemma ReadyIsDecided(g: Graph, r: Round, id: ID)
    requires ValidRound(g, r) && id in r.ready
    ensures id in g.tasks && g.tasks[id].status.Open() && id in r.results
    ensures AfterRound(g, r).tasks.Keys == g.tasks.Keys
    ensures AfterRound(g, r).tasks[id] == g.tasks[id].(status := StatusAfter(r.results[id]))
  {
    assert id in Elems(r.ready);
    assert IsReady(Propagated(g), id);
    assert Propagated(g).tasks[id] == g.tasks[id];
  }

  // -------------------------------------------------------------- termination

  function Reopened(r: Round): set<ID> {
    set id | id in r.results && StatusAfter(r.results[id]).Open()
  }

  /** Each round takes its tasks off the open ones, except those its outcomes reopen. */
  lemma RoundShrinks(g: Graph, r: Round)
    requires ValidRound(g, r)
    ensures |AfterRound(g, r).OpenIds()| + |r.ready| <= |g.OpenIds()| + |Reopened(r)|
    ensures |r.ready| >= 1
  {
    DistinctCount(r.ready);
    OpenAfter(g, r);
    SubsetCount(Propagated(g).OpenIds(), g.OpenIds());
  }

  lemma OpenAfter(g: Graph, r: Round)
    requires ValidRound(g, r)
    ensures Propagated(g).OpenIds() <= g.OpenIds()
    ensures Elems(r.ready) <= Propagated(g).OpenIds()
    ensures AfterRound(g, r).OpenIds() == (Propagated(g).OpenIds() - Elems(r.ready)) + Reopened(r)
  {
    hide Settled, Propagated, IsReady, Reopened, Graph.OpenIds;
    var p := Propagated(g);
    PropagatedOpen(g);
    forall id | id in Elems(r.ready) ensures id in p.OpenIds() {
      ReadyIsOpen(p, id);
    }
    StoredOpen(g, r);
  }

  lemma PropagatedOpen(g: Graph)
    ensures Propagated(g).OpenIds() <= g.OpenIds()
  {
    hide ShouldBlock;
  }

  lemma StoredOpen(g: Graph, r: Round)
    requires forall id :: id in r.results ==> id in Propagated(g).tasks
    ensures AfterRound(g, r).OpenIds() == (Propagated(g).OpenIds() - r.results.Keys) + Reopened(r)
  {
    hide Propagated, StatusAfter;
  }

  lemma ReadyIsOpen(p: Graph, id: ID)
    requires IsReady(p, id)
    ensures id in p.OpenIds()
  {
  }

  ghost function TotalReopened(rounds: seq<Round>, k: nat): nat
    requires k <= |rounds|
  {
    if k == 0 then 0 else TotalReopened(rounds, k - 1) + |Reopened(rounds[k - 1])|
  }

  lemma ReopenedFew(g: Graph, r: Round)
    requires ValidRound(g, r)
    ensures |Reopened(r)| <= |g.tasks|
  {
    forall id | id in Reopened(r) ensures id in g.tasks {
      assert id in Elems(r.ready);
      ReadyIsDecided(g, r, id);
    }
    SubsetCount(Reopened(r), g.tasks.Keys);
    assert |g.tasks.Keys| == |g.tasks|;
  }

  /** A run of k rounds leaves at least k fewer open tasks than it was given or reopened, so
      it cannot be longer than the number of tasks plus the number of reopening outcomes. As
      a round reopens at most all tasks, runs are of unbounded length exactly if reopening
      outcomes are.
   */
  lemma {:induction false} RoundsBound(g: Graph, rounds: seq<Round>, k: nat)
    requires ValidRounds(g, rounds) && k <= |rounds|
    ensures k + |At(g, rounds, k).OpenIds()| <= |g.OpenIds()| + TotalReopened(rounds, k)
    ensures TotalReopened(rounds, k) <= k * |g.tasks|
  {
    hide ValidRound, AfterRound, Reopened, Graph.OpenIds;
    if k > 0 {
      RoundsBound(g, rounds, k - 1);
      ShapeKept(g, rounds, k - 1);
      ReopenedFew(At(g, rounds, k - 1), rounds[k - 1]);
      assert |g.tasks.Keys| == |g.tasks| && |At(g, rounds, k - 1).tasks.Keys| == |At(g, rounds, k - 1).tasks|;
      assert k * |g.tasks| == (k - 1) * |g.tasks| + |g.tasks|;
      RoundShrinks(At(g, rounds, k - 1), rounds[k - 1]);
    }
  }

  /** A graph of one task without dependencies, and a round that executes it. */
  function Lone(status: TaskStatus): Graph {
    Graph(map["a" := ZERO_TASK.(id := "a", status := status)], map[])
  }

  function LoneRound(tried: seq<ExecResult>): Round {
    Round(["a"], map["a" := tried])
  }

  lemma LoneStays(status: TaskStatus)
    ensures Propagated(Lone(status)) == Lone(status)
  {
    assert Lone(status).Deps("a") == [];
    assert Propagated(Lone(status)).tasks == Lone(status).tasks;
  }

  lemma LoneRoundValid(tried: seq<ExecResult>)
    requires Settled(Lone(Running).tasks["a"], tried)
    ensures ValidRound(Lone(Pending), LoneRound(tried))
    ensures AfterRound(Lone(Pending), LoneRound(tried)) == Lone(StatusAfter(tried))
  {
    var g := Lone(Pending);
    LoneStays(Pending);
    assert g.Deps("a") == [];
    assert ReadySet(g) == {"a"} && Elems(["a"]) == {"a"};
    SortingIs(["a"], {"a"});
    assert AfterRound(g, LoneRound(tried)).tasks == Lone(StatusAfter(tried)).tasks;
  }

  /** With an executor that keeps answering "pending" the loop need not end: a run of any
      length is possible.
   */
  lemma {:induction false} PendingForever(n: nat) returns (rounds: seq<Round>)
    ensures |rounds| == n && ValidRounds(Lone(Pending), rounds)
    ensures At(Lone(Pending), rounds, n) == Lone(Pending)
  {
    hide ValidRound, AfterRound;
    if n == 0 {
      rounds := [];
    } else {
      var earlier := PendingForever(n - 1);
      PendingRound();
      OneMoreRound(Lone(Pending), earlier, LoneRound([Ok(Pending)]));
      rounds := earlier + [LoneRound([Ok(Pending)])];
    }
  }

  lemma PendingRound()
    ensures ValidRound(Lone(Pending), LoneRound([Ok(Pending)]))
    ensures AfterRound(Lone(Pending), LoneRound([Ok(Pending)])) == Lone(Pending)
  {
    OneAttemptSettles([Ok(Pending)]);
    LoneRoundValid([Ok(Pending)]);
  }

  lemma OneAttemptSettles(tried: seq<ExecResult>)
    requires |tried| == 1
    ensures Settled(Lone(Running).tasks["a"], tried)
  {
    assert tried[..0] == [] && tried[0] in tried;
  }
}
