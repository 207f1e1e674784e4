/** The provisioning manager: a list of dependent steps worked off in passes, with the run
    saved after every passed step so that a crash loses at most the step in progress.
 */
module Provisioning {
  import opened Wrappers
  import opened Ordering
  import opened Dag
  import opened VertexList

  datatype StepStatus = StepPending | StepRunning | StepPassed | StepFailed | StepSkipped

  datatype Step = Step(id: string, status: StepStatus, deps: seq<string>) {
    function AsVertex(): Vertex { Vertex(id, deps) }
  }

  function Vertices(steps: seq<Step>): (vs: seq<Vertex>)
    ensures |vs| == |steps| && forall k :: 0 <= k < |steps| ==> vs[k] == steps[k].AsVertex()
  {
    seq(|steps|, k requires 0 <= k < |steps| => steps[k].AsVertex())
  }

  ghost predicate ValidSteps(steps: seq<Step>) {
    Workable(Vertices(steps))
  }

  /** `provisioning.ValidateGraph`. */
  method ValidateGraph(steps: seq<Step>) returns (err: Option<ListError>)
    ensures err.None? <==> ValidSteps(steps)
    ensures err.Some? && err.value.Cycle? ==> OnCycle(EdgesOf(Vertices(steps)), err.value.id)
    ensures err.Some? && err.value.Missing? ==>
              exists i :: 0 <= i < |steps| && steps[i].id == err.value.id && err.value.dep in steps[i].deps &&
                          forall j :: 0 <= j < |steps| ==> steps[j].id != err.value.dep
  {
    hide EdgesOf, Workable;
    err := Validate(Vertices(steps));
    if err.Some? && err.value.Missing? {
      var vs := Vertices(steps);
      var i :| 0 <= i < |vs| && vs[i].id == err.value.id && err.value.dep in vs[i].deps &&
               forall j :: 0 <= j < |vs| ==> vs[j].id != err.value.dep;
      assert steps[i].id == err.value.id && err.value.dep in steps[i].deps;
      forall j | 0 <= j < |steps| ensures steps[j].id != err.value.dep {
        assert vs[j].id == steps[j].id;
      }
    }
  }

  // ------------------------------------------------------------------ ready steps

  /** No step listed as a dependency of `steps[k]` is short of passed. */
  ghost predicate DepsPassed(steps: seq<Step>, k: nat)
    requires k < |steps|
  {
    forall j :: 0 <= j < |steps| && steps[j].id in steps[k].deps ==> steps[j].status.StepPassed?
  }

  ghost predicate IsReady(steps: seq<Step>, k: nat) {
    k < |steps| && steps[k].status.StepPending? && DepsPassed(steps, k)
  }

  /** `out` are copies of the ready ones among the first `n` steps, in list order; `at` are
      their positions.
   */
  ghost predicate ReadyListed(steps: seq<Step>, n: nat, out: seq<Step>, at: seq<nat>) {
    && |out| == |at|
    && (forall i :: 0 <= i < |at| ==> at[i] < n && IsReady(steps, at[i]) && out[i] == steps[at[i]])
    && (forall i, j :: 0 <= i < j < |at| ==> at[i] < at[j])
    && (forall k: nat :: k < n && IsReady(steps, k) ==> k in at)
  }

  method ReadySteps(steps: seq<Step>) returns (out: seq<Step>, ghost at: seq<nat>)
    ensures ReadyListed(steps, |steps|, out, at)
    ensures forall s :: s in out <==> exists k: nat :: IsReady(steps, k) && steps[k] == s
  {
    hide IsReady;
    out, at := [], [];
    for k := 0 to |steps|
      invariant ReadyListed(steps, k, out, at)
    {
      var ready := StepIsReady(steps, k);
      if ready {
        out, at := out + [steps[k]], at + [k];
      }
    }
    ListedAreReady(steps, out, at);
  }

  lemma ListedAreReady(steps: seq<Step>, out: seq<Step>, at: seq<nat>)
    requires ReadyListed(steps, |steps|, out, at)
    ensures forall s :: s in out <==> exists k: nat :: IsReady(steps, k) && steps[k] == s
  {
    forall s | s in out ensures exists k: nat :: IsReady(steps, k) && steps[k] == s {
      var i :| 0 <= i < |out| && out[i] == s;
      assert IsReady(steps, at[i]) && steps[at[i]] == s;
    }
    forall k: nat | IsReady(steps, k) ensures steps[k] in out {
      var i :| 0 <= i < |at| && at[i] == k;
      assert out[i] == steps[k];
    }
  }

  method StepIsReady(steps: seq<Step>, k: nat) returns (ready: bool)
    requires k < |steps|
    ensures ready <==> IsReady(steps, k)
  {
    if !steps[k].status.StepPending? {
      return false;
    }
    ready := true;
    var deps := steps[k].deps;
    for d := 0 to |deps|
      invariant ready <==>
                forall e, j :: 0 <= e < d && 0 <= j < |steps| && steps[j].id == deps[e] ==> steps[j].status.StepPassed?
    {
      for j := 0 to |steps|
        invariant ready <==>
          && (forall e, i :: 0 <= e < d && 0 <= i < |steps| && steps[i].id == deps[e] ==> steps[i].status.StepPassed?)
          && (forall i :: 0 <= i < j && steps[i].id == deps[d] ==> steps[i].status.StepPassed?)
      {
        if steps[j].id == deps[d] && !steps[j].status.StepPassed? {
          ready := false;
        }
      }
    }
  }

  // ---------------------------------------------------------------------- marking

  function Marked(steps: seq<Step>, id: string, status: StepStatus): (r: seq<Step>)
    ensures |r| == |steps|
    ensures forall k :: 0 <= k < |steps| ==> r[k] == if steps[k].id == id then steps[k].(status := status) else steps[k]
  {
    seq(|steps|, k requires 0 <= k < |steps| => if steps[k].id == id then steps[k].(status := status) else steps[k])
  }

  // --------------------------------------------------------------- what a run keeps

  predicate Distinguished(steps: seq<Step>) {
    forall i, j :: 0 <= i < j < |steps| ==> steps[i].id != steps[j].id
  }

  /** From `s0`, some pending steps have become passed and nothing else has changed. */
  predicate Evolves(s0: seq<Step>, s: seq<Step>) {
    && |s| == |s0|
    && forall k :: 0 <= k < |s0| ==>
        s[k] == s0[k] || (s0[k].status.StepPending? && s[k] == s0[k].(status := StepPassed))
  }

  /** Every passed step has passed dependencies only. */
  ghost predicate PassedClosed(steps: seq<Step>) {
    forall k :: 0 <= k < |steps| && steps[k].status.StepPassed? ==> DepsPassed(steps, k)
  }

  /** The steps of a run that may be (re)started without loss. */
  predicate Resumable(steps: seq<Step>) {
    forall k :: 0 <= k < |steps| ==> steps[k].status.StepPending? || steps[k].status.StepPassed?
  }

  predicate AllPassed(steps: seq<Step>) {
    forall k :: 0 <= k < |steps| ==> steps[k].status.StepPassed?
  }

  lemma EvolvesVertices(s0: seq<Step>, s: seq<Step>)
    requires Evolves(s0, s)
    ensures Vertices(s) == Vertices(s0)
  {
  }

  lemma PassOne(s0: seq<Step>, s: seq<Step>, k: nat)
    requires Evolves(s0, s) && Distinguished(s) && IsReady(s, k)
    ensures Evolves(s0, Marked(s, s[k].id, StepPassed))
    ensures PassedClosed(s) ==> PassedClosed(Marked(s, s[k].id, StepPassed))
    ensures forall i: nat :: IsReady(s, i) && i != k ==> IsReady(Marked(s, s[k].id, StepPassed), i)
  {
    var t := Marked(s, s[k].id, StepPassed);
    forall i | 0 <= i < |s| && i != k ensures t[i] == s[i] {
      assert s[i].id != s[k].id;
    }
    forall i: nat | i < |s| && DepsPassed(s, i) ensures DepsPassed(t, i) {
      assert t[i].deps == s[i].deps;
    }
  }

  /** Marking one ready step failed leaves exactly that failure and keeps the passed set. */
  lemma FailOne(s: seq<Step>, k: nat)
    requires Distinguished(s) && IsReady(s, k)
    ensures var t := Marked(s, s[k].id, StepFailed);
            && t[k].status.StepFailed? && (forall i :: 0 <= i < |s| && i != k ==> t[i] == s[i])
            && (PassedClosed(s) ==> PassedClosed(t))
  {
    var t := Marked(s, s[k].id, StepFailed);
    forall i | 0 <= i < |s| && i != k ensures t[i] == s[i] {
      assert s[i].id != s[k].id;
    }
    forall i | 0 <= i < |s| && t[i].status.StepPassed? && PassedClosed(s) ensures DepsPassed(t, i) {
      assert DepsPassed(s, i);
    }
  }

  /** When nothing is ready any more, everything has passed, exactly if the run was started
      from pending and passed steps only. (A failed, running or skipped step is never touched,
      and what depends on it stays pending.)
   */
  lemma NothingReadyMeans(s0: seq<Step>, s: seq<Step>)
    requires ValidSteps(s) && Evolves(s0, s) && forall k :: !IsReady(s, k)
    ensures AllPassed(s) <==> Resumable(s0)
  {
    hide EdgesOf, Workable;
    if Resumable(s0) {
      if k :| 0 <= k < |s| && s[k].status.StepPending? {
        var b := SomethingReady(s, k);
        assert false;
      }
    }
  }

  /** As long as a step is pending and none has gone wrong, some step is ready. */
  lemma SomethingReady(s: seq<Step>, k: nat) returns (b: nat)
    requires ValidSteps(s) && Resumable(s) && k < |s| && s[k].status.StepPending?
    ensures IsReady(s, b)
  {
    hide EdgesOf, Workable;
    var pending := set i: nat | i < |s| && s[i].status.StepPending?;
    assert k in pending;
    b := BottomVertex(Vertices(s), pending);
    forall j | 0 <= j < |s| && s[j].id in s[b].deps ensures s[j].status.StepPassed? {
      assert Vertices(s)[j].id == s[j].id;
      assert j !in pending;
    }
  }

  // ------------------------------------------------------------------ the manager

  datatype RunStatus = Planned | Allocating | Ready | Failed | CancelRequested | Cancelled | OtherStatus(text: string)

  datatype Run = Run(
    id: string,
    status: RunStatus,
    runtimeID: string,
    steps: seq<Step>,
    lastSuccessful: string,
    cancelRequested: bool)

  datatype ProvisionError =
    | NotFound | InvalidGraph | WasCancelled | SaveFailed | NoRuntime | CreateFailed
    | StepFailedAt(step: string) | CancelledNow

  /** The commands the manager knows. */
  const SUPPORTED: set<string> :=
    {"configure", "system", "language", "framework", "tools", "agents", "browser", "project", "verify"}

  /** One execution: the steps as they were just before, the position of the step, and the
      runtime it was executed in.
   */
  datatype Attempt = Attempt(before: seq<Step>, k: nat, runtime: string)

  /** The executions so far each ran a step that was ready, and all of them have passed. */
  ghost predicate LogOk(s0: seq<Step>, s: seq<Step>, log: seq<Attempt>) {
    && (forall i :: 0 <= i < |log| ==> Evolves(s0, log[i].before) && IsReady(log[i].before, log[i].k))
    && (forall i :: 0 <= i < |log| ==> log[i].k < |s| && s[log[i].k].status.StepPassed?)
    && (forall i, j :: 0 <= i < j < |log| ==> log[i].k < |log[j].before| && log[j].before[log[i].k].status.StepPassed?)
  }

  /** Every state of the work that reaches the store can be resumed from. */
  ghost predicate SavesOk(s0: seq<Step>, saved: seq<Run>) {
    forall i :: 0 <= i < |saved| ==> Evolves(s0, saved[i].steps) && (PassedClosed(s0) ==> PassedClosed(saved[i].steps))
  }

  /** The executions each ran a step that was ready, with all earlier ones passed. */
  ghost predicate LogReady(s0: seq<Step>, log: seq<Attempt>) {
    && (forall i :: 0 <= i < |log| ==> Evolves(s0, log[i].before) && IsReady(log[i].before, log[i].k))
    && (forall i, j :: 0 <= i < j < |log| ==> log[i].k < |log[j].before| && log[j].before[log[i].k].status.StepPassed?)
  }

  lemma LogIsReady(s0: seq<Step>, s: seq<Step>, k: nat, log: seq<Attempt>, rt: string)
    requires LogOk(s0, s, log)
    ensures LogReady(s0, log)
    ensures Evolves(s0, s) && IsReady(s, k) ==> LogReady(s0, log + [Attempt(s, k, rt)])
  {
    hide Evolves, IsReady;
  }

  /** No step is executed twice, none that had passed before the run, and none before all
      its dependencies have passed.
   */
  lemma ExecutedOnce(s0: seq<Step>, log: seq<Attempt>)
    requires LogReady(s0, log)
    ensures forall i, j :: 0 <= i < j < |log| ==> log[i].k != log[j].k
    ensures forall i :: 0 <= i < |log| ==> log[i].k < |s0| && s0[log[i].k].status.StepPending?
    ensures forall i, j :: 0 <= i < |log| && 0 <= j < |s0| && s0[j].id in s0[log[i].k].deps ==>
              log[i].before[j].status.StepPassed?
  {
    forall i | 0 <= i < |log|
      ensures log[i].k < |s0| && s0[log[i].k].status.StepPending?
      ensures forall j :: 0 <= j < |s0| && s0[j].id in s0[log[i].k].deps ==> log[i].before[j].status.StepPassed?
    {
      assert IsReady(log[i].before, log[i].k) && Evolves(s0, log[i].before);
      assert DepsPassed(log[i].before, log[i].k);
    }
    forall i, j | 0 <= i < j < |log| ensures log[i].k != log[j].k {
      assert IsReady(log[j].before, log[j].k);
    }
  }

  /** The steps of a run in which the execution of a ready step failed. */
  ghost predicate FailedOnce(s0: seq<Step>, t: seq<Step>) {
    exists s: seq<Step>, k: nat :: FailedFrom(s0, s, k, t)
  }

  ghost predicate FailedFrom(s0: seq<Step>, s: seq<Step>, k: nat, t: seq<Step>) {
    Evolves(s0, s) && IsReady(s, k) && (PassedClosed(s0) ==> PassedClosed(s)) && t == Marked(s, s[k].id, StepFailed)
  }

  /** A failure leaves exactly one failed step, and a passed set closed under dependencies. */
  lemma FailureLeaves(s0: seq<Step>, t: seq<Step>)
    requires FailedOnce(s0, t) && Distinguished(s0) && Resumable(s0) && PassedClosed(s0)
    ensures PassedClosed(t)
    ensures exists k :: 0 <= k < |t| && t[k].status.StepFailed? &&
              forall i :: 0 <= i < |t| && i != k ==> t[i].status.StepPending? || t[i].status.StepPassed?
  {
    var s: seq<Step>, k: nat :| FailedFrom(s0, s, k, t);
    assert Distinguished(s) by {
      assert forall i :: 0 <= i < |s| ==> s[i].id == s0[i].id;
    }
    FailOne(s, k);
    assert t[k].status.StepFailed?;
  }

  lemma LogGrows(s0: seq<Step>, s: seq<Step>, k: nat, rt: string, log: seq<Attempt>, log': seq<Attempt>, log0: nat)
    requires Evolves(s0, s) && Distinguished(s) && IsReady(s, k) && log0 <= |log| && LogOk(s0, s, log[log0..])
    requires log' == log || log' == log + [Attempt(s, k, rt)]
    ensures LogReady(s0, log'[log0..]) && LogOk(s0, Marked(s, s[k].id, StepPassed), log'[log0..])
  {
    hide LogOk, LogReady, Evolves, Marked, Distinguished, IsReady;
    assert (log + [Attempt(s, k, rt)])[log0..] == log[log0..] + [Attempt(s, k, rt)];
    LogIsReady(s0, s, k, log[log0..], rt);
    LogPassed(s0, s, k, log[log0..], rt);
  }

  lemma LogPassed(s0: seq<Step>, s: seq<Step>, k: nat, log: seq<Attempt>, rt: string)
    requires LogOk(s0, s, log) && Evolves(s0, s) && Distinguished(s) && IsReady(s, k)
    ensures LogOk(s0, Marked(s, s[k].id, StepPassed), log)
    ensures LogOk(s0, Marked(s, s[k].id, StepPassed), log + [Attempt(s, k, rt)])
  {
    var t := Marked(s, s[k].id, StepPassed);
    forall i | 0 <= i < |log| ensures t[log[i].k].status.StepPassed? {
      assert s[log[i].k].status.StepPassed?;
    }
  }

  function PendingIn(steps: seq<Step>): set<nat> {
    set k: nat | k < |steps| && steps[k].status.StepPending?
  }

  lemma PendingShrinks(s: seq<Step>, k: nat)
    requires k < |s| && s[k].status.StepPending?
    ensures |PendingIn(Marked(s, s[k].id, StepPassed))| < |PendingIn(s)|
  {
    assert k in PendingIn(s) && k !in PendingIn(Marked(s, s[k].id, StepPassed));
    SubsetCount(PendingIn(Marked(s, s[k].id, StepPassed)), PendingIn(s));
  }

  /** `b` has the steps of `a`, and all that had passed still has. */
  predicate Keeps(a: seq<Step>, b: seq<Step>) {
    |a| == |b| && forall k :: 0 <= k < |a| ==>
        b[k].id == a[k].id && (a[k].status.StepPassed? ==> b[k].status.StepPassed?)
  }

  ghost predicate AheadOf(saved: seq<Run>, id: string, steps: seq<Step>) {
    forall i :: 0 <= i < |saved| && saved[i].id == id ==> Keeps(saved[i].steps, steps)
  }

  /** A snapshot of the run has a runtime. */
  ghost predicate HasRuntime(saved: seq<Run>, id: string) {
    exists i :: 0 <= i < |saved| && saved[i].id == id && saved[i].runtimeID != ""
  }

  /** The run's snapshots that have a runtime have this one. */
  ghost predicate InRuntime(saved: seq<Run>, id: string, rt: string) {
    forall i :: 0 <= i < |saved| && saved[i].id == id && saved[i].runtimeID != "" ==> saved[i].runtimeID == rt
  }

  /** Every snapshot of the run has passed whatever an earlier one has, and keeps its runtime. */
  ghost predicate Monotone(saved: seq<Run>, id: string) {
    forall i, j :: 0 <= i < j < |saved| && saved[i].id == id && saved[j].id == id ==>
      && Keeps(saved[i].steps, saved[j].steps)
      && (saved[i].runtimeID != "" ==> saved[j].runtimeID == saved[i].runtimeID)
  }

  /** The store after it took the snapshots one after the other. */
  function Replay(stored: map<string, Run>, saved: seq<Run>): map<string, Run> {
    if saved == [] then stored else Replay(stored, saved[..|saved| - 1])[saved[|saved| - 1].id := saved[|saved| - 1]]
  }

  lemma ReplayOne(stored: map<string, Run>, saved: seq<Run>, run: Run)
    ensures Replay(stored, saved + [run]) == Replay(stored, saved)[run.id := run]
  {
    assert (saved + [run])[..|saved|] == saved;
  }

  /** The snapshots from number `n` on and the executions from `l` on belong to one stretch of
      work: they have the run's id, status, runtime and cancellation flag.
   */
  ghost predicate InLine(run: Run, saved: seq<Run>, n: nat, log: seq<Attempt>, l: nat) {
    && (forall i :: n <= i < |saved| ==>
         && saved[i].id == run.id && saved[i].status == run.status && saved[i].runtimeID == run.runtimeID
         && saved[i].cancelRequested == run.cancelRequested)
    && forall a :: l <= a < |log| ==> log[a].runtime == run.runtimeID
  }

  lemma InLineThen(run: Run, run': Run, saved: seq<Run>, n: nat, log: seq<Attempt>, l: nat, saved': seq<Run>,
          log': seq<Attempt>)
    requires n <= |saved| && l <= |log| && saved <= saved' && log <= log' && InLine(run, saved, n, log, l)
    requires run' == run.(steps := run'.steps, lastSuccessful := run'.lastSuccessful)
    requires InLine(run', saved', |saved|, log', |log|)
    ensures InLine(run, saved', n, log', l) && InLine(run', saved', n, log', l)
  {
  }

  /** What a call that works on the record `r` leaves besides the steps: the run is `r` with the
      runtime `rt` and the status of its outcome; the snapshots from number `n` on and the
      executions from `l` on are the run's and in that runtime, but for a first snapshot that
      was saved before the runtime was made; only the last one can have the final status.
   */
  ghost predicate Leaves(r: Run, run: Run, err: Option<ProvisionError>, rt: string, made: bool, saved: seq<Run>, n: nat,
          log: seq<Attempt>, l: nat)
  {
    && run == r.(status := run.status, runtimeID := rt, steps := run.steps, lastSuccessful := run.lastSuccessful)
    && (err.None? ==> run.status == Ready && LastStep(r.steps, r.lastSuccessful, run.steps, run.lastSuccessful))
    && (err == Some(CancelledNow) ==> run.status == Cancelled)
    && (err.Some? && (err.value.NoRuntime? || err.value.CreateFailed? || err.value.StepFailedAt?) ==>
         run.status == Failed)
    && (forall i :: n <= i < |saved| ==>
         && saved[i].id == r.id && saved[i].cancelRequested == r.cancelRequested
         && (saved[i].runtimeID == rt || (i == n && made && saved[i].runtimeID == ""))
         && (saved[i].status == Allocating || (i == |saved| - 1 && saved[i] == run)))
    && (forall a :: l <= a < |log| ==> log[a].runtime == rt)
  }

  /** From the three stretches of a call: its beginning, its work `b`, and its end. */
  lemma LeavesAll(r: Run, b: Run, w: Run, run: Run, err: Option<ProvisionError>, rt: string, made: bool, n: nat,
          l: nat, saved1: seq<Run>, saved2: seq<Run>, log2: seq<Attempt>, saved3: seq<Run>)
    requires b == r.(status := Allocating, runtimeID := rt) && n <= |saved1| && saved1 <= saved2 && l <= |log2|
    requires made ==> r.runtimeID == ""
    requires forall i :: n <= i < |saved1| ==>
               saved1[i] == b || (i == n && made && saved1[i] == r.(status := Allocating))
    requires w == b.(steps := w.steps, lastSuccessful := w.lastSuccessful) && InLine(b, saved2, |saved1|, log2, l)
    requires run == w.(status := run.status) && (saved3 == saved2 || saved3 == saved2 + [run])
    requires err.None? ==> run.status == Ready && LastStep(r.steps, r.lastSuccessful, w.steps, w.lastSuccessful)
    requires err == Some(CancelledNow) ==> run.status == Cancelled
    requires err.Some? && (err.value.NoRuntime? || err.value.CreateFailed? || err.value.StepFailedAt?) ==>
               run.status == Failed
    ensures Leaves(r, run, err, rt, made, saved3, n, log2, l)
  {
    hide LastStep;
  }

  lemma InLineNone(run: Run, saved: seq<Run>, log: seq<Attempt>)
    ensures InLine(run, saved, |saved|, log, |log|)
  {
  }

  /** `l` names the step that passed last: if any has passed since `s0`, one of these. */
  ghost predicate LastStep(s0: seq<Step>, l0: string, s: seq<Step>, l: string) {
    if s == s0 then l == l0
    else exists k :: 0 <= k < |s| && k < |s0| && s[k].id == l && s0[k].status.StepPending? && s[k].status.StepPassed?
  }

  lemma LastStepOne(s0: seq<Step>, l0: string, s: seq<Step>, k: nat)
    requires Evolves(s0, s) && IsReady(s, k)
    ensures k < |s| && LastStep(s0, l0, Marked(s, s[k].id, StepPassed), s[k].id)
  {
    var t := Marked(s, s[k].id, StepPassed);
    assert t[k].status.StepPassed? && s0[k].status.StepPending?;
  }

  /** What the store knows of a run after any number of its snapshots is ahead of all of these. */
  lemma {:induction false} ReplayAhead(stored: map<string, Run>, saved: seq<Run>, id: string)
    requires Monotone(saved, id) && (id in stored ==> stored[id].id == id)
    ensures var now := Replay(stored, saved);
            id in now ==>
              now[id].id == id && AheadOf(saved, id, now[id].steps) && InRuntime(saved, id, now[id].runtimeID)
  {
    if saved != [] {
      var n := |saved| - 1;
      assert forall i :: 0 <= i < n ==> saved[..n][i] == saved[i];
      ReplayAhead(stored, saved[..n], id);
    }
  }

  lemma MonotonePrefix(saved: seq<Run>, n: nat, id: string)
    requires Monotone(saved, id) && n <= |saved|
    ensures Monotone(saved[..n], id)
  {
    assert forall i :: 0 <= i < n ==> saved[..n][i] == saved[i];
  }

  lemma MonotoneOne(saved: seq<Run>, run: Run)
    requires Monotone(saved, run.id) && AheadOf(saved, run.id, run.steps) && InRuntime(saved, run.id, run.runtimeID)
    ensures Monotone(saved + [run], run.id) && AheadOf(saved + [run], run.id, run.steps)
    ensures InRuntime(saved + [run], run.id, run.runtimeID)
  {
    hide Keeps;
    assert Keeps(run.steps, run.steps) by { KeepsItself(run.steps); }
  }

  lemma KeepsItself(steps: seq<Step>)
    ensures Keeps(steps, steps)
  {
  }

  /** No execution from number `from` on ran a step that a snapshot of the run has passed. */
  ghost predicate NotAgain(saved: seq<Run>, id: string, log: seq<Attempt>, from: nat) {
    forall i, a :: 0 <= i < |saved| && saved[i].id == id && from <= a < |log| ==>
      log[a].k < |saved[i].steps| && !saved[i].steps[log[a].k].status.StepPassed?
  }

  lemma NeverAgain(saved: seq<Run>, id: string, s0: seq<Step>, log: seq<Attempt>, from: nat)
    requires AheadOf(saved, id, s0) && from <= |log| && LogReady(s0, log[from..])
    ensures NotAgain(saved, id, log, from)
  {
    var mine := log[from..];
    ExecutedOnce(s0, mine);
    forall i, a | 0 <= i < |saved| && saved[i].id == id && from <= a < |log|
      ensures log[a].k < |saved[i].steps| && !saved[i].steps[log[a].k].status.StepPassed?
    {
      assert mine[a - from] == log[a];
      assert Keeps(saved[i].steps, s0);
    }
  }

  lemma NotAgainBefore(saved: seq<Run>, id: string, log: seq<Attempt>, from: nat, to: nat)
    requires NotAgain(saved, id, log, from) && from <= to <= |log|
    ensures NotAgain(saved, id, log[..to], from)
  {
  }

  lemma ReadyBefore(log: seq<Attempt>, from: nat, to: nat)
    requires from <= to <= |log|
    ensures forall s0 :: LogReady(s0, log[from..]) ==> LogReady(s0, log[..to][from..])
  {
    hide Evolves, IsReady;
    assert forall i :: 0 <= i < to - from ==> log[..to][from..][i] == log[from..][i];
  }

  /** The snapshots, executions and runtime creations before a life begins. */
  datatype Birth = Birth(snapshots: nat, executions: nat, creations: nat)

  /** Nothing executed since then had been passed by one of those snapshots, and no runtime has
      been created since if one of them has one.
   */
  ghost predicate LifeOk(start: Birth, saved: seq<Run>, id: string, log: seq<Attempt>, creates: nat) {
    && start.snapshots <= |saved| && start.executions <= |log|
    && NotAgain(saved[..start.snapshots], id, log, start.executions)
    && (HasRuntime(saved[..start.snapshots], id) ==> creates == start.creations)
  }

  /** One life more: what all lives have in common. */
  lemma LivesOn(starts: seq<Birth>, before: seq<Run>, saved: seq<Run>, id: string,
                done: seq<Attempt>, log: seq<Attempt>, created: nat, creates: nat)
    requires starts != [] && starts[|starts| - 1] == Birth(|before|, |done|, created)
    requires before <= saved && done <= log
    requires forall i :: 0 <= i < |starts| - 1 ==> LifeOk(starts[i], before, id, done, created)
    requires NotAgain(before, id, log, |done|) && (HasRuntime(before, id) ==> creates == created)
    ensures forall i :: 0 <= i < |starts| ==> LifeOk(starts[i], saved, id, log, creates)
  {
    assert saved[..|before|] == before;
    forall i | 0 <= i < |starts| - 1 ensures LifeOk(starts[i], saved, id, log, creates) {
      LifeGoesOn(starts[i], before, saved, id, done, log, created, creates);
    }
  }

  lemma LifeGoesOn(start: Birth, before: seq<Run>, saved: seq<Run>, id: string,
                   done: seq<Attempt>, log: seq<Attempt>, created: nat, creates: nat)
    requires before <= saved && done <= log && LifeOk(start, before, id, done, created)
    requires NotAgain(before, id, log, |done|) && (HasRuntime(before, id) ==> creates == created)
    ensures LifeOk(start, saved, id, log, creates)
  {
    var (n, from) := (start.snapshots, start.executions);
    assert saved[..n] == before[..n];
    forall j, a | 0 <= j < n && saved[..n][j].id == id && from <= a < |log|
      ensures log[a].k < |saved[..n][j].steps| && !saved[..n][j].steps[log[a].k].status.StepPassed?
    {
      if a < |done| {
        assert log[a] == done[a];
      } else {
        assert before[j].id == id;
      }
    }
    if HasRuntime(before[..n], id) {
      var j :| 0 <= j < n && before[..n][j].id == id && before[..n][j].runtimeID != "";
      assert before[j].id == id && before[j].runtimeID != "";
    }
  }

  lemma NoneAgain(saved: seq<Run>, id: string, log: seq<Attempt>)
    ensures NotAgain(saved, id, log, |log|)
  {
  }

  ghost predicate FailsAt(steps: seq<Step>, id: string) {
    exists k: nat :: k < |steps| && steps[k].id == id && steps[k].status.StepFailed?
  }

  lemma KeepsMarked(a: seq<Step>, s: seq<Step>, k: nat, status: StepStatus)
    requires Keeps(a, s) && Distinguished(s) && IsReady(s, k)
    ensures Keeps(a, Marked(s, s[k].id, status))
  {
    forall i | 0 <= i < |s| && i != k ensures s[i].id != s[k].id {
    }
  }

  class Manager {
    const hasRuntime: bool
    const hasStore: bool
    const saveOk: nat -> bool           // answers of the store, call by call
    const tookIt: nat -> bool           // whether it took a save that it reports as failed
    const loadOk: nat -> bool
    const created: nat -> Option<string>
    const execOk: nat -> bool
    var saves: nat
    var loads: nat
    var creates: nat
    var execs: nat
    var runs: map<string, Run>          // in memory
    const origin: map<string, Run>      // in the store at the beginning
    var stored: map<string, Run>        // in the store
    var saved: seq<Run>                 // every snapshot that reached the store
    ghost var log: seq<Attempt>         // every execution

    constructor (hasRuntime: bool, hasStore: bool, saveOk: nat -> bool, tookIt: nat -> bool,
                 loadOk: nat -> bool, created: nat -> Option<string>, execOk: nat -> bool, stored: map<string, Run>)
      ensures this.hasRuntime == hasRuntime && this.hasStore == hasStore && this.stored == stored && runs == map[]
      ensures origin == stored
      ensures saved == [] && log == [] && saves == 0 && loads == 0 && creates == 0 && execs == 0
      ensures this.saveOk == saveOk && this.tookIt == tookIt && this.loadOk == loadOk
      ensures this.created == created && this.execOk == execOk
    {
      this.hasRuntime, this.hasStore, this.saveOk, this.tookIt := hasRuntime, hasStore, saveOk, tookIt;
      this.loadOk := loadOk;
      this.created, this.execOk, this.stored, this.origin := created, execOk, stored, stored;
      saves, loads, creates, execs, runs, saved, log := 0, 0, 0, 0, map[], [], [];
    }

    // What the answers of the environment account for.

    ghost predicate SavesWorked(from: nat, to: nat) {
      hasStore ==> forall n: nat :: from <= n < to ==> saveOk(n)
    }

    ghost predicate ExecsWorked(from: nat, to: nat) {
      forall n: nat :: from <= n < to ==> execOk(n)
    }

    /** `err` is what the saves `s0` to `s1` and the commands `e0` to `e1` lead to: none if all
        worked, and otherwise the failure of the last save or of the last command.
     */
    ghost predicate Explained(err: Option<ProvisionError>, s0: nat, s1: nat, e0: nat, e1: nat) {
      && s0 <= s1 && e0 <= e1
      && if err == Some(SaveFailed) then
           hasStore && s1 > s0 && !saveOk(s1 - 1) && SavesWorked(s0, s1 - 1) && ExecsWorked(e0, e1)
         else if err.Some? && err.value.StepFailedAt? then
           SavesWorked(s0, s1) && err.value.step != "runtime" &&
           if err.value.step in SUPPORTED then e1 > e0 && !execOk(e1 - 1) && ExecsWorked(e0, e1 - 1)
           else ExecsWorked(e0, e1)
         else SavesWorked(s0, s1) && ExecsWorked(e0, e1)
    }

    lemma ExplainedThen(err: Option<ProvisionError>, s0: nat, s1: nat, s2: nat, e0: nat, e1: nat, e2: nat)
      requires Explained(None, s0, s1, e0, e1) && Explained(err, s1, s2, e1, e2)
      ensures Explained(err, s0, s2, e0, e2)
    {
    }

    /** `Begin` works on `r`, from save `s` and runtime creation `c` on. */
    ghost predicate Begins(r: Run, s: nat, c: nat) {
      && hasRuntime && (r.runtimeID == "" ==> created(c).Some?)
      && SavesWorked(s, s + if r.runtimeID == "" then 2 else 1)
    }

    // What a crash does not undo.

    /** `steps` has passed whatever a saved snapshot of the run has passed. */
    ghost predicate Ahead(id: string, steps: seq<Step>)
      reads this`saved
    {
      AheadOf(saved, id, steps)
    }

    /** The run's snapshots that have a runtime have this one. */
    ghost predicate Inhabits(id: string, rt: string)
      reads this`saved
    {
      InRuntime(saved, id, rt)
    }

    lemma NoRuntimeYet(id: string, rt: string)
      ensures Inhabits(id, "") ==> Inhabits(id, rt)
    {
    }

    /** The store holds what was saved. The records of a run are filed under its id and are ahead
        of all its saved snapshots, and each of these is ahead of the earlier ones.
     */
    ghost predicate Remembers(id: string)
      reads this`saved, this`stored, this`runs
    {
      && stored == Replay(origin, saved) && Monotone(saved, id) && (id in origin ==> origin[id].id == id)
      && (id in stored ==> stored[id].id == id && Ahead(id, stored[id].steps) && Inhabits(id, stored[id].runtimeID))
      && (id in runs ==> runs[id].id == id && Ahead(id, runs[id].steps) && Inhabits(id, runs[id].runtimeID))
    }

    ghost predicate Tracks(run: Run)
      reads this`saved, this`stored, this`runs
    {
      Remembers(run.id) && Ahead(run.id, run.steps) && Inhabits(run.id, run.runtimeID)
    }

    /** The process dies, not necessarily between two calls: it comes back with nothing in memory
        and the store as it was when `n` snapshots had been saved, `ran` executions being done.
     */
    method Crash(n: nat, ghost ran: nat)
      requires n <= |saved| && ran <= |log|
      modifies this`runs, this`stored, this`saved, this`log
      ensures runs == map[] && saved == old(saved)[..n] && stored == Replay(origin, saved) && log == old(log)[..ran]
      ensures forall id :: old(Remembers(id)) ==> Remembers(id)
    {
      hide Replay, Keeps;
      ghost var before := saved;
      runs, saved := map[], saved[..n];
      stored := Replay(origin, saved);
      log := log[..ran];
      forall id | old(Remembers(id)) ensures Remembers(id) {
        assert Monotone(before, id);
        MonotonePrefix(before, n, id);
        ReplayAhead(origin, saved, id);
      }
    }

    /** What `get` answers. */
    ghost function Current(id: string): Option<Run>
      reads this`loads, this`stored, this`runs
    {
      if hasStore && loadOk(loads) && id in stored then Some(stored[id])
      else if id in runs then Some(runs[id])
      else None
    }

    method Get(id: string) returns (r: Option<Run>)
      modifies this`runs, this`loads
      ensures r == old(Current(id))
      ensures runs == if hasStore && loadOk(old(loads)) && id in stored then old(runs)[id := stored[id]] else old(runs)
      ensures old(Remembers(id)) ==> Remembers(id) && (r.Some? ==> r.value.id == id && Tracks(r.value))
    {
      var ok := loadOk(loads);
      loads := loads + 1;
      if hasStore && ok && id in stored {
        runs := runs[id := stored[id]];
        return Some(stored[id]);
      }
      return if id in runs then Some(runs[id]) else None;
    }

    method Save(run: Run) returns (ok: bool)
      modifies this`runs, this`stored, this`saves, this`saved
      ensures runs == old(runs)[run.id := run]
      ensures var took := hasStore && (ok || tookIt(old(saves)));
              && stored == (if took then old(stored)[run.id := run] else old(stored))
              && saved == old(saved) + if took then [run] else []
      ensures ok <==> SavesWorked(old(saves), saves)
      ensures saves == if hasStore then old(saves) + 1 else old(saves)
      ensures old(Tracks(run)) ==> Tracks(run)
    {
      hide Replay, Keeps;
      runs := runs[run.id := run];
      if !hasStore {
        return true;
      }
      ok := saveOk(saves);
      var took := ok || tookIt(saves);
      saves := saves + 1;
      if took {
        ReplayOne(origin, saved, run);
        if old(Tracks(run)) {
          MonotoneOne(saved, run);
        }
        stored := stored[run.id := run];
        saved := saved + [run];
      }
    }

    method ExecuteStep(step: Step) returns (ok: bool)
      modifies this`execs
      ensures step.id == "runtime" ==> ok
      ensures step.id != "runtime" && step.id !in SUPPORTED ==> !ok
      ensures step.id in SUPPORTED ==> ok == execOk(old(execs))
      ensures execs == if step.id in SUPPORTED then old(execs) + 1 else old(execs)
    {
      if step.id == "runtime" {
        return true;
      }
      var known := step.id == "configure" || step.id == "system" || step.id == "language" || step.id == "framework"
        || step.id == "tools" || step.id == "agents" || step.id == "browser" || step.id == "project"
        || step.id == "verify";
      if !known {
        return false;
      }
      ok := execOk(execs);
      execs := execs + 1;
    }

    method Mark(steps: seq<Step>, id: string, status: StepStatus) returns (r: seq<Step>)
      ensures r == Marked(steps, id, status)
    {
      r := steps;
      for i := 0 to |steps|
        invariant |r| == |steps| && r[i..] == steps[i..]
        invariant forall k :: 0 <= k < i ==> r[k] == Marked(steps, id, status)[k]
      {
        assert r[i] == steps[i];
        if r[i].id == id {
          r := r[i := r[i].(status := status)];
        }
      }
    }

    lemma AheadMarked(id: string, s: seq<Step>, k: nat, status: StepStatus)
      requires Distinguished(s) && IsReady(s, k)
      ensures Ahead(id, s) ==> Ahead(id, Marked(s, s[k].id, status))
    {
      hide Distinguished, Marked, Keeps, DepsPassed;
      if Ahead(id, s) {
        forall i | 0 <= i < |saved| && saved[i].id == id ensures Keeps(saved[i].steps, Marked(s, s[k].id, status)) {
          KeepsMarked(saved[i].steps, s, k, status);
        }
      }
    }

    /** Marking a ready step keeps what is required of the steps of a run. */
    lemma StepKeeps(run: Run, s0: seq<Step>, k: nat)
      requires Evolves(s0, run.steps) && Distinguished(run.steps) && IsReady(run.steps, k)
      requires PassedClosed(s0) ==> PassedClosed(run.steps)
      ensures k < |run.steps| && Evolves(s0, Marked(run.steps, run.steps[k].id, StepPassed))
      ensures PassedClosed(s0) ==> PassedClosed(Marked(run.steps, run.steps[k].id, StepPassed))
      ensures Tracks(run) ==>
                && Ahead(run.id, Marked(run.steps, run.steps[k].id, StepPassed))
                && Ahead(run.id, Marked(run.steps, run.steps[k].id, StepFailed))
    {
      hide Evolves, Marked, PassedClosed, Distinguished, Remembers, Ahead, DepsPassed;
      PassOne(s0, run.steps, k);
      AheadMarked(run.id, run.steps, k, StepPassed);
      AheadMarked(run.id, run.steps, k, StepFailed);
    }

    /** The command of one ready step, and the mark it leaves. */
    method TryStep(steps: seq<Step>, step: Step, runtimeID: string, ghost k: nat) returns (steps': seq<Step>, ok: bool)
      modifies this`execs, this`log
      ensures steps' == Marked(steps, step.id, if ok then StepPassed else StepFailed)
      ensures log == old(log) + if step.id == "runtime" then [] else [Attempt(steps, k, runtimeID)]
      ensures !ok ==> step.id != "runtime"
      ensures step.id in SUPPORTED && step.id != "runtime" ==> ok == execOk(old(execs)) && execs == old(execs) + 1
      ensures step.id !in SUPPORTED ==> ok == (step.id == "runtime") && execs == old(execs)
    {
      hide Marked;
      if step.id == "runtime" {
        steps' := Mark(steps, step.id, StepPassed);
        return steps', true;
      }
      steps' := Mark(steps, step.id, StepRunning);
      log := log + [Attempt(steps, k, runtimeID)];
      ok := ExecuteStep(step);
      MarkedTwice(steps, step.id, if ok then StepPassed else StepFailed);
      steps' := Mark(steps', step.id, if ok then StepPassed else StepFailed);
    }

    /** One ready step: passed and saved, or failed. */
    method RunStep(run: Run, step: Step, ghost s0: seq<Step>, ghost k: nat, ghost saved0: nat, ghost log0: nat,
          ghost tracked: bool)
      returns (run': Run, err: Option<ProvisionError>)
      requires Evolves(s0, run.steps) && Distinguished(run.steps) && IsReady(run.steps, k) && run.steps[k] == step
      requires tracked ==> Tracks(run)
      requires log0 <= |log| && LogOk(s0, run.steps, log[log0..])
      requires saved0 <= |saved| && SavesOk(s0, saved[saved0..])
      requires PassedClosed(s0) ==> PassedClosed(run.steps)
      modifies this
      ensures old(saved) <= saved && old(log) <= log
      ensures err.None? || err == Some(SaveFailed) || err == Some(StepFailedAt(step.id))
      ensures !err.Some? || err == Some(SaveFailed) ==>
                run'.(lastSuccessful := run.lastSuccessful) == run.(steps := Marked(run.steps, step.id, StepPassed))
      ensures !err.Some? || err == Some(SaveFailed) ==> run'.lastSuccessful == step.id
      ensures err == Some(StepFailedAt(step.id)) ==> run' == run.(steps := Marked(run.steps, step.id, StepFailed))
      ensures InLine(run', saved, |old(saved)|, log, |old(log)|)
      ensures err == Some(SaveFailed) ==> run'.id in runs && runs[run'.id] == run'
      ensures log0 <= |log| && LogReady(s0, log[log0..])
      ensures err != Some(StepFailedAt(step.id)) ==> LogOk(s0, run'.steps, log[log0..])
      ensures saved0 <= |saved| && SavesOk(s0, saved[saved0..])
      ensures Explained(err, old(saves), saves, old(execs), execs) && creates == old(creates)
      ensures run'.id == run.id && (tracked ==> Tracks(run'))
    {
      hide IsReady, Evolves, Marked, LogOk, LogReady, SavesOk, PassedClosed, Distinguished, Remembers, Ahead, Inhabits;
      StepKeeps(run, s0, k);
      var steps, ok := TryStep(run.steps, step, run.runtimeID, k);
      LogGrows(s0, run.steps, k, run.runtimeID, old(log), log, log0);
      if !ok {
        return run.(steps := steps), Some(StepFailedAt(step.id));
      }
      run' := run.(steps := steps, lastSuccessful := step.id);
      var saveWorked := SaveWork(run', s0, saved0);
      err := if saveWorked then None else Some(SaveFailed);
    }

    /** The steps of one pass, one after the other. */
    method RunReady(run: Run, ready: seq<Step>, ghost at: seq<nat>, ghost s0: seq<Step>, ghost saved0: nat,
            ghost log0: nat, ghost tracked: bool, ghost l0: string)
      returns (run': Run, err: Option<ProvisionError>)
      requires Evolves(s0, run.steps) && Distinguished(run.steps) && ReadyListed(run.steps, |run.steps|, ready, at)
      requires tracked ==> Tracks(run)
      requires log0 <= |log| && LogOk(s0, run.steps, log[log0..])
      requires saved0 <= |saved| && SavesOk(s0, saved[saved0..])
      requires PassedClosed(s0) ==> PassedClosed(run.steps)
      modifies this
      ensures old(saved) <= saved && old(log) <= log
      ensures err.None? || err == Some(SaveFailed) || err.value.StepFailedAt?
      ensures run' == run.(steps := run'.steps, lastSuccessful := run'.lastSuccessful)
      ensures InLine(run, saved, |old(saved)|, log, |old(log)|)
      ensures err == Some(SaveFailed) ==> run'.id in runs && runs[run'.id] == run'
      ensures err.None? && ready != [] ==> LastStep(s0, l0, run'.steps, run'.lastSuccessful)
      ensures err.None? ==>
                Evolves(s0, run'.steps) && Distinguished(run'.steps) && (PassedClosed(s0) ==> PassedClosed(run'.steps))
      ensures err.None? && ready != [] ==> |PendingIn(run'.steps)| < |PendingIn(run.steps)|
      ensures log0 <= |log| && LogReady(s0, log[log0..]) && (err.None? ==> LogOk(s0, run'.steps, log[log0..]))
      ensures err.Some? && err.value.StepFailedAt? ==> FailedOnce(s0, run'.steps) && FailsAt(run'.steps, err.value.step)
      ensures saved0 <= |saved| && SavesOk(s0, saved[saved0..])
      ensures Explained(err, old(saves), saves, old(execs), execs) && creates == old(creates)
      ensures run'.id == run.id && (tracked ==> Tracks(run'))
    {
      hide IsReady, Evolves, Marked, LogOk, LogReady, SavesOk, PassedClosed, Distinguished, PendingIn, FailedFrom;
      hide Remembers, Ahead, Inhabits, Explained, FailsAt, InLine, LastStep;
      NothingToExplain(saves, execs);
      InLineNone(run, saved, log);
      run' := run;
      err := None;
      LogIsReady(s0, run.steps, 0, log[log0..], "");
      for j := 0 to |ready|
        invariant run' == run.(steps := run'.steps, lastSuccessful := run'.lastSuccessful)
        invariant Evolves(s0, run'.steps) && Distinguished(run'.steps)
        invariant (PassedClosed(s0) ==> PassedClosed(run'.steps))
        invariant forall i :: j <= i < |ready| ==>
                  at[i] < |run'.steps| && IsReady(run'.steps, at[i]) && run'.steps[at[i]] == ready[i]
        invariant |PendingIn(run'.steps)| <= |PendingIn(run.steps)| - j && err.None?
        invariant InLine(run, saved, |old(saved)|, log, |old(log)|)
        invariant j > 0 ==> LastStep(s0, l0, run'.steps, run'.lastSuccessful)
        invariant Explained(None, old(saves), saves, old(execs), execs) && creates == old(creates)
        invariant old(saved) <= saved && old(log) <= log
        invariant tracked ==> Tracks(run')
        invariant log0 <= |log| && LogOk(s0, run'.steps, log[log0..]) && LogReady(s0, log[log0..])
        invariant saved0 <= |saved| && SavesOk(s0, saved[saved0..])
      {
        ghost var s := run'.steps;
        ghost var saves1, execs1 := saves, execs;
        ghost var saved1, log1 := saved, log;
        LastStepOne(s0, l0, s, at[j]);
        run', err := RunStep(run', ready[j], s0, at[j], saved0, log0, tracked);
        InLineThen(run, run', saved1, |old(saved)|, log1, |old(log)|, saved, log);
        ExplainedThen(err, old(saves), saves1, saves, old(execs), execs1, execs);
        if err.Some? {
          StepFailure(s0, s, at[j], run'.steps);
          return;
        }
        StepSuccess(s0, s, at[j]);
      }
    }

    /** Passes over the steps until none is ready. */
    method WorkOff(run: Run, ghost s0: seq<Step>, ghost saved0: nat, ghost log0: nat, ghost tracked: bool,
            ghost l0: string)
      returns (run': Run, err: Option<ProvisionError>)
      requires LastStep(s0, l0, run.steps, run.lastSuccessful)
      requires Evolves(s0, run.steps) && Distinguished(run.steps) && (tracked ==> Tracks(run))
      requires log0 <= |log| && LogOk(s0, run.steps, log[log0..])
      requires saved0 <= |saved| && SavesOk(s0, saved[saved0..])
      requires PassedClosed(s0) ==> PassedClosed(run.steps)
      modifies this
      ensures old(saved) <= saved && old(log) <= log
      ensures err.None? || err == Some(SaveFailed) || err == Some(CancelledNow) || err.value.StepFailedAt?
      ensures err == Some(CancelledNow) <==> run.cancelRequested
      ensures run' == run.(steps := run'.steps, lastSuccessful := run'.lastSuccessful)
      ensures InLine(run, saved, |old(saved)|, log, |old(log)|)
      ensures err == Some(SaveFailed) ==> run'.id in runs && runs[run'.id] == run'
      ensures err.None? ==> LastStep(s0, l0, run'.steps, run'.lastSuccessful)
      ensures err.None? ==>
                && Evolves(s0, run'.steps) && (PassedClosed(s0) ==> PassedClosed(run'.steps))
                && NoneReady(run'.steps)
      ensures log0 <= |log| && LogReady(s0, log[log0..])
      ensures err.Some? && err.value.StepFailedAt? ==> FailedOnce(s0, run'.steps) && FailsAt(run'.steps, err.value.step)
      ensures Explained(err, old(saves), saves, old(execs), execs) && creates == old(creates)
      ensures run'.id == run.id && (tracked ==> Tracks(run'))
      ensures err == Some(CancelledNow) ==> Evolves(s0, run'.steps) && (PassedClosed(s0) ==> PassedClosed(run'.steps))
      ensures saved0 <= |saved| && SavesOk(s0, saved[saved0..])
    {
      hide IsReady, Evolves, LogOk, LogReady, SavesOk, PassedClosed, Distinguished, PendingIn, FailedOnce;
      hide Remembers, Ahead, Inhabits, Explained, FailsAt, InLine, LastStep, NoneReady;
      run' := run;
      NothingToExplain(saves, execs);
      InLineNone(run, saved, log);
      LogIsReady(s0, run.steps, 0, log[log0..], "");
      while true
        invariant run' == run.(steps := run'.steps, lastSuccessful := run'.lastSuccessful)
        invariant Evolves(s0, run'.steps) && Distinguished(run'.steps)
        invariant (PassedClosed(s0) ==> PassedClosed(run'.steps))
        invariant log0 <= |log| && LogOk(s0, run'.steps, log[log0..]) && LogReady(s0, log[log0..])
        invariant saved0 <= |saved| && SavesOk(s0, saved[saved0..])
        invariant Explained(None, old(saves), saves, old(execs), execs) && creates == old(creates)
        invariant old(saved) <= saved && old(log) <= log
        invariant tracked ==> Tracks(run')
        invariant InLine(run, saved, |old(saved)|, log, |old(log)|)
        invariant LastStep(s0, l0, run'.steps, run'.lastSuccessful)
        decreases |PendingIn(run'.steps)|
      {
        if run'.cancelRequested {
          ExplainedAlike(CancelledNow, old(saves), saves, old(execs), execs);
          return run', Some(CancelledNow);
        }
        ghost var at;
        var ready;
        ready, at := ReadySteps(run'.steps);
        if |ready| == 0 {
          NoneListed(run'.steps, ready, at);
          return run', None;
        }
        ghost var saves1, execs1 := saves, execs;
        ghost var saved1, log1, before := saved, log, run';
        run', err := RunReady(run', ready, at, s0, saved0, log0, tracked, l0);
        InLineThen(run, before, saved1, |old(saved)|, log1, |old(log)|, saved, log);
        ExplainedThen(err, old(saves), saves1, saves, old(execs), execs1, execs);
        if err.Some? {
          return;
        }
      }
    }

    lemma NothingToExplain(s: nat, e: nat)
      ensures Explained(None, s, s, e, e)
    {
    }

    lemma ExplainedAlike(error: ProvisionError, s0: nat, s1: nat, e0: nat, e1: nat)
      requires Explained(None, s0, s1, e0, e1) && !error.SaveFailed? && !error.StepFailedAt?
      ensures Explained(Some(error), s0, s1, e0, e1)
    {
    }

    /** Saves a state of the work itself. */
    method SaveWork(run: Run, ghost s0: seq<Step>, ghost saved0: nat) returns (ok: bool)
      requires saved0 <= |saved| && SavesOk(s0, saved[saved0..])
      requires Evolves(s0, run.steps) && (PassedClosed(s0) ==> PassedClosed(run.steps))
      modifies this
      ensures old(saved) <= saved && old(log) <= log
      ensures log == old(log) && saved0 <= |saved| && SavesOk(s0, saved[saved0..])
      ensures saved == old(saved) || saved == old(saved) + [run]
      ensures run.id in runs && runs[run.id] == run
      ensures ok && hasStore ==> run.id in stored && stored[run.id] == run
      ensures ok <==> SavesWorked(old(saves), saves)
      ensures saves == if hasStore then old(saves) + 1 else old(saves)
      ensures execs == old(execs) && creates == old(creates) && (old(Tracks(run)) ==> Tracks(run))
    {
      hide SavesOk, Evolves, PassedClosed, Remembers, Ahead, Inhabits;
      SavedOne(s0, saved[saved0..], run);
      ok := Save(run);
      assert saved[saved0..] == old(saved)[saved0..] + if saved == old(saved) then [] else [run];
    }

    /** Provisioning `r` gets to the point where a runtime is created: there is a provider, the
        run has no runtime yet, and the start could be saved.
     */
    ghost predicate Makes(r: Run, s: nat) {
      hasRuntime && r.runtimeID == "" && (hasStore ==> saveOk(s))
    }

    /** The run's own runtime, or the one that is created for it. */
    ghost function RuntimeOf(r: Run, s: nat, c: nat): string {
      if Makes(r, s) && created(c).Some? then created(c).value else r.runtimeID
    }

    /** Records the start and, if the run has none yet, creates its runtime. */
    method Begin(r: Run, ghost s0: seq<Step>, ghost saved0: nat) returns (run: Run, err: Option<ProvisionError>)
      requires saved0 <= |saved| && SavesOk(s0, saved[saved0..])
      requires Evolves(s0, r.steps) && (PassedClosed(s0) ==> PassedClosed(r.steps))
      modifies this
      ensures old(saved) <= saved && old(log) <= log
      ensures err.None? || err == Some(SaveFailed) || err == Some(NoRuntime) || err == Some(CreateFailed)
      ensures creates == old(creates) + if Makes(r, old(saves)) then 1 else 0
      ensures err == Some(SaveFailed) ==> run.id in runs && runs[run.id] == run
      ensures run == r.(status := Allocating, runtimeID := RuntimeOf(r, old(saves), old(creates)))
      ensures forall i :: |old(saved)| <= i < |saved| ==>
                saved[i] == run || (i == |old(saved)| && Makes(r, old(saves)) && saved[i] == r.(status := Allocating))
      ensures log == old(log) && saved0 <= |saved| && SavesOk(s0, saved[saved0..])
      ensures err.None? <==> Begins(r, old(saves), old(creates))
      ensures err == Some(NoRuntime) <==> !hasRuntime && (hasStore ==> saveOk(old(saves)))
      ensures err == Some(CreateFailed) <==>
                hasRuntime && r.runtimeID == "" && created(old(creates)).None? && (hasStore ==> saveOk(old(saves)))
      ensures Explained(err, old(saves), saves, old(execs), execs) && execs == old(execs)
      ensures old(Tracks(r)) ==> Tracks(run)
    {
      hide SavesOk, Evolves, PassedClosed, Remembers, Ahead, Inhabits;
      run := r.(status := Allocating);
      var ok := SaveWork(run, s0, saved0);
      if !ok {
        return run, Some(SaveFailed);
      }
      if !hasRuntime {
        return run, Some(NoRuntime);
      }
      if run.runtimeID == "" {
        var rt := created(creates);
        creates := creates + 1;
        if rt.None? {
          return run, Some(CreateFailed);
        }
        NoRuntimeYet(run.id, rt.value);
        run := run.(runtimeID := rt.value);
        ok := SaveWork(run, s0, saved0);
        if !ok {
          return run, Some(SaveFailed);
        }
      }
      err := None;
    }

    /** The record can be worked on. */
    ghost predicate Startable(r: Run) {
      ValidSteps(r.steps) && !r.status.Ready? && !r.status.Cancelled?
    }

    /** Nothing can go wrong: there is a runtime, all saves, creations and commands work, all
        steps have commands, and no cancellation is requested.
     */
    ghost predicate Flawless(r: Run) {
      && hasRuntime && (hasStore ==> forall n: nat :: saveOk(n))
      && (forall n: nat :: created(n).Some?) && (forall n: nat :: execOk(n))
      && (forall k :: 0 <= k < |r.steps| ==> r.steps[k].id == "runtime" || r.steps[k].id in SUPPORTED)
      && !r.cancelRequested
    }

    /** From the start to the point where nothing is ready any more or something goes wrong. `b`
        is the record at the end of the beginning, `mid` the number of snapshots then.
     */
    method BeginAndWork(r: Run, ghost tracked: bool)
      returns (run: Run, err: Option<ProvisionError>, ghost b: Run, ghost mid: nat)
      requires Startable(r) && (tracked ==> Tracks(r))
      modifies this
      ensures old(saved) <= saved && old(log) <= log && |old(saved)| <= mid <= |saved|
      ensures err != Some(NotFound) && err != Some(InvalidGraph) && err != Some(WasCancelled)
      ensures LogReady(r.steps, log[|old(log)|..]) && SavesOk(r.steps, saved[|old(saved)|..])
      ensures err.None? ==>
                && Evolves(r.steps, run.steps) && (PassedClosed(r.steps) ==> PassedClosed(run.steps))
                && NoneReady(run.steps) && LastStep(r.steps, r.lastSuccessful, run.steps, run.lastSuccessful)
      ensures err.Some? && err.value.StepFailedAt? ==>
                FailedOnce(r.steps, run.steps) && FailsAt(run.steps, err.value.step)
      ensures err == Some(NoRuntime) <==> !hasRuntime && (hasStore ==> saveOk(old(saves)))
      ensures err == Some(CreateFailed) <==>
                hasRuntime && r.runtimeID == "" && created(old(creates)).None? && (hasStore ==> saveOk(old(saves)))
      ensures err == Some(CancelledNow) <==> Begins(r, old(saves), old(creates)) && r.cancelRequested
      ensures Explained(err, old(saves), saves, old(execs), execs)
      ensures Flawless(r) ==> err.None?
      ensures tracked ==> Tracks(run)
      ensures b == r.(status := Allocating, runtimeID := RuntimeOf(r, old(saves), old(creates)))
      ensures forall i :: |old(saved)| <= i < mid ==>
                saved[i] == b || (i == |old(saved)| && Makes(r, old(saves)) && saved[i] == r.(status := Allocating))
      ensures run == b.(steps := run.steps, lastSuccessful := run.lastSuccessful)
      ensures InLine(b, saved, mid, log, |old(log)|)
      ensures creates == old(creates) + if Makes(r, old(saves)) then 1 else 0
      ensures err == Some(SaveFailed) ==> run.id in runs && runs[run.id] == run
    {
      hide NoneReady, InLine, LastStep, LogOk, LogReady, SavesOk, Evolves, PassedClosed, FailedOnce, IsReady;
      hide Distinguished, ValidSteps, Remembers, Ahead, Inhabits, Explained, FailsAt, Begins, Flawless;
      ghost var log0, saved0, s0 := |log|, |saved|, r.steps;
      NothingDone(s0, log, saved);
      run, err := Begin(r, s0, saved0);
      b, mid := run, |saved|;
      InLineNone(b, saved, log);
      if err.None? {
        ValidDistinguished(s0);
        ghost var saves1, execs1 := saves, execs;
        SameLast(r);
        run, err := WorkOff(run, s0, saved0, log0, tracked, r.lastSuccessful);
        ExplainedThen(err, old(saves), saves1, saves, old(execs), execs1, execs);
        FlawlessWork(r, run.steps, err, old(saves), saves, old(execs), execs);
      } else {
        FlawlessBegins(r, old(saves), old(creates));
      }
    }

    /** Works off a record that can be worked on. `kept` is the number of snapshots saved up to
        the one, if any, that records a failure or cancellation, `counted` the number of saves
        up to that one.
     */
    method ProvisionFrom(r: Run, ghost tracked: bool)
      returns (run: Run, err: Option<ProvisionError>, ghost kept: nat, ghost counted: nat)
      requires Startable(r) && (tracked ==> Tracks(r))
      modifies this
      ensures old(saved) <= saved && old(log) <= log
      ensures err != Some(NotFound) && err != Some(InvalidGraph) && err != Some(WasCancelled)
      ensures |old(log)| <= |log| && LogReady(r.steps, log[|old(log)|..])
      ensures err.None? ==>
                && run.status.Ready? && Evolves(r.steps, run.steps) && (AllPassed(run.steps) <==> Resumable(r.steps))
                && (PassedClosed(r.steps) ==> PassedClosed(run.steps))
      ensures err.Some? && err.value.StepFailedAt? ==>
                run.status.Failed? && FailedOnce(r.steps, run.steps) && FailsAt(run.steps, err.value.step)
      ensures Kept(r.steps, |old(saved)|, kept, saved)
      ensures err == Some(NoRuntime) <==> !hasRuntime && (hasStore ==> saveOk(old(saves)))
      ensures err == Some(CreateFailed) <==>
                hasRuntime && r.runtimeID == "" && created(old(creates)).None? && (hasStore ==> saveOk(old(saves)))
      ensures err == Some(CancelledNow) <==> Begins(r, old(saves), old(creates)) && r.cancelRequested
      ensures Explained(err, old(saves), counted, old(execs), execs)
      ensures counted <= saves <= counted + 1 && (err.None? || err == Some(SaveFailed) ==> saves == counted)
      ensures Flawless(r) ==> err.None?
      ensures run.id == r.id && (tracked ==> Tracks(run))
      ensures Leaves(r, run, err, RuntimeOf(r, old(saves), old(creates)), Makes(r, old(saves)), saved, |old(saved)|,
                     log, |old(log)|)
      ensures creates == old(creates) + if Makes(r, old(saves)) then 1 else 0
      ensures run.id in runs && runs[run.id] == run
      ensures hasStore && err != Some(SaveFailed) && (err.None? || saveOk(counted)) ==>
                run.id in stored && stored[run.id] == run
    {
      hide InLine, LastStep, Leaves, NoneReady;
      hide LogOk, LogReady, SavesOk, Evolves, PassedClosed, FailedOnce, Distinguished, AllPassed, Resumable, IsReady;
      hide ValidSteps, Kept, Remembers, Ahead, Inhabits, Explained, FailsAt, Begins, Flawless;
      ghost var saved0, s0 := |saved|, r.steps;
      ghost var b, mid;
      run, err, b, mid := BeginAndWork(r, tracked);
      ghost var saves2, saved2, w := saves, saved, run;
      if err.None? {
        WorkDone(s0, run.steps);
        run, err, kept := Finish(run, s0, saved0);
        counted := saves;
        SavedExplains(err.None?, old(saves), saves2, saves, old(execs), execs);
        FlawlessSaves(r, saves2, saves);
      } else {
        counted := saves;
        run, kept := GiveUp(run, err.value, s0, saved0);
      }
      LeavesAll(r, b, w, run, err, RuntimeOf(r, old(saves), old(creates)), Makes(r, old(saves)), |old(saved)|,
                |old(log)|, saved2[..mid], saved2, log, saved);
    }

    lemma SameLast(r: Run)
      ensures LastStep(r.steps, r.lastSuccessful, r.steps, r.lastSuccessful)
    {
    }

    /** All is done: the run is ready. */
    method Finish(run: Run, ghost s0: seq<Step>, ghost saved0: nat)
      returns (run': Run, err: Option<ProvisionError>, ghost kept: nat)
      requires saved0 <= |saved| && SavesOk(s0, saved[saved0..])
      requires Evolves(s0, run.steps) && (PassedClosed(s0) ==> PassedClosed(run.steps))
      modifies this
      ensures old(saved) <= saved && log == old(log) && Kept(s0, saved0, kept, saved)
      ensures run' == run.(status := RunStatus.Ready) && (saved == old(saved) || saved == old(saved) + [run'])
      ensures run'.id in runs && runs[run'.id] == run' && creates == old(creates)
      ensures err.None? && hasStore ==> run'.id in stored && stored[run'.id] == run'
      ensures err == if SavesWorked(old(saves), saves) then None else Some(SaveFailed)
      ensures saves == (if hasStore then old(saves) + 1 else old(saves)) && execs == old(execs)
      ensures old(Tracks(run)) ==> Tracks(run')
    {
      hide SavesOk, Evolves, PassedClosed, Kept, Remembers, Ahead, Inhabits;
      run' := run.(status := RunStatus.Ready);
      var ok := SaveWork(run', s0, saved0);
      err := if ok then None else Some(SaveFailed);
      AllKept(s0, saved0, saved);
      kept := |saved|;
    }

    /** Something went wrong; unless it was a save, that is recorded. */
    method GiveUp(run: Run, err: ProvisionError, ghost s0: seq<Step>, ghost saved0: nat)
      returns (run': Run, ghost kept: nat)
      requires saved0 <= |saved| && SavesOk(s0, saved[saved0..])
      modifies this
      ensures old(saved) <= saved && log == old(log) && Kept(s0, saved0, kept, saved)
      ensures run' == run.(status := run'.status) && (!err.SaveFailed? && !err.CancelledNow? ==> run'.status.Failed?)
      ensures old(saves) <= saves <= old(saves) + 1 && execs == old(execs)
      ensures err.SaveFailed? ==> saves == old(saves)
      ensures saved == old(saved) || saved == old(saved) + [run']
      ensures err.CancelledNow? ==> run'.status.Cancelled?
      ensures creates == old(creates)
      ensures !err.SaveFailed? || old(run.id in runs && runs[run.id] == run) ==>
                run'.id in runs && runs[run'.id] == run'
      ensures !err.SaveFailed? && hasStore && saveOk(old(saves)) ==> run'.id in stored && stored[run'.id] == run'
      ensures old(Tracks(run)) ==> Tracks(run')
    {
      hide SavesOk, Kept, Remembers, Ahead, Inhabits;
      run', kept := run, |saved|;
      if err.SaveFailed? {
        AllKept(s0, saved0, saved);
      } else if err.CancelledNow? {
        run' := run.(status := RunStatus.Cancelled);
        OneMoreKept(s0, saved0, saved, run');
        var _ := Save(run');
      } else {
        run', kept := FailKept(run, s0, saved0);
      }
    }

    lemma FlawlessBegins(r: Run, s: nat, c: nat)
      ensures Flawless(r) ==> Begins(r, s, c)
    {
    }

    lemma FlawlessSaves(r: Run, s0: nat, s1: nat)
      ensures Flawless(r) ==> SavesWorked(s0, s1)
    {
    }

    /** Provisions a run from wherever its record says it is. */
    method Provision(id: string) returns (run: Run, err: Option<ProvisionError>, ghost kept: nat, ghost counted: nat)
      modifies this
      ensures old(saved) <= saved && old(log) <= log
      ensures err == Some(NotFound) <==> old(Current(id)).None?
      ensures old(Current(id)).Some? ==>
        var r0 := old(Current(id)).value;
        && (err == Some(InvalidGraph) <==> !ValidSteps(r0.steps))
        && (ValidSteps(r0.steps) && r0.status.Ready? ==> err.None? && run == r0 && log == old(log))
        && (err == Some(WasCancelled) <==> ValidSteps(r0.steps) && r0.status.Cancelled?)
        && |old(log)| <= |log| && LogReady(r0.steps, log[|old(log)|..])
        && (err.None? && !r0.status.Ready? ==>
              run.status.Ready? && Evolves(r0.steps, run.steps)
              && (AllPassed(run.steps) <==> Resumable(r0.steps))
              && (PassedClosed(r0.steps) ==> PassedClosed(run.steps)))
        && (err.Some? && err.value.StepFailedAt? ==>
              run.status.Failed? && FailedOnce(r0.steps, run.steps) && FailsAt(run.steps, err.value.step))
        && Kept(r0.steps, |old(saved)|, kept, saved)
      ensures old(Current(id)).Some? ==>
        var r0 := old(Current(id)).value;
        && (err == Some(NoRuntime) <==> Startable(r0) && !hasRuntime && (hasStore ==> saveOk(old(saves))))
        && (err == Some(CreateFailed) <==>
              && Startable(r0) && hasRuntime && r0.runtimeID == "" && created(old(creates)).None?
              && (hasStore ==> saveOk(old(saves))))
        && (err == Some(CancelledNow) <==> Startable(r0) && Begins(r0, old(saves), old(creates)) && r0.cancelRequested)
        && (Startable(r0) ==> Explained(err, old(saves), counted, old(execs), execs))
        && (Startable(r0) ==>
             counted <= saves <= counted + 1 && (err.None? || err == Some(SaveFailed) ==> saves == counted))
        && (Startable(r0) && Flawless(r0) ==> err.None?)
      ensures old(Current(id)).Some? && Startable(old(Current(id)).value) ==>
        var r0 := old(Current(id)).value;
        && Leaves(r0, run, err, RuntimeOf(r0, old(saves), old(creates)), Makes(r0, old(saves)), saved, |old(saved)|,
                  log, |old(log)|)
        && creates == old(creates) + (if Makes(r0, old(saves)) then 1 else 0)
        && run.id in runs && runs[run.id] == run
        && (hasStore && err != Some(SaveFailed) && (err.None? || saveOk(counted)) ==>
             run.id in stored && stored[run.id] == run)
      ensures old(Current(id)).None? || !Startable(old(Current(id)).value) ==> creates == old(creates)
      ensures err == Some(InvalidGraph) ==> run.status == Failed
      ensures old(Remembers(id)) && HasRuntime(old(saved), id) ==> creates == old(creates)
      ensures old(Remembers(id)) ==> Remembers(id) && |old(log)| <= |log| && NotAgain(old(saved), id, log, |old(log)|)
    {
      hide LogOk, LogReady, SavesOk, Evolves, PassedClosed, FailedOnce, Distinguished, AllPassed, Resumable, IsReady;
      hide ValidSteps, Kept, Remembers, Ahead, Inhabits, Explained, FailsAt, Begins, NotAgain, Flawless, Leaves;
      hide HasRuntime;
      ghost var log0, saved0 := |log|, |saved|;
      ghost var tracked := Remembers(id);
      kept, counted := saved0, saves;
      NoneAgain(saved, id, log);
      var r := Get(id);
      if r.None? {
        return Run("", Planned, "", [], "", false), Some(NotFound), kept, counted;
      }
      run := r.value;
      ghost var s0 := run.steps;
      NothingDone(s0, log, saved);
      AllKept(s0, saved0, saved);
      var invalid := ValidateGraph(run.steps);
      if invalid.Some? {
        run, kept := FailKept(run, s0, saved0);
        return run, Some(InvalidGraph), kept, counted;
      }
      if run.status.Ready? {
        return run, None, kept, counted;
      }
      if run.status.Cancelled? {
        return run, Some(WasCancelled), kept, counted;
      }
      if tracked {
        AheadAtStart(run);
        if HasRuntime(saved, id) {
          RuntimeKept(run);
        }
      }
      run, err, kept, counted := ProvisionFrom(run, tracked);
      if tracked {
        NeverAgain(old(saved), id, s0, log, log0);
      }
    }

    /** A life of the process: it works on the run until it dies, when `cut` more snapshots have
        been saved and `ran` more executions are done, or at the end of the call.
     */
    method Live(id: string, cut: nat, ghost ran: nat)
      requires Remembers(id)
      modifies this
      ensures Remembers(id) && runs == map[]
      ensures old(saved) <= saved && |saved| <= |old(saved)| + cut && old(log) <= log
      ensures NotAgain(old(saved), id, log, |old(log)|) && (HasRuntime(old(saved), id) ==> creates == old(creates))
      ensures old(Current(id)).Some? ==> LogReady(old(Current(id)).value.steps, log[|old(log)|..])
    {
      hide Remembers, NotAgain, LogReady, HasRuntime;
      var before := saved;
      ghost var done := log;
      var run, err;
      ghost var kept, counted;
      run, err, kept, counted := Provision(id);
      var n := if cut < |saved| - |before| then |before| + cut else |saved|;
      ghost var l := if ran < |log| - |done| then |done| + ran else |log|;
      NotAgainBefore(before, id, log, |done|, l);
      ReadyBefore(log, |done|, l);
      Crash(n, l);
    }

    /** Any number of lives: no life executes a step that a snapshot saved in an earlier one has
        passed, no snapshot takes back what an earlier one has passed, and once a snapshot has a
        runtime all later ones have that runtime and no life creates another.
     */
    method Lives(id: string, cuts: seq<nat>, ghost rans: seq<nat>) returns (ghost starts: seq<Birth>)
      requires Remembers(id) && |rans| == |cuts|
      modifies this
      ensures Remembers(id) && Monotone(saved, id)
      ensures |starts| == |cuts|
      ensures starts != [] ==> starts[0] == Birth(|old(saved)|, |old(log)|, old(creates))
      ensures forall l :: 0 <= l < |starts| ==> LifeOk(starts[l], saved, id, log, creates)
    {
      hide Monotone, LifeOk, HasRuntime;
      starts := [];
      for l := 0 to |cuts|
        invariant Remembers(id) && |starts| == l
        invariant if starts == [] then saved == old(saved) && log == old(log) && creates == old(creates)
                  else starts[0] == Birth(|old(saved)|, |old(log)|, old(creates))
        invariant forall i :: 0 <= i < |starts| ==> LifeOk(starts[i], saved, id, log, creates)
      {
        ghost var before, done, made := saved, log, creates;
        Live(id, cuts[l], rans[l]);
        starts := starts + [Birth(|before|, |done|, made)];
        LivesOn(starts, before, saved, id, done, log, made, creates);
      }
    }

    lemma RuntimeKept(run: Run)
      requires Tracks(run) && HasRuntime(saved, run.id)
      ensures run.runtimeID != ""
    {
      hide Remembers, Ahead;
    }

    lemma AheadAtStart(run: Run)
      requires Tracks(run)
      ensures AheadOf(saved, run.id, run.steps)
    {
      hide Remembers, AheadOf;
    }

    lemma SavedExplains(ok: bool, s0: nat, s1: nat, s2: nat, e0: nat, e1: nat)
      requires Explained(None, s0, s1, e0, e1) && s2 == (if hasStore then s1 + 1 else s1)
      requires (ok <==> SavesWorked(s1, s2))
      ensures Explained(if ok then None else Some(SaveFailed), s0, s2, e0, e1)
    {
    }

    lemma FlawlessWork(r0: Run, t: seq<Step>, err: Option<ProvisionError>, s0: nat, s1: nat, e0: nat, e1: nat)
      requires Explained(err, s0, s1, e0, e1)
      requires err.Some? && err.value.StepFailedAt? ==> FailedOnce(r0.steps, t) && FailsAt(t, err.value.step)
      ensures Flawless(r0) ==> err != Some(SaveFailed) && !(err.Some? && err.value.StepFailedAt?) && !r0.cancelRequested
    {
    }

    /** `m.fail`: the failure is saved if the store lets it, and reported either way. */
    method FailKept(run: Run, ghost s0: seq<Step>, ghost saved0: nat) returns (run': Run, ghost kept: nat)
      requires saved0 <= |saved| && SavesOk(s0, saved[saved0..])
      modifies this
      ensures old(saved) <= saved && old(log) <= log
      ensures run' == run.(status := RunStatus.Failed) && log == old(log)
      ensures (saved == old(saved) || saved == old(saved) + [run']) && creates == old(creates)
      ensures run'.id in runs && runs[run'.id] == run'
      ensures hasStore && saveOk(old(saves)) ==> run'.id in stored && stored[run'.id] == run'
      ensures Kept(s0, saved0, kept, saved)
      ensures old(saves) <= saves <= old(saves) + 1 && execs == old(execs) && (old(Tracks(run)) ==> Tracks(run'))
    {
      hide SavesOk, Kept, Remembers, Ahead, Inhabits;
      run' := run.(status := RunStatus.Failed);
      kept := |saved|;
      OneMoreKept(s0, saved0, saved, run');
      var _ := Save(run');
    }
  }

  /** Up to `kept`, the snapshots since `saved0` are states of the work; at most one follows,
      which records a failure or a cancellation.
   */
  ghost predicate Kept(s0: seq<Step>, saved0: nat, kept: nat, saved: seq<Run>) {
    && saved0 <= kept <= |saved| <= kept + 1
    && SavesOk(s0, saved[saved0..kept])
    && forall i :: kept <= i < |saved| ==> saved[i].status.Failed? || saved[i].status.Cancelled?
  }

  lemma AllKept(s0: seq<Step>, saved0: nat, saved: seq<Run>)
    requires saved0 <= |saved| && SavesOk(s0, saved[saved0..])
    ensures Kept(s0, saved0, |saved|, saved)
  {
    hide SavesOk;
    assert saved[saved0..|saved|] == saved[saved0..];
  }

  lemma OneMoreKept(s0: seq<Step>, saved0: nat, saved: seq<Run>, run: Run)
    requires saved0 <= |saved| && SavesOk(s0, saved[saved0..]) && (run.status.Failed? || run.status.Cancelled?)
    ensures Kept(s0, saved0, |saved|, saved + [run]) && Kept(s0, saved0, |saved|, saved + [])
  {
    hide SavesOk;
    assert (saved + [run])[saved0..|saved|] == saved[saved0..];
    assert (saved + [])[saved0..|saved|] == saved[saved0..];
  }

  lemma NothingDone(s0: seq<Step>, log: seq<Attempt>, saved: seq<Run>)
    ensures LogOk(s0, s0, log[|log|..]) && LogReady(s0, log[|log|..]) && SavesOk(s0, saved[|saved|..])
    ensures SavesOk(s0, saved[|saved|..|saved|])
    ensures Evolves(s0, s0)
  {
  }

  lemma ValidDistinguished(steps: seq<Step>)
    requires ValidSteps(steps)
    ensures Distinguished(steps)
  {
    assert forall i :: 0 <= i < |steps| ==> Vertices(steps)[i].id == steps[i].id;
  }

  ghost predicate NoneReady(steps: seq<Step>) {
    forall k :: !IsReady(steps, k)
  }

  lemma WorkDone(s0: seq<Step>, s: seq<Step>)
    requires ValidSteps(s0) && Evolves(s0, s) && NoneReady(s)
    ensures AllPassed(s) <==> Resumable(s0)
  {
    EvolvesVertices(s0, s);
    NothingReadyMeans(s0, s);
  }

  lemma NoneListed(s: seq<Step>, ready: seq<Step>, at: seq<nat>)
    requires ReadyListed(s, |s|, ready, at) && ready == []
    ensures NoneReady(s)
  {
  }

  lemma StepSuccess(s0: seq<Step>, s: seq<Step>, k: nat)
    requires Evolves(s0, s) && Distinguished(s) && IsReady(s, k)
    ensures k < |s|
    ensures var t := Marked(s, s[k].id, StepPassed);
            && Evolves(s0, t) && Distinguished(t) && (PassedClosed(s) ==> PassedClosed(t))
            && |PendingIn(t)| < |PendingIn(s)|
            && forall i: nat :: i != k && IsReady(s, i) ==> i < |s| && IsReady(t, i) && t[i] == s[i]
  {
    var t := Marked(s, s[k].id, StepPassed);
    PassOne(s0, s, k);
    PendingShrinks(s, k);
    assert forall i :: 0 <= i < |s| ==> t[i].id == s[i].id;
    assert forall i :: 0 <= i < |s| && i != k ==> s[i].id != s[k].id;
  }

  lemma StepFailure(s0: seq<Step>, s: seq<Step>, k: nat, t: seq<Step>)
    requires Evolves(s0, s) && IsReady(s, k) && (PassedClosed(s0) ==> PassedClosed(s))
    ensures k < |s|
    ensures t == Marked(s, s[k].id, StepFailed) ==> FailedOnce(s0, t) && FailsAt(t, s[k].id)
  {
    if t == Marked(s, s[k].id, StepFailed) {
      assert FailedFrom(s0, s, k, t);
      assert t[k].id == s[k].id && t[k].status.StepFailed?;
    }
  }

  lemma MarkedTwice(steps: seq<Step>, id: string, status: StepStatus)
    ensures Marked(Marked(steps, id, StepRunning), id, status) == Marked(steps, id, status)
  {
  }

  lemma SavedOne(s0: seq<Step>, saved: seq<Run>, run: Run)
    requires SavesOk(s0, saved) && Evolves(s0, run.steps) && (PassedClosed(s0) ==> PassedClosed(run.steps))
    ensures SavesOk(s0, saved + [run]) && SavesOk(s0, saved + [])
  {
    hide Evolves, PassedClosed;
    assert saved + [] == saved;
  }

  lemma FailedStays(s0: seq<Step>, s: seq<Step>, k: nat)
    requires Evolves(s0, s) && k < |s0| && s0[k].status.StepFailed?
    ensures s[k].status.StepFailed?
  {
  }

  /** A step that has failed is never tried again, yet the run is reported ready: whatever else
      the list holds, a manager for which nothing goes wrong ends "ready" with the step failed.
   */
  method ReadyThoughFailed(steps: seq<Step>, k: nat) returns (m: Manager, run: Run, err: Option<ProvisionError>)
    requires ValidSteps(steps) && k < |steps| && steps[k].status.StepFailed?
    requires forall i :: 0 <= i < |steps| ==> steps[i].id == "runtime" || steps[i].id in SUPPORTED
    ensures err.None? && run.status.Ready? && |run.steps| == |steps| && run.steps[k].status.StepFailed?
    ensures forall a :: 0 <= a < |m.log| ==> m.log[a].k != k
  {
    hide ValidSteps, AllPassed, Resumable, PassedClosed;
    hide Kept, NotAgain, Manager.Explained, Manager.Begins, Manager.Remembers;
    m := new Manager(true, false, n => true, n => false, n => true, n => Some("runtime"), n => true, map[]);
    var r0 := Run("run", RunStatus.Failed, "", steps, "", false);
    var saved := m.Save(r0);
    ghost var kept, counted;
    run, err, kept, counted := m.Provision("run");
    FailedStays(steps, run.steps, k);
    assert m.log[0..] == m.log;
    ExecutedOnce(steps, m.log);
  }

  /** For instance the list of one step, which has failed. */
  lemma OneFailedStep()
    ensures ValidSteps([Step("tools", StepFailed, [])])
  {
    var vs := Vertices([Step("tools", StepFailed, [])]);
    assert vs == [Vertex("tools", [])];
    assert vs[..0] == [];
    assert EdgesOf(vs) == map["tools" := []];
    assert Topological(EdgesOf(vs), ["tools"]);
    TopologicalIsAcyclic(EdgesOf(vs), ["tools"]);
    assert Elems(["tools"]) == EdgesOf(vs).Keys;
  }
}
