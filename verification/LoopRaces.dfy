/** Loops whose starts and resumptions race each other and active runs: exactly when a stage
    that was persisted as completed gets lost.
 */
module LoopRaces {
  import opened Wrappers
  import opened LoopCoordinator

  ghost predicate OnDisk(m: Machine, id: string, s: Stage) {
    id in m.disk && m.disk[id].Done(s)
  }

  /** In any state whatever, a step takes a completed stage off the disk exactly if it saves an
      execution of that loop that lacks the stage.
   */
  lemma LosesExactly(m: Machine, a: Action, id: string, s: Stage)
    requires Enabled(m, a) && OnDisk(m, id, s)
    ensures !OnDisk(Apply(m, a), id, s) <==>
              Saving(a) && SaveReaches(m, a) && WrittenBy(m, a).id == id && !WrittenBy(m, a).Done(s)
  {
  }

  // ------------------------------------------------------- what holds before a loss

  /** Nobody but process `p` works on the loop, and nothing of it is on disk. */
  ghost predicate Alone(m: Machine, p: nat, id: string) {
    id !in m.disk && forall q :: q in m.procs && q != p ==> m.procs[q].Id() != id
  }

  /** A pending commit does not know the stage as completed before it is on disk, unless it is
      alone; an active process does not lag behind the disk.
   */
  ghost predicate Informed(m: Machine, p: nat, id: string, s: Stage)
    requires p in m.procs
  {
    m.procs[p].Id() == id ==>
      match m.procs[p]
      case Committing(e) => e.Done(s) ==> OnDisk(m, id, s) || Alone(m, p, id)
      case AtStage(e, _) => OnDisk(m, id, s) ==> e.Done(s)
      case Entered(e, i) => (OnDisk(m, id, s) ==> e.Done(s)) && i < |e.stages| && (e.stages[i] == s ==> !e.Done(s))
      case Executed(e, _) => OnDisk(m, id, s) ==> e.Done(s)
      case Closing(e) => OnDisk(m, id, s) ==> e.Done(s)
      case _ => true
  }

  ghost predicate AllInformed(m: Machine, id: string, s: Stage) {
    Exclusive(m) && forall p :: p in m.procs ==> Informed(m, p, id, s)
  }

  /** Nothing of the loop is on disk and nobody works on it. */
  ghost predicate Fresh(m: Machine, e: Execution) {
    e.id !in m.disk && Idle(m, e.id)
  }

  /** Some caller is about to save the stage as completed although it is not on disk. */
  ghost predicate ClaimPending(m: Machine, id: string, s: Stage) {
    && !OnDisk(m, id, s)
    && exists p :: p in m.procs && m.procs[p].Committing? && m.procs[p].Id() == id && m.procs[p].exec.Done(s)
  }

  /** A start claims the stage as completed only if it is on disk or the loop is fresh, and no
      other start of the loop comes while such a claim is pending.
   */
  ghost predicate Modest(m: Machine, a: Action, id: string, s: Stage) {
    a.Start? && a.exec.id == id ==>
      !ClaimPending(m, id, s) && (a.exec.Done(s) ==> OnDisk(m, id, s) || Fresh(m, a.exec))
  }

  /** Only commits lose the stage, as long as it has not been lost. */
  lemma OnlyCommits(m: Machine, a: Action, id: string, s: Stage)
    requires AllInformed(m, id, s) && Enabled(m, a)
    requires OnDisk(m, id, s) && !OnDisk(Apply(m, a), id, s)
    ensures a.Commit? && a.wrote && m.procs[a.p].exec.id == id && !m.procs[a.p].exec.Done(s)
  {
    hide Exclusive;
    LosesExactly(m, a, id, s);
    assert Informed(m, a.p, id, s);
  }

  lemma InformedStep(m: Machine, a: Action, id: string, s: Stage)
    requires AllInformed(m, id, s) && Enabled(m, a) && Modest(m, a, id, s)
    requires OnDisk(m, id, s) ==> OnDisk(Apply(m, a), id, s)
    ensures AllInformed(Apply(m, a), id, s)
  {
    hide Exclusive, Informed, OnDisk, Modest, Enabled, Apply;
    ExclusiveStep(m, a);
    if Saving(a) {
      InformedBySave(m, a, id, s);
    } else if a.Start? || a.Resume? {
      InformedByCall(m, a, id, s);
    } else {
      InformedByOther(m, a, id, s);
    }
  }

  ghost predicate StillInformed(m: Machine, id: string, s: Stage) {
    forall p :: p in m.procs ==> Informed(m, p, id, s)
  }

  lemma InformedBySave(m: Machine, a: Action, id: string, s: Stage)
    requires AllInformed(m, id, s) && Enabled(m, a) && Saving(a)
    requires OnDisk(m, id, s) ==> OnDisk(Apply(m, a), id, s)
    ensures StillInformed(Apply(m, a), id, s)
  {
    hide Exclusive, Apply, Informed, OnDisk;
    var m' := Apply(m, a);
    SaveShape(m, a, id, s);
    forall p | p in m'.procs ensures Informed(m', p, id, s) {
      if p == a.p {
        SaverInformed(m, a, id, s);
      } else {
        OtherInformed(m, a, p, id, s);
      }
    }
  }

  /** What a save changes: the checkpoint of its own loop and its own process. */
  lemma SaveShape(m: Machine, a: Action, id: string, s: Stage)
    requires Enabled(m, a) && Saving(a)
    ensures var (e, reached) := (m.procs[a.p].exec, SaveReaches(m, a));
            && (id in Apply(m, a).disk <==> id in m.disk || (reached && e.id == id))
            && (OnDisk(Apply(m, a), id, s) <==> if reached && e.id == id then e.Done(s) else OnDisk(m, id, s))
    ensures forall p :: p != a.p ==> (p in Apply(m, a).procs <==> p in m.procs)
    ensures forall p :: p != a.p && p in m.procs ==> Apply(m, a).procs[p] == m.procs[p]
    ensures a.p in Apply(m, a).procs ==> Apply(m, a).procs[a.p].Id() == m.procs[a.p].Id()
  {
  }

  lemma SaverInformed(m: Machine, a: Action, id: string, s: Stage)
    requires Enabled(m, a) && Saving(a) && a.p in Apply(m, a).procs && Informed(m, a.p, id, s)
    ensures Informed(Apply(m, a), a.p, id, s)
  {
  }

  /** A save of another process changes nothing for an active one, and a pending commit knows no
      more than the disk afterwards, too.
   */
  lemma OtherInformed(m: Machine, a: Action, p: nat, id: string, s: Stage)
    requires AllInformed(m, id, s) && Enabled(m, a) && Saving(a) && p != a.p && p in m.procs && p in Apply(m, a).procs
    requires OnDisk(m, id, s) ==> OnDisk(Apply(m, a), id, s)
    ensures Informed(Apply(m, a), p, id, s)
  {
    hide Apply, Execution.Done, OnDisk;
    SaveShape(m, a, id, s);
    assert Informed(m, p, id, s) && Informed(m, a.p, id, s);
    if m.procs[a.p].Id() != id && Alone(m, p, id) {
      assert Alone(Apply(m, a), p, id);
    }
  }

  lemma InformedByCall(m: Machine, a: Action, id: string, s: Stage)
    requires AllInformed(m, id, s) && Enabled(m, a) && Modest(m, a, id, s) && (a.Start? || a.Resume?)
    ensures StillInformed(Apply(m, a), id, s)
  {
    hide ActiveRegistered, ActiveApart, Execution.Done, Execution.Prepared;
    var m' := Apply(m, a);
    PreparedAlike(if a.Start? then a.exec else m.disk[a.loop], s);
    forall p | p in m'.procs ensures Informed(m', p, id, s) {
      if p != a.p {
        assert Informed(m, p, id, s);
      }
    }
  }

  lemma InformedByOther(m: Machine, a: Action, id: string, s: Stage)
    requires AllInformed(m, id, s) && Enabled(m, a) && !Saving(a) && !a.Start? && !a.Resume?
    ensures StillInformed(Apply(m, a), id, s)
  {
    hide ActiveRegistered, ActiveApart;
    var m' := Apply(m, a);
    forall p | p in m'.procs ensures Informed(m', p, id, s) {
      assert p in m.procs && Informed(m, p, id, s);
    }
  }

  // ---------------------------------------------------------------- whole histories

  /** The stage is taken off the disk by the k-th step. */
  ghost predicate Lost(ms: seq<Machine>, k: nat, id: string, s: Stage) {
    k + 1 < |ms| && OnDisk(ms[k], id, s) && !OnDisk(ms[k + 1], id, s)
  }

  /** All starts are modest. Starts and resumptions are otherwise free: they may race each other
      and active runs.
   */
  ghost predicate ModestHistory(ms: seq<Machine>, acts: seq<Action>, id: string, s: Stage) {
    History(ms, acts) && forall k :: 0 <= k < |acts| ==> Modest(ms[k], acts[k], id, s)
  }

  lemma {:induction false} InformedUntil(ms: seq<Machine>, acts: seq<Action>, k: nat, id: string, s: Stage)
    requires ModestHistory(ms, acts, id, s) && k <= |acts|
    requires forall i: nat :: i < k ==> !Lost(ms, i, id, s)
    ensures AllInformed(ms[k], id, s)
  {
    hide Enabled, Apply, Informed, OnDisk, Modest, Exclusive;
    OneRunPerLoop(ms, acts, k);
    if k > 0 {
      InformedUntil(ms, acts, k - 1, id, s);
      assert !Lost(ms, k - 1, id, s);
      InformedStep(ms[k - 1], acts[k - 1], id, s);
    }
  }

  /** What a start is called with, or a resumption reads, at the j-th step. */
  function CallOf(ms: seq<Machine>, acts: seq<Action>, j: nat): Option<Execution>
    requires Linked(ms, acts) && j < |acts|
  {
    if acts[j].Start? then Some(acts[j].exec)
    else if acts[j].Resume? then Some(ms[j].disk[acts[j].loop])
    else None
  }

  /** The process that commits at step `k` began its call at step `j`, with what it has now. */
  ghost predicate CallPending(ms: seq<Machine>, acts: seq<Action>, j: nat, k: nat) {
    && Linked(ms, acts) && j < k < |acts| && acts[k].Commit? && CallOf(ms, acts, j).Some? && acts[j].p == acts[k].p
    && CallOf(ms, acts, j).value.stages != []
    && forall i :: j < i <= k ==>
         acts[k].p in ms[i].procs && ms[i].procs[acts[k].p] == Committing(CallOf(ms, acts, j).value.Prepared())
  }

  /** A process gets to hold a commit by a call only, and holds it unchanged until it saves. */
  lemma CommitsBegin(ms: seq<Machine>, acts: seq<Action>, j: nat, p: nat)
    requires Linked(ms, acts) && j < |acts| && p in ms[j + 1].procs && ms[j + 1].procs[p].Committing?
    ensures if p in ms[j].procs && ms[j].procs[p].Committing? then ms[j].procs[p] == ms[j + 1].procs[p]
            else CallOf(ms, acts, j).Some? && acts[j].p == p && CallOf(ms, acts, j).value.stages != [] &&
                 ms[j + 1].procs[p] == Committing(CallOf(ms, acts, j).value.Prepared())
  {
  }

  lemma {:induction false} CallBegan(ms: seq<Machine>, acts: seq<Action>, k: nat, i: nat) returns (j: nat)
    requires History(ms, acts) && i <= k < |acts| && acts[k].Commit?
    requires acts[k].p in ms[i].procs && ms[i].procs[acts[k].p].Committing?
    requires forall n :: i <= n <= k ==> acts[k].p in ms[n].procs && ms[n].procs[acts[k].p] == ms[i].procs[acts[k].p]
    ensures CallPending(ms, acts, j, k)
    decreases i
  {
    hide Enabled, Apply, Execution.Prepared, Execution.Done;
    j := i - 1;
    var p := acts[k].p;
    CommitsBegin(ms, acts, j, p);
    if p in ms[j].procs && ms[j].procs[p].Committing? {
      j := CallBegan(ms, acts, k, j);
    }
  }

  /** A save at step `k` of a loop whose checkpoint was read, or which was started, at step `j`
      without the stage, while the stage is on disk by now.
   */
  ghost predicate StaleCommit(ms: seq<Machine>, acts: seq<Action>, j: nat, k: nat, id: string, s: Stage) {
    && CallPending(ms, acts, j, k) && acts[k].wrote
    && CallOf(ms, acts, j).value.id == id && !CallOf(ms, acts, j).value.Done(s)
    && OnDisk(ms[k], id, s)
  }

  lemma StaleCommitLoses(ms: seq<Machine>, acts: seq<Action>, j: nat, k: nat, id: string, s: Stage)
    requires StaleCommit(ms, acts, j, k, id, s)
    ensures Lost(ms, k, id, s)
  {
    LosesExactly(ms[k], acts[k], id, s);
  }

  /** The first loss is the commit of a start or resumption. If it is a resumption's, it read
      the checkpoint before the stage was saved: the stage was not on disk then.
   */
  lemma FirstLoss(ms: seq<Machine>, acts: seq<Action>, k: nat, id: string, s: Stage) returns (j: nat)
    requires ModestHistory(ms, acts, id, s) && Lost(ms, k, id, s)
    requires forall i: nat :: i < k ==> !Lost(ms, i, id, s)
    ensures StaleCommit(ms, acts, j, k, id, s)
    ensures acts[j].Resume? ==> !OnDisk(ms[j], id, s)
  {
    hide Apply, Informed, ActiveRegistered, ActiveApart, Execution.Done, Execution.Prepared;
    InformedUntil(ms, acts, k, id, s);
    OnlyCommits(ms[k], acts[k], id, s);
    CommitsPending(ms[k], acts[k]);
    j := CallBegan(ms, acts, k, k);
    PreparedAlike(CallOf(ms, acts, j).value, s);
    OneRunPerLoop(ms, acts, j);
    assert acts[j].Resume? ==> ms[j].disk[acts[j].loop].id == acts[j].loop;
  }

  lemma PreparedAlike(e: Execution, s: Stage)
    requires e.stages != []
    ensures e.Prepared().id == e.id && (e.Prepared().Done(s) <==> e.Done(s))
  {
  }

  lemma CommitsPending(m: Machine, a: Action)
    requires Enabled(m, a) && a.Commit?
    ensures a.p in m.procs && m.procs[a.p].Committing?
  {
  }

  /** Exactly when a completed stage is ever lost: when a start or resumption that lacks the
      stage is saved while the stage is on disk.
   */
  lemma LostExactly(ms: seq<Machine>, acts: seq<Action>, id: string, s: Stage)
    requires ModestHistory(ms, acts, id, s)
    ensures (exists k: nat :: Lost(ms, k, id, s)) <==> (exists j: nat, k: nat :: StaleCommit(ms, acts, j, k, id, s))
  {
    hide Lost, StaleCommit, ModestHistory;
    if j: nat, k: nat :| StaleCommit(ms, acts, j, k, id, s) {
      StaleCommitLoses(ms, acts, j, k, id, s);
    }
    if k: nat :| Lost(ms, k, id, s) {
      var first := Earliest(ms, k, id, s);
      var j := FirstLoss(ms, acts, first, id, s);
    }
  }

  lemma {:induction false} Earliest(ms: seq<Machine>, k: nat, id: string, s: Stage) returns (first: nat)
    requires Lost(ms, k, id, s)
    ensures Lost(ms, first, id, s) && forall i: nat :: i < first ==> !Lost(ms, i, id, s)
  {
    if i: nat :| i < k && Lost(ms, i, id, s) {
      first := Earliest(ms, i, id, s);
    } else {
      first := k;
    }
  }

  /** Every start is one of a loop that is neither on disk nor worked on. */
  ghost predicate FreshHistory(ms: seq<Machine>, acts: seq<Action>) {
    History(ms, acts) && forall k :: 0 <= k < |acts| && acts[k].Start? ==> Fresh(ms[k], acts[k].exec)
  }

  lemma FreshIsModest(ms: seq<Machine>, acts: seq<Action>, id: string, s: Stage)
    requires FreshHistory(ms, acts)
    ensures ModestHistory(ms, acts, id, s)
  {
  }

  /** A fresh start stays alone with its loop until it saves. */
  lemma {:induction false} StaysAlone(ms: seq<Machine>, acts: seq<Action>, j: nat, k: nat, i: nat)
    requires FreshHistory(ms, acts) && CallPending(ms, acts, j, k) && acts[j].Start? && j < i <= k
    ensures Alone(ms[i], acts[k].p, acts[j].exec.id)
    decreases i
  {
    hide Enabled, Apply, Fresh, Alone, ActiveRegistered, ActiveApart, Execution.Done, Execution.Prepared;
    if i == j + 1 {
      StartsAlone(ms[j], acts[j]);
    } else {
      StaysAlone(ms, acts, j, k, i - 1);
      assert acts[k].p in ms[i - 1].procs && acts[k].p in ms[i].procs;
      OneRunPerLoop(ms, acts, i - 1);
      PreparedAlike(acts[j].exec, "");
      AloneStep(ms[i - 1], acts[i - 1], acts[k].p, acts[j].exec.id);
    }
  }

  lemma StartsAlone(m: Machine, a: Action)
    requires Enabled(m, a) && a.Start? && Fresh(m, a.exec)
    ensures Alone(Apply(m, a), a.p, a.exec.id)
  {
  }

  lemma AloneStep(m: Machine, a: Action, p: nat, id: string)
    requires Keyed(m.disk) && Enabled(m, a) && Alone(m, p, id) && (a.Start? ==> Fresh(m, a.exec))
    requires p in m.procs && m.procs[p].Id() == id && p in Apply(m, a).procs && Apply(m, a).procs[p] == m.procs[p]
    requires m.procs[p].Committing?
    ensures Alone(Apply(m, a), p, id)
  {
    hide Execution.Done, Execution.Startable;
  }

  /** With fresh starts, only resumptions can be stale. */
  lemma FreshStale(ms: seq<Machine>, acts: seq<Action>, j: nat, k: nat, id: string, s: Stage)
    requires FreshHistory(ms, acts) && StaleCommit(ms, acts, j, k, id, s)
    ensures acts[j].Resume? && !OnDisk(ms[j], id, s)
  {
    hide Apply, ActiveRegistered, ActiveApart, Execution.Done, Execution.Prepared;
    if acts[j].Start? {
      StaysAlone(ms, acts, j, k, k);
    }
    OneRunPerLoop(ms, acts, j);
    assert acts[j].Resume? ==> acts[j].loop in ms[j].disk ==> ms[j].disk[acts[j].loop].id == acts[j].loop;
  }

  /** If starts are fresh, a completed stage is ever lost exactly if a resumption's commit comes
      after a stage was saved that its snapshot was read without.
   */
  lemma FreshLoss(ms: seq<Machine>, acts: seq<Action>, id: string, s: Stage)
    requires FreshHistory(ms, acts)
    ensures (exists k: nat :: Lost(ms, k, id, s)) <==>
              exists j: nat, k: nat :: StaleCommit(ms, acts, j, k, id, s) && acts[j].Resume? && !OnDisk(ms[j], id, s)
  {
    hide FreshHistory, ModestHistory, StaleCommit, Lost, OnDisk;
    FreshIsModest(ms, acts, id, s);
    LostExactly(ms, acts, id, s);
    if j: nat, k: nat :| StaleCommit(ms, acts, j, k, id, s) {
      FreshStale(ms, acts, j, k, id, s);
    }
  }

  // --------------------------------------------------------------------- examples

  const ONE_STAGE := Execution("loop", "project", ["BUILD"], Planned("READY"), "", map[], "")

  /** A run is started and, before it gets going, a resumption reads its checkpoint. */
  lemma SnapshotTaken() returns (ms: seq<Machine>, acts: seq<Action>)
    ensures |acts| == 4 && |ms| == 5 && FreshHistory(ms, acts) && ms[0] == Machine(map[], {}, map[])
    ensures var e := ONE_STAGE.Prepared();
            ms[4] == Machine(map["loop" := e], {"loop"}, map[0 := Registered("loop"), 1 := Committing(e)])
  {
    var e := ONE_STAGE.Prepared();
    ms, acts := [Machine(map[], {}, map[])], [];
    ms, acts := Extend(ms, acts, Start(0, ONE_STAGE), Machine(map[], {}, map[0 := Committing(e)]));
    ms, acts := Extend(ms, acts, Commit(0, true, true), Machine(map["loop" := e], {}, map[0 := Spawned("loop")]));
    assert e.Prepared() == e;
    ms, acts := Extend(ms, acts, Resume(1, "loop"),
                       Machine(map["loop" := e], {}, map[0 := Spawned("loop"), 1 := Committing(e)]));
    ms, acts := Extend(ms, acts, Register(0),
                       Machine(map["loop" := e], {"loop"}, map[0 := Registered("loop"), 1 := Committing(e)]));
  }

  /** The run enters its stage. */
  lemma StageEntered() returns (ms: seq<Machine>, acts: seq<Action>)
    ensures |acts| == 6 && |ms| == 7 && FreshHistory(ms, acts) && ms[0] == Machine(map[], {}, map[])
    ensures var e := ONE_STAGE.Prepared();
            var e' := e.Entering("BUILD");
            ms[6] == Machine(map["loop" := e'], {"loop"}, map[0 := Entered(e', 0), 1 := Committing(e)])
  {
    hide Linked;
    var e := ONE_STAGE.Prepared();
    var e' := e.Entering("BUILD");
    ms, acts := SnapshotTaken();
    ms, acts := Extend(ms, acts, Load(0, true),
                       Machine(map["loop" := e], {"loop"}, map[0 := AtStage(e, 0), 1 := Committing(e)]));
    ms, acts := Extend(ms, acts, Advance(0, true),
                       Machine(map["loop" := e'], {"loop"}, map[0 := Entered(e', 0), 1 := Committing(e)]));
  }

  /** The run completes its stage and saves that. */
  lemma StageSaved(r: StageResult) returns (ms: seq<Machine>, acts: seq<Action>)
    requires r.state.StageCompleted?
    ensures |acts| == 8 && |ms| == 9 && FreshHistory(ms, acts) && ms[0] == Machine(map[], {}, map[])
    ensures var e := ONE_STAGE.Prepared();
            var done := e.Entering("BUILD").Concluded("BUILD", Success(r));
            ms[8] == Machine(map["loop" := done], {"loop"}, map[0 := AtStage(done, 1), 1 := Committing(e)])
  {
    hide Linked;
    var e := ONE_STAGE.Prepared();
    var e' := e.Entering("BUILD");
    var done := e'.Concluded("BUILD", Success(r));
    ms, acts := StageEntered();
    ms, acts := Extend(ms, acts, Execute(0, Success(r)),
                       Machine(map["loop" := e'], {"loop"}, map[0 := Executed(done, 0), 1 := Committing(e)]));
    ms, acts := Extend(ms, acts, Save(0, true, true),
                       Machine(map["loop" := done], {"loop"}, map[0 := AtStage(done, 1), 1 := Committing(e)]));
  }

  /** If a loop is resumed while a run of it is active, the snapshot the resumption read can
      overwrite a newer checkpoint: here the completed stage is gone from disk again.
   */
  lemma StaleResume(r: StageResult) returns (ms: seq<Machine>, acts: seq<Action>)
    requires r.state.StageCompleted?
    ensures FreshHistory(ms, acts) && |acts| == 9 && Lost(ms, 8, "loop", "BUILD")
  {
    hide Linked;
    var e := ONE_STAGE.Prepared();
    ms, acts := StageSaved(r);
    var done := ms[8].disk["loop"];
    ms, acts := Extend(ms, acts, Commit(1, true, true),
                       Machine(map["loop" := e], {"loop"}, map[0 := AtStage(done, 1), 1 := Spawned("loop")]));
  }

  /** A run that is active on its stage while another start has claimed that stage as completed. */
  lemma ClaimCommitted(r: StageResult) returns (ms: seq<Machine>, acts: seq<Action>)
    requires r.state.StageCompleted?
    ensures |acts| == 6 && |ms| == 7 && Linked(ms, acts) && ms[0] == Machine(map[], {}, map[])
    ensures var e := ONE_STAGE.Prepared();
            var claim := e.(results := map["BUILD" := r]);
            ms[6] == Machine(map["loop" := claim], {"loop"}, map[0 := AtStage(e, 0), 1 := Spawned("loop")])
  {
    hide Linked;
    var e := ONE_STAGE.Prepared();
    var claim := e.(results := map["BUILD" := r]);
    assert claim.Prepared() == claim;
    ms, acts := RunLoaded();
    ms, acts := Extend(ms, acts, Start(1, claim),
                       Machine(map["loop" := e], {"loop"}, map[0 := AtStage(e, 0), 1 := Committing(claim)]));
    ms, acts := Extend(ms, acts, Commit(1, true, true),
                       Machine(map["loop" := claim], {"loop"}, map[0 := AtStage(e, 0), 1 := Spawned("loop")]));
  }

  lemma RunLoaded() returns (ms: seq<Machine>, acts: seq<Action>)
    ensures |acts| == 4 && |ms| == 5 && Linked(ms, acts) && ms[0] == Machine(map[], {}, map[])
    ensures var e := ONE_STAGE.Prepared();
            ms[4] == Machine(map["loop" := e], {"loop"}, map[0 := AtStage(e, 0)])
  {
    var e := ONE_STAGE.Prepared();
    ms, acts := [Machine(map[], {}, map[])], [];
    ms, acts := Extend(ms, acts, Start(0, ONE_STAGE), Machine(map[], {}, map[0 := Committing(e)]));
    ms, acts := Extend(ms, acts, Commit(0, true, true), Machine(map["loop" := e], {}, map[0 := Spawned("loop")]));
    ms, acts := Extend(ms, acts, Register(0), Machine(map["loop" := e], {"loop"}, map[0 := Registered("loop")]));
    ms, acts := Extend(ms, acts, Load(0, true), Machine(map["loop" := e], {"loop"}, map[0 := AtStage(e, 0)]));
  }

  /** Starts have to be modest for that: if one claims a stage of a loop that is being worked on,
      the active run can take the stage off the disk again, and no commit is to blame.
   */
  lemma ClaimLost(r: StageResult) returns (ms: seq<Machine>, acts: seq<Action>)
    requires r.state.StageCompleted?
    ensures History(ms, acts) && |acts| == 7 && Lost(ms, 6, "loop", "BUILD") && acts[6].Advance?
  {
    hide Linked;
    var e := ONE_STAGE.Prepared();
    var e' := e.Entering("BUILD");
    ms, acts := ClaimCommitted(r);
    ms, acts := Extend(ms, acts, Advance(0, true),
                       Machine(map["loop" := e'], {"loop"}, map[0 := Entered(e', 0), 1 := Spawned("loop")]));
  }
}
