/** The autonomous-loop coordinator: a persisted stage machine that survives crashes.

    The first half models every interleaving of `Start`, `Resume`, `Recover` and the `run`
    goroutines as atomic steps, with saves that may fail (with or without having written)
    and a crash possible at any point. The second half is the `run` loop itself.
 */
module LoopCoordinator {
  import opened Wrappers
  import opened Ordering

  type Stage = string

  datatype StageState =
    | StageCompleted | StageBlocked | StageBlockedByEnvironment | StageFailed | StageOther(text: string)

  function StateText(state: StageState): string {
    match state
    case StageCompleted => "COMPLETED"
    case StageBlocked => "BLOCKED"
    case StageBlockedByEnvironment => "BLOCKED_BY_ENVIRONMENT"
    case StageFailed => "FAILED"
    case StageOther(text) => text
  }

  datatype StageResult = StageResult(stage: Stage, state: StageState, message: string)

  /** `Planned` stands for any status other than the four the coordinator writes. */
  datatype LoopStatus = Planned(text: string) | Running | Blocked | Failed | Completed

  datatype Execution = Execution(
    id: string,
    projectID: string,
    stages: seq<Stage>,
    status: LoopStatus,
    currentStage: Stage,
    results: map<Stage, StageResult>,
    error: string)
  {
    predicate Done(s: Stage) {
      s in results && results[s].state.StageCompleted?
    }

    /** `Start` refuses executions without ids or stages. */
    predicate Startable() {
      id != "" && projectID != "" && stages != []
    }

    /** What `Start` saves. */
    function Prepared(): Execution
      requires stages != []
    {
      this.(currentStage := if currentStage == "" then stages[0] else currentStage, status := Running)
    }

    /** What `run` saves before it executes a stage. */
    function Entering(s: Stage): Execution {
      this.(currentStage := s)
    }

    /** What `run` holds after the executor answered for a stage: a result or an error. */
    function Concluded(s: Stage, answer: Result<StageResult, string>): Execution {
      match answer
      case Failure(e) =>
        this.(error := e, status := LoopStatus.Failed, results := results[s := StageResult(s, StageFailed, e)])
      case Success(r) =>
        var e := this.(results := results[s := r]);
        if r.state.StageBlocked? || r.state.StageBlockedByEnvironment? then e.(status := LoopStatus.Blocked)
        else if !r.state.StageCompleted?
        then e.(status := LoopStatus.Failed, error := "stage " + s + " ended in " + StateText(r.state))
        else e
    }

    /** What `run` saves when no stage is left. */
    function Closed(): Execution {
      this.(currentStage := "", status := LoopStatus.Completed)
    }

    /** The completed stages form a prefix of the stages, and a completed execution has
        completed them all.
     */
    ghost predicate Consistent() {
      Ordered() && (status.Completed? ==> AllDone())
    }

    ghost predicate Ordered() {
      && Distinct(stages)
      && (forall i, j :: 0 <= i < j < |stages| && Done(stages[j]) ==> Done(stages[i]))
    }

    ghost predicate AllDone() {
      forall s :: s in stages ==> Done(s)
    }
  }

  /** `a` and `b` are checkpoints of the same loop with the same completed stages. */
  ghost predicate SameProgress(a: Execution, b: Execution) {
    a.id == b.id && a.stages == b.stages && forall s :: a.Done(s) <==> b.Done(s)
  }

  // ---------------------------------------------------------------- the machine

  /** A caller of `Start` or a `run` goroutine between two of its steps. */
  datatype Proc =
    | Committing(exec: Execution)            // Start, about to save
    | Spawned(loop: string)                  // go c.run, not yet registered
    | Registered(loop: string)               // holds running[id], about to load
    | AtStage(exec: Execution, i: nat)       // head of the stage loop
    | Entered(exec: Execution, i: nat)       // about to execute stage i
    | Executed(exec: Execution, i: nat)      // about to save the result of stage i
    | Closing(exec: Execution)               // about to save the completed execution
    | Exiting(loop: string)                  // about to drop running[id]
  {
    function Id(): string {
      if Spawned? || Registered? || Exiting? then loop else exec.id
    }

    /** Past the check of `running` and not yet past its removal. */
    predicate Active() { !Committing? && !Spawned? }
  }

  datatype Machine = Machine(disk: map<string, Execution>, running: set<string>, procs: map<nat, Proc>)

  /** `wrote` says whether a save reached the store, `ok` whether it reported success. */
  datatype Action =
    | Start(p: nat, exec: Execution)
    | Resume(p: nat, loop: string)
    | Commit(p: nat, wrote: bool, ok: bool)
    | Register(p: nat)
    | Load(p: nat, ok: bool)
    | Advance(p: nat, wrote: bool)
    | Execute(p: nat, answer: Result<StageResult, string>)
    | Save(p: nat, wrote: bool, ok: bool)
    | Close(p: nat, wrote: bool)
    | Exit(p: nat)
    | Crash

  predicate Enabled(m: Machine, a: Action) {
    match a
    case Start(p, exec) => p !in m.procs && exec.Startable()
    case Resume(p, id) => p !in m.procs && id in m.disk && !m.disk[id].status.Completed? && m.disk[id].Startable()
    case Commit(p, wrote, ok) => p in m.procs && m.procs[p].Committing? && (ok ==> wrote)
    case Register(p) => p in m.procs && m.procs[p].Spawned?
    case Load(p, ok) => p in m.procs && m.procs[p].Registered?
    case Advance(p, wrote) => p in m.procs && m.procs[p].AtStage?
    case Execute(p, answer) => p in m.procs && m.procs[p].Entered? && m.procs[p].i < |m.procs[p].exec.stages|
    case Save(p, wrote, ok) =>
      p in m.procs && m.procs[p].Executed? && m.procs[p].i < |m.procs[p].exec.stages| && (ok ==> wrote)
    case Close(p, wrote) => p in m.procs && m.procs[p].Closing?
    case Exit(p) => p in m.procs && m.procs[p].Exiting?
    case Crash => true
  }

  function Written(disk: map<string, Execution>, e: Execution, wrote: bool): map<string, Execution> {
    if wrote then disk[e.id := e] else disk
  }

  function Apply(m: Machine, a: Action): Machine
    requires Enabled(m, a)
  {
    match a
    case Start(p, exec) => m.(procs := m.procs[p := Committing(exec.Prepared())])
    case Resume(p, id) => m.(procs := m.procs[p := Committing(m.disk[id].Prepared())])
    case Commit(p, wrote, ok) =>
      var e := m.procs[p].exec;
      m.(disk := Written(m.disk, e, wrote), procs := if ok then m.procs[p := Spawned(e.id)] else m.procs - {p})
    case Register(p) =>
      var id := m.procs[p].loop;
      if id in m.running then m.(procs := m.procs - {p})
      else m.(running := m.running + {id}, procs := m.procs[p := Registered(id)])
    case Load(p, ok) =>
      var id := m.procs[p].loop;
      m.(procs := m.procs[p := if ok && id in m.disk then AtStage(m.disk[id], 0) else Exiting(id)])
    case Advance(p, wrote) =>
      var AtStage(e, i) := m.procs[p];
      if i >= |e.stages| then m.(procs := m.procs[p := Closing(e)])
      else if e.Done(e.stages[i]) then m.(procs := m.procs[p := AtStage(e, i + 1)])
      else
        var entering := e.Entering(e.stages[i]);
        m.(disk := Written(m.disk, entering, wrote), procs := m.procs[p := Entered(entering, i)])
    case Execute(p, answer) =>
      var Entered(e, i) := m.procs[p];
      m.(procs := m.procs[p := Executed(e.Concluded(e.stages[i], answer), i)])
    case Save(p, wrote, ok) =>
      var Executed(e, i) := m.procs[p];
      m.(disk := Written(m.disk, e, wrote),
         procs := m.procs[p := if e.Done(e.stages[i]) && ok then AtStage(e, i + 1) else Exiting(e.id)])
    case Close(p, wrote) =>
      var e := m.procs[p].exec.Closed();
      m.(disk := Written(m.disk, e, wrote), procs := m.procs[p := Exiting(e.id)])
    case Exit(p) => m.(running := m.running - {m.procs[p].loop}, procs := m.procs - {p})
    case Crash => m.(running := {}, procs := map[])
  }

  // --------------------------------------- one active run per loop, in every interleaving

  predicate Keyed(disk: map<string, Execution>) {
    forall id :: id in disk ==> disk[id].id == id
  }

  ghost predicate Exclusive(m: Machine) {
    Keyed(m.disk) && ActiveRegistered(m) && ActiveApart(m)
  }

  ghost predicate ActiveRegistered(m: Machine) {
    forall p :: p in m.procs && m.procs[p].Active() ==> m.procs[p].Id() in m.running
  }

  ghost predicate ActiveApart(m: Machine) {
    forall p, q :: p in m.procs && q in m.procs && p != q && m.procs[p].Active() && m.procs[q].Active() ==>
                     m.procs[p].Id() != m.procs[q].Id()
  }

  /** Whatever callers race, two goroutines never both run the same loop. */
  lemma ExclusiveStep(m: Machine, a: Action)
    requires Exclusive(m) && Enabled(m, a)
    ensures Exclusive(Apply(m, a))
  {
    hide Execution.Done, Execution.Startable, ActiveRegistered, ActiveApart;
    RegisteredStep(m, a);
    ApartStep(m, a);
  }

  lemma RegisteredStep(m: Machine, a: Action)
    requires Exclusive(m) && Enabled(m, a)
    ensures ActiveRegistered(Apply(m, a))
  {
    hide Execution.Done, Execution.Startable;
  }

  lemma ApartStep(m: Machine, a: Action)
    requires Exclusive(m) && Enabled(m, a)
    ensures ActiveApart(Apply(m, a))
  {
    hide Execution.Done, Execution.Startable;
  }

  /** Each action leads from one of the states to the next. */
  ghost predicate Linked(ms: seq<Machine>, acts: seq<Action>) {
    && |ms| == |acts| + 1
    && forall k :: 0 <= k < |acts| ==> Enabled(ms[k], acts[k]) && ms[k + 1] == Apply(ms[k], acts[k])
  }

  lemma Extend(ms: seq<Machine>, acts: seq<Action>, a: Action, m: Machine)
    returns (ms': seq<Machine>, acts': seq<Action>)
    requires Linked(ms, acts) && Enabled(ms[|acts|], a) && m == Apply(ms[|acts|], a)
    ensures Linked(ms', acts') && acts' == acts + [a] && ms' == ms + [m] && |ms'| == |acts'| + 1
  {
    hide Enabled, Apply;
    ms', acts' := ms + [m], acts + [a];
    forall k | 0 <= k < |acts'| ensures Enabled(ms'[k], acts'[k]) && ms'[k + 1] == Apply(ms'[k], acts'[k]) {
      if k < |acts| {
        assert ms'[k] == ms[k] && ms'[k + 1] == ms[k + 1] && acts'[k] == acts[k];
      }
    }
  }

  ghost predicate History(ms: seq<Machine>, acts: seq<Action>) {
    Linked(ms, acts) && Keyed(ms[0].disk) && ms[0].procs == map[]
  }

  lemma {:induction false} OneRunPerLoop(ms: seq<Machine>, acts: seq<Action>, k: nat)
    requires History(ms, acts) && k <= |acts|
    ensures Exclusive(ms[k])
  {
    hide Enabled, Apply;
    if k > 0 {
      OneRunPerLoop(ms, acts, k - 1);
      ExclusiveStep(ms[k - 1], acts[k - 1]);
    }
  }

  // ------------------------------------------------ checkpoints of calm histories

  ghost predicate Idle(m: Machine, id: string) {
    forall p :: p in m.procs ==> m.procs[p].Id() != id
  }

  /** Calls that do not race an active run: a loop is started or resumed only while nothing
      else works on it, and it is started with distinct stages of which it may hold a prefix
      as completed; a fresh one holds none.
   */
  ghost predicate Calm(m: Machine, a: Action) {
    match a
    case Start(_, e) => Idle(m, e.id) && e.Ordered()
    case Resume(_, id) => Idle(m, id)
    case _ => true
  }

  /** The stages before the i-th are completed. */
  ghost predicate DoneBefore(e: Execution, i: nat) {
    i <= |e.stages| && forall j :: 0 <= j < i ==> e.Done(e.stages[j])
  }

  /** The completed stages are exactly the first `n`. */
  ghost predicate DoneExactly(e: Execution, n: nat) {
    n <= |e.stages| && forall i :: 0 <= i < |e.stages| ==> (e.Done(e.stages[i]) <==> i < n)
  }

  ghost predicate Persisted(disk: map<string, Execution>, e: Execution) {
    e.id in disk && SameProgress(disk[e.id], e)
  }

  /** What a process knows agrees with what is persisted. */
  ghost predicate ProcOk(disk: map<string, Execution>, proc: Proc) {
    match proc
    case Committing(e) => e.Startable() && e.Consistent() && e.status.Running?
    case Spawned(id) => id in disk
    case Registered(id) => id in disk
    case AtStage(e, i) => Persisted(disk, e) && e.Startable() && e.Consistent() && DoneBefore(e, i)
    case Entered(e, i) =>
      && Persisted(disk, e) && e.Startable() && e.Consistent() && DoneBefore(e, i)
      && i < |e.stages| && !e.Done(e.stages[i])
    case Executed(e, i) =>
      && e.id in disk && disk[e.id].stages == e.stages && i < |e.stages|
      && e.Startable() && e.Consistent() && DoneBefore(e, i)
      && forall s :: e.Done(s) <==> disk[e.id].Done(s) || (s == e.stages[i] && e.Done(s))
    case Closing(e) => Persisted(disk, e) && e.Startable() && e.Consistent() && e.AllDone()
    case Exiting(id) => true
  }

  ghost predicate DiskOk(disk: map<string, Execution>) {
    Keyed(disk) && forall id :: id in disk ==> disk[id].Startable() && disk[id].Consistent()
  }

  ghost predicate CalmInv(m: Machine) {
    && DiskOk(m.disk)
    && (forall p :: p in m.procs ==> ProcOk(m.disk, m.procs[p]))
    && (forall p, q :: p in m.procs && q in m.procs && p != q ==> m.procs[p].Id() != m.procs[q].Id())
  }

  /** A save by one process does not concern the processes of other loops. */
  lemma WriteIsLocal(disk: map<string, Execution>, e: Execution, wrote: bool, proc: Proc)
    requires ProcOk(disk, proc) && proc.Id() != e.id
    ensures ProcOk(Written(disk, e, wrote), proc)
  {
  }

  lemma ConcludedOk(disk: map<string, Execution>, e: Execution, i: nat, answer: Result<StageResult, string>)
    requires ProcOk(disk, Entered(e, i))
    ensures ProcOk(disk, Executed(e.Concluded(e.stages[i], answer), i))
    ensures e.Concluded(e.stages[i], answer).id == e.id
  {
    var s := e.stages[i];
    var c := e.Concluded(s, answer);
    assert forall t :: t != s ==> (c.Done(t) <==> e.Done(t));
    assert forall j :: 0 <= j < |e.stages| && j != i ==> e.stages[j] != s;
    assert forall j :: i < j < |e.stages| ==> !e.Done(e.stages[j]);
    assert !e.status.Completed?;
  }

  /** The steps that change nothing on disk. */
  lemma CallStep(m: Machine, a: Action)
    requires CalmInv(m) && Enabled(m, a) && Calm(m, a) && (a.Start? || a.Resume?)
    ensures CalmInv(Apply(m, a))
  {
    hide ProcOk, DiskOk, Execution.Concluded, Execution.Startable, Execution.Done;
    if a.Start? {
      PreparedNew(m.disk, a.exec);
    } else {
      PreparedAgain(m.disk, a.loop);
    }
  }

  lemma QuietStep(m: Machine, a: Action)
    requires CalmInv(m) && Enabled(m, a)
    requires a.Register? || a.Load? || a.Execute? || a.Exit? || a.Crash?
    ensures CalmInv(Apply(m, a))
  {
    hide ProcOk, DiskOk, Execution.Concluded, Execution.Done;
    match a {
      case Register(p) => RegisterOk(m.disk, m.procs[p].loop);
      case Load(p, ok) => LoadOk(m.disk, m.procs[p].loop, ok);
      case Execute(p, answer) => ConcludedOk(m.disk, m.procs[p].exec, m.procs[p].i, answer);
      case Exit(p) =>
      case Crash =>
    }
  }

  lemma PreparedNew(disk: map<string, Execution>, e: Execution)
    requires e.Startable() && e.Ordered()
    ensures ProcOk(disk, Committing(e.Prepared())) && e.Prepared().id == e.id
  {
  }

  lemma PreparedAgain(disk: map<string, Execution>, id: string)
    requires DiskOk(disk) && id in disk && disk[id].Startable()
    ensures ProcOk(disk, Committing(disk[id].Prepared())) && disk[id].Prepared().id == id
  {
  }

  lemma RegisterOk(disk: map<string, Execution>, id: string)
    requires ProcOk(disk, Spawned(id))
    ensures ProcOk(disk, Registered(id))
  {
  }

  lemma LoadOk(disk: map<string, Execution>, id: string, ok: bool)
    requires ProcOk(disk, Registered(id)) && DiskOk(disk)
    ensures id in disk && disk[id].id == id
    ensures ProcOk(disk, AtStage(disk[id], 0)) && ProcOk(disk, Exiting(id))
  {
  }

  /** The steps that save: what is written is consistent and loses no completed stage, and
      the process agrees with it afterwards.
   */
  lemma SavingStep(m: Machine, a: Action)
    requires CalmInv(m) && Enabled(m, a)
    requires Saving(a)
    ensures CalmInv(Apply(m, a))
  {
    hide ProcOk, DiskOk, Apply, WrittenBy, SaveReaches, Written;
    var m' := Apply(m, a);
    var proc := m.procs[a.p];
    assert ProcOk(m.disk, proc);
    var e := WrittenBy(m, a);
    SavedOk(m, a);
    forall q | q in m'.procs && q != a.p ensures ProcOk(m'.disk, m'.procs[q]) {
      WriteIsLocal(m.disk, e, SaveReaches(m, a), m.procs[q]);
    }
  }

  /** What a saving step tries to write. */
  function WrittenBy(m: Machine, a: Action): Execution
    requires Enabled(m, a) && (Saving(a))
  {
    var e := m.procs[a.p].exec;
    if a.Advance? && m.procs[a.p].i < |e.stages| then e.Entering(e.stages[m.procs[a.p].i])
    else if a.Close? then e.Closed()
    else e
  }

  predicate SaveReaches(m: Machine, a: Action)
    requires Enabled(m, a) && (Saving(a))
  {
    var proc := m.procs[a.p];
    a.wrote && (a.Advance? ==> proc.i < |proc.exec.stages| && !proc.exec.Done(proc.exec.stages[proc.i]))
  }

  predicate Saving(a: Action) { a.Commit? || a.Advance? || a.Save? || a.Close? }

  /** Only the saving process and its own loop's checkpoint change; a run saves no less than
      there was.
   */
  ghost predicate SavedWell(m: Machine, a: Action, m': Machine)
    requires Enabled(m, a) && Saving(a)
  {
    var e := WrittenBy(m, a);
    && m'.disk == Written(m.disk, e, SaveReaches(m, a))
    && DiskOk(m'.disk) && e.id == m.procs[a.p].Id()
    && (a.p in m'.procs ==> ProcOk(m'.disk, m'.procs[a.p]) && m'.procs[a.p].Id() == e.id)
    && (forall q :: q != a.p && q in m'.procs ==> q in m.procs && m'.procs[q] == m.procs[q])
    && (!a.Commit? && e.id in m.disk ==> forall s :: m.disk[e.id].Done(s) ==> e.Done(s))
  }

  lemma CommitOk(m: Machine, a: Action)
    requires DiskOk(m.disk) && Enabled(m, a) && a.Commit? && ProcOk(m.disk, m.procs[a.p])
    ensures SavedWell(m, a, Apply(m, a))
  {
    var m' := Apply(m, a);
  }

  lemma AdvanceOk(m: Machine, a: Action)
    requires DiskOk(m.disk) && Enabled(m, a) && a.Advance? && ProcOk(m.disk, m.procs[a.p])
    ensures SavedWell(m, a, Apply(m, a))
  {
    hide DiskOk, ProcOk, Execution.Done, Execution.Entering;
    var AtStage(e, i) := m.procs[a.p];
    AtStageOk(m.disk, e, i);
    if i < |e.stages| {
      EnteringDone(e, e.stages[i]);
      if !e.Done(e.stages[i]) {
        EnteringOk(m.disk, e, i, a.wrote);
      }
    }
  }

  lemma AtStageOk(disk: map<string, Execution>, e: Execution, i: nat)
    requires ProcOk(disk, AtStage(e, i))
    ensures i <= |e.stages| && e.id in disk && forall s :: disk[e.id].Done(s) <==> e.Done(s)
    ensures i == |e.stages| ==> ProcOk(disk, Closing(e))
    ensures i < |e.stages| && e.Done(e.stages[i]) ==> ProcOk(disk, AtStage(e, i + 1))
  {
  }

  lemma EnteringOk(disk: map<string, Execution>, e: Execution, i: nat, wrote: bool)
    requires DiskOk(disk) && ProcOk(disk, AtStage(e, i)) && i < |e.stages| && !e.Done(e.stages[i])
    ensures var entering := e.Entering(e.stages[i]);
            && DiskOk(Written(disk, entering, wrote)) && ProcOk(Written(disk, entering, wrote), Entered(entering, i))
            && entering.id == e.id && forall s :: entering.Done(s) <==> e.Done(s)
  {
    EnteringDone(e, e.stages[i]);
  }

  lemma EnteringDone(e: Execution, s: Stage)
    ensures e.Entering(s).id == e.id && forall t :: e.Entering(s).Done(t) <==> e.Done(t)
  {
  }

  lemma SaveOk(m: Machine, a: Action)
    requires DiskOk(m.disk) && Enabled(m, a) && a.Save? && ProcOk(m.disk, m.procs[a.p])
    ensures SavedWell(m, a, Apply(m, a))
  {
    var m' := Apply(m, a);
  }

  lemma CloseOk(m: Machine, a: Action)
    requires DiskOk(m.disk) && Enabled(m, a) && a.Close? && ProcOk(m.disk, m.procs[a.p])
    ensures SavedWell(m, a, Apply(m, a))
  {
    var m' := Apply(m, a);
    assert forall s :: WrittenBy(m, a).Done(s) <==> m.procs[a.p].exec.Done(s);
  }

  lemma SavedOk(m: Machine, a: Action)
    requires DiskOk(m.disk) && Enabled(m, a) && Saving(a) && ProcOk(m.disk, m.procs[a.p])
    ensures SavedWell(m, a, Apply(m, a))
  {
    hide DiskOk, ProcOk, SavedWell, Apply;
    match a {
      case Commit(_, _, _) => CommitOk(m, a);
      case Advance(_, _) => AdvanceOk(m, a);
      case Save(_, _, _) => SaveOk(m, a);
      case Close(_, _) => CloseOk(m, a);
    }
  }

  lemma CalmStep(m: Machine, a: Action)
    requires CalmInv(m) && Enabled(m, a) && Calm(m, a)
    ensures CalmInv(Apply(m, a))
  {
    if Saving(a) {
      SavingStep(m, a);
    } else if a.Start? || a.Resume? {
      CallStep(m, a);
    } else {
      QuietStep(m, a);
    }
  }

  /** While calls are calm, one thing only can take a completed stage off the disk: the save of
      a `Start` or `Resume` whose execution lacks that stage.
   */
  lemma CalmLoss(m: Machine, a: Action, id: string, s: Stage)
    requires CalmInv(m) && Enabled(m, a)
    requires id in m.disk && m.disk[id].Done(s)
    ensures id in Apply(m, a).disk
    ensures !Apply(m, a).disk[id].Done(s) <==>
              a.Commit? && a.wrote && m.procs[a.p].exec.id == id && !m.procs[a.p].exec.Done(s)
  {
    if Saving(a) {
      SavedOk(m, a);
    }
  }

  /** `e` has completed all that is completed on disk. */
  ghost predicate Covers(disk: map<string, Execution>, e: Execution) {
    e.id in disk ==> forall s :: disk[e.id].Done(s) ==> e.Done(s)
  }

  /** No process is about to save a loop with less progress than is on disk. */
  ghost predicate CommitsKeep(m: Machine) {
    forall p :: p in m.procs && m.procs[p].Committing? ==> Covers(m.disk, m.procs[p].exec)
  }

  /** A loop that is on disk is started with the stages completed there, if at all. */
  ghost predicate StartsKeep(m: Machine, a: Action) {
    a.Start? ==> Covers(m.disk, a.exec)
  }

  lemma CommitsKeepStep(m: Machine, a: Action)
    requires CalmInv(m) && Enabled(m, a) && Calm(m, a) && CommitsKeep(m) && StartsKeep(m, a)
    ensures CommitsKeep(Apply(m, a))
  {
    hide ProcOk, Execution.Concluded, Execution.Consistent, Execution.Ordered, Execution.Done, Idle;
    var m' := Apply(m, a);
    forall p | p in m'.procs && m'.procs[p].Committing? ensures Covers(m'.disk, m'.procs[p].exec) {
      if Saving(a) {
        SavedElsewhere(m, a, p);
      } else if a.Start? && p == a.p {
        PreparedCovers(m.disk, a.exec);
      } else if a.Resume? && p == a.p {
        PreparedCovers(m.disk, m.disk[a.loop]);
      }
    }
  }

  lemma PreparedCovers(disk: map<string, Execution>, e: Execution)
    requires e.stages != [] && Covers(disk, e)
    ensures Covers(disk, e.Prepared())
  {
  }

  lemma SavedElsewhere(m: Machine, a: Action, p: nat)
    requires CalmInv(m) && Enabled(m, a) && Saving(a) && p in Apply(m, a).procs && p != a.p
    ensures p in m.procs && Apply(m, a).procs[p] == m.procs[p]
    ensures var id := m.procs[p].Id();
            (id in Apply(m, a).disk <==> id in m.disk) && (id in m.disk ==> Apply(m, a).disk[id] == m.disk[id])
  {
    hide ProcOk, DiskOk, Apply, Execution.Done;
    SavedWellDone(m, a);
  }

  lemma SavedWellDone(m: Machine, a: Action)
    requires CalmInv(m) && Enabled(m, a) && Saving(a)
    ensures SavedWell(m, a, Apply(m, a))
  {
    hide SavedWell, Apply;
    SavedOk(m, a);
  }

  /** `ms` are the states of a history that starts after a restart with whatever consistent
      checkpoints are on disk.
   */
  ghost predicate CalmHistory(ms: seq<Machine>, acts: seq<Action>) {
    && Linked(ms, acts) && DiskOk(ms[0].disk) && ms[0].procs == map[]
    && forall k :: 0 <= k < |acts| ==> Calm(ms[k], acts[k])
  }

  lemma {:induction false} HistoryInv(ms: seq<Machine>, acts: seq<Action>, k: nat)
    requires CalmHistory(ms, acts) && k <= |acts|
    ensures CalmInv(ms[k])
  {
    hide CalmInv, Enabled, Apply, Calm, DiskOk;
    if k == 0 {
      EmptyInv(ms[0]);
    } else {
      HistoryInv(ms, acts, k - 1);
      CalmStep(ms[k - 1], acts[k - 1]);
    }
  }

  lemma EmptyInv(m: Machine)
    requires DiskOk(m.disk) && m.procs == map[]
    ensures CalmInv(m)
  {
  }

  /** Over every history of starts, resumptions, failing saves and crashes, what is on disk
      is consistent at every point: completed stages form a prefix, and a loop persisted as
      completed has completed all its stages.
   */
  lemma CheckpointSafety(ms: seq<Machine>, acts: seq<Action>, k: nat, id: string)
    requires CalmHistory(ms, acts) && k <= |acts| && id in ms[k].disk
    ensures var e := ms[k].disk[id];
            && (exists n: nat :: DoneExactly(e, n))
            && (e.status.Completed? ==> forall s :: s in e.stages ==> e.Done(s))
  {
    HistoryInv(ms, acts, k);
    PrefixLength(ms[k].disk[id], 0);
  }

  lemma {:induction false} PrefixLength(e: Execution, n: nat)
    requires e.Consistent() && DoneBefore(e, n)
    ensures exists k: nat :: DoneExactly(e, k)
    decreases |e.stages| - n
  {
    if n < |e.stages| && e.Done(e.stages[n]) {
      PrefixLength(e, n + 1);
    } else {
      assert DoneExactly(e, n);
    }
  }

  /** Moreover no loop is started from less than its checkpoint. */
  ghost predicate CarefulHistory(ms: seq<Machine>, acts: seq<Action>) {
    CalmHistory(ms, acts) && forall k :: 0 <= k < |acts| ==> StartsKeep(ms[k], acts[k])
  }

  lemma {:induction false} CarefulInv(ms: seq<Machine>, acts: seq<Action>, k: nat)
    requires CarefulHistory(ms, acts) && k <= |acts|
    ensures CommitsKeep(ms[k])
  {
    hide CalmInv, Enabled, Apply, Calm, DiskOk, StartsKeep, Execution.Done;
    if k > 0 {
      CarefulInv(ms, acts, k - 1);
      HistoryInv(ms, acts, k - 1);
      CommitsKeepStep(ms[k - 1], acts[k - 1]);
    }
  }

  /** A completed stage stays completed on disk, whatever fails. */
  lemma ProgressKept(m: Machine, a: Action, id: string, s: Stage)
    requires CalmInv(m) && Enabled(m, a) && CommitsKeep(m)
    requires id in m.disk && m.disk[id].Done(s)
    ensures id in Apply(m, a).disk && Apply(m, a).disk[id].Done(s)
  {
    hide CalmInv, Apply, Execution.Done;
    CalmLoss(m, a, id, s);
  }

  lemma {:induction false} DoneStays(ms: seq<Machine>, acts: seq<Action>, j: nat, k: nat, id: string, s: Stage)
    requires CarefulHistory(ms, acts) && j <= k <= |acts|
    requires id in ms[j].disk && ms[j].disk[id].Done(s)
    ensures id in ms[k].disk && ms[k].disk[id].Done(s)
    decreases k
  {
    hide CalmInv, Enabled, Apply, Calm, DiskOk, Execution.Done, CommitsKeep;
    if j < k {
      DoneStays(ms, acts, j, k - 1, id, s);
      HistoryInv(ms, acts, k - 1);
      CarefulInv(ms, acts, k - 1);
      ProgressKept(ms[k - 1], acts[k - 1], id, s);
    }
  }

  /** A stage once persisted as completed is never executed again, by any later run. */
  lemma NeverExecutedAgain(ms: seq<Machine>, acts: seq<Action>, j: nat, k: nat, id: string, s: Stage)
    requires CarefulHistory(ms, acts) && j <= k < |acts|
    requires id in ms[j].disk && ms[j].disk[id].Done(s)
    requires acts[k].Execute? && acts[k].p in ms[k].procs && ms[k].procs[acts[k].p].Entered?
    requires ms[k].procs[acts[k].p].exec.id == id
    ensures var Entered(e, i) := ms[k].procs[acts[k].p];
            i < |e.stages| && e.stages[i] != s
  {
    DoneStays(ms, acts, j, k, id, s);
    HistoryInv(ms, acts, k);
    assert ProcOk(ms[k].disk, ms[k].procs[acts[k].p]);
  }

  // -------------------------------------------------------------- the code itself

  /** What happens to one save: whether it reaches the store, whether it reports success, and
      whether the process dies right after it.
   */
  datatype Fate = Fate(wrote: bool, ok: bool, dies: bool)

  class LoopStore {
    const fate: nat -> Fate
    var saves: nat
    var saved: map<string, Execution>

    constructor (fate: nat -> Fate, saved: map<string, Execution>)
      ensures this.fate == fate && this.saved == saved && saves == 0
    {
      this.fate := fate;
      this.saved := saved;
      saves := 0;
    }

    method Save(e: Execution) returns (f: Fate)
      modifies this
      ensures f.ok ==> f.wrote
      ensures saves == old(saves) + 1 && saved == Written(old(saved), e, f.wrote)
      ensures f.dies == fate(old(saves)).dies && f.ok == fate(old(saves)).ok
    {
      f := fate(saves);
      f := f.(wrote := f.wrote || f.ok);
      saves := saves + 1;
      if f.wrote {
        saved := saved[e.id := e];
      }
    }
  }

  type Answer = Result<StageResult, string>

  /** The answer lets the loop go on. */
  predicate Completes(answer: Answer) { answer.Success? && answer.value.state == StageCompleted }

  /** The result a stage's answer is recorded as. */
  predicate RecordedAs(e: Execution, s: Stage, answer: Answer) {
    && s in e.results
    && (answer.Success? ==> e.results[s] == answer.value)
    && (answer.Failure? ==> e.results[s] == StageResult(s, StageFailed, answer.error))
  }

  /** What an answer that does not complete its stage makes of the loop: an error fails it with
      that error, a block blocks it, any other state fails it with an error that names both.
   */
  predicate StoppedBy(e: Execution, s: Stage, answer: Answer, error: string) {
    && e.currentStage == s
    && (answer.Failure? ==> e.status == LoopStatus.Failed && e.error == answer.error)
    && (answer.Success? && answer.value.state in {StageBlocked, StageBlockedByEnvironment} ==>
         e.status == LoopStatus.Blocked && e.error == error)
    && (answer.Success? && answer.value.state == StageFailed ==>
         e.status == LoopStatus.Failed && e.error == "stage " + s + " ended in " + "FAILED")
    && (answer.Success? && answer.value.state.StageOther? ==>
         e.status == LoopStatus.Failed && e.error == "stage " + s + " ended in " + answer.value.state.text)
  }

  /** `e'` is `e` after its stage `s` was answered. */
  ghost predicate Concludes(e: Execution, s: Stage, answer: Answer, e': Execution) {
    && e' == e.(currentStage := e'.currentStage, status := e'.status, error := e'.error, results := e'.results)
    && e'.currentStage == s && RecordedAs(e', s, answer) && e'.results == e.results[s := e'.results[s]]
    && if Completes(answer) then e'.status == e.status && e'.error == e.error else StoppedBy(e', s, answer, e.error)
  }

  /** From `e0`, the stages `first` to `last` were answered and completed, and nothing else. */
  ghost predicate Worked(e0: Execution, e: Execution, first: nat, last: nat, answers: seq<Answer>) {
    && first <= last <= |e0.stages| && |answers| == last - first
    && e == e0.(currentStage := e.currentStage, results := e.results)
    && (forall j :: 0 <= j < |answers| ==> Completes(answers[j]))
    && Answered(e0, e, first, answers)
  }

  /** The results are those of `e0`, but for the stages from `first` on, which have their answers. */
  ghost predicate Answered(e0: Execution, e: Execution, first: nat, answers: seq<Answer>) {
    && first + |answers| <= |e0.stages|
    && (forall j :: 0 <= j < |answers| ==> RecordedAs(e, e0.stages[first + j], answers[j]))
    && forall s :: s !in e0.stages[first..first + |answers|] ==>
         (s in e.results <==> s in e0.results) && (s in e.results ==> e.results[s] == e0.results[s])
  }

  /** How a loop is left whose saves work: completed if the last answer, if any, completed the
      last stage, and otherwise stopped by the last answer at its stage.
   */
  ghost predicate Ended(e0: Execution, e: Execution, first: nat, answers: seq<Answer>) {
    && e == e0.(currentStage := e.currentStage, status := e.status, error := e.error, results := e.results)
    && Answered(e0, e, first, answers)
    && (forall j :: 0 <= j < |answers| - 1 ==> Completes(answers[j]))
    && if answers == [] || Completes(answers[|answers| - 1])
       then first + |answers| == |e0.stages| && e.currentStage == "" && e.status == Completed && e.error == e0.error
       else StoppedBy(e, e0.stages[first + |answers| - 1], answers[|answers| - 1], e0.error)
  }

  lemma WorkedNone(e0: Execution, first: nat)
    requires first <= |e0.stages|
    ensures Worked(e0, e0, first, first, [])
  {
  }

  lemma WorkedOne(e0: Execution, e: Execution, first: nat, last: nat, answers: seq<Answer>, answer: Answer,
          e': Execution)
    requires Worked(e0, e, first, last, answers) && Distinct(e0.stages) && last < |e0.stages|
    requires Concludes(e, e0.stages[last], answer, e')
    ensures Completes(answer) ==> Worked(e0, e', first, last + 1, answers + [answer])
    ensures !Completes(answer) ==> Ended(e0, e', first, answers + [answer])
  {
    hide RecordedAs, StoppedBy, Completes;
    AnsweredOne(e0, e, first, last, answers, answer, e');
    var more := answers + [answer];
    assert forall j :: 0 <= j < |answers| ==> more[j] == answers[j];
    assert more[|more| - 1] == answer && e0.stages[first + |more| - 1] == e0.stages[last];
    assert e' == e0.(currentStage := e'.currentStage, status := e'.status, error := e'.error, results := e'.results);
  }

  lemma AnsweredOne(e0: Execution, e: Execution, first: nat, last: nat, answers: seq<Answer>, answer: Answer,
          e': Execution)
    requires Answered(e0, e, first, answers) && last == first + |answers| < |e0.stages| && Distinct(e0.stages)
    requires RecordedAs(e', e0.stages[last], answer)
    requires e0.stages[last] in e'.results && e'.results == e.results[e0.stages[last] := e'.results[e0.stages[last]]]
    ensures Answered(e0, e', first, answers + [answer])
  {
    assert e0.stages[first..last + 1] == e0.stages[first..last] + [e0.stages[last]];
    forall j | 0 <= j < |answers| + 1 ensures RecordedAs(e', e0.stages[first + j], (answers + [answer])[j]) {
      if j < |answers| {
        assert RecordedAs(e, e0.stages[first + j], answers[j]);
      }
    }
  }

  lemma WorkedAll(e0: Execution, e: Execution, first: nat, answers: seq<Answer>)
    requires Worked(e0, e, first, |e0.stages|, answers)
    ensures Ended(e0, e.(currentStage := "", status := Completed), first, answers)
  {
    hide Completes;
  }

  class StageExecutor {
    const script: (nat, Execution, Stage) -> Answer
    var executed: seq<Stage>
    var answers: seq<Answer>

    constructor (script: (nat, Execution, Stage) -> Answer)
      ensures this.script == script && executed == [] && answers == []
    {
      this.script := script;
      executed, answers := [], [];
    }

    method ExecuteLoopStage(e: Execution, s: Stage) returns (answer: Answer)
      modifies this
      ensures executed == old(executed) + [s] && answers == old(answers) + [answer]
      ensures answer == script(|old(executed)|, e, s)
    {
      answer := script(|executed|, e, s);
      executed, answers := executed + [s], answers + [answer];
    }
  }

  datatype StartError = InvalidLoop | SaveFailed | NotFound

  class Coordinator {
    const store: LoopStore
    const executor: StageExecutor
    var running: set<string>

    constructor (store: LoopStore, executor: StageExecutor)
      ensures this.store == store && this.executor == executor && running == {}
    {
      this.store := store;
      this.executor := executor;
      running := {};
    }

    /** `None` means that a `run` goroutine for the loop has been spawned. */
    method Start(e: Execution) returns (err: Option<StartError>)
      modifies store
      ensures err == Some(InvalidLoop) <==> !e.Startable()
      ensures !e.Startable() ==> store.saved == old(store.saved)
      ensures e.Startable() ==>
                exists wrote: bool ::
                     (err.None? ==> wrote) && store.saved == Written(old(store.saved), e.Prepared(), wrote)
      ensures e.Startable() && err.None? ==>
                && e.id != "" && e.projectID != "" && e.stages != [] && e.id in store.saved
                && var current := if e.currentStage == "" then e.stages[0] else e.currentStage;
                   store.saved[e.id] == e.(currentStage := current, status := Running)
      ensures err.Some? ==> err.value.InvalidLoop? || err.value.SaveFailed?
    {
      if e.id == "" || e.projectID == "" {
        return Some(InvalidLoop);
      }
      if |e.stages| == 0 {
        return Some(InvalidLoop);
      }
      var prepared := e;
      if prepared.currentStage == "" {
        prepared := prepared.(currentStage := prepared.stages[0]);
      }
      prepared := prepared.(status := Running);
      assert prepared == e.Prepared();
      var f := store.Save(prepared);
      if !f.ok {
        return Some(SaveFailed);
      }
      return None;
    }

    /** A completed loop is left alone; any other is started from its checkpoint. */
    method Resume(id: string) returns (err: Option<StartError>, spawned: bool)
      modifies store
      ensures id !in old(store.saved) ==> err == Some(NotFound)
      ensures id in old(store.saved) && old(store.saved[id]).status.Completed? ==> err.None? && !spawned
      ensures id !in old(store.saved) || old(store.saved[id]).status.Completed? ==> store.saved == old(store.saved)
      ensures id in old(store.saved) && !old(store.saved[id]).status.Completed? && old(store.saved[id]).Startable() ==>
                && spawned == err.None?
                && exists wrote: bool ::
                     && (spawned ==> wrote)
                     && store.saved == Written(old(store.saved), old(store.saved[id]).Prepared(), wrote)
      ensures spawned && id in old(store.saved) && old(store.saved[id]).id == id ==>
                var e := old(store.saved[id]);
                && e.status != Completed && e.stages != [] && id in store.saved
                && var current := if e.currentStage == "" then e.stages[0] else e.currentStage;
                   store.saved[id] == e.(currentStage := current, status := Running)
    {
      if id !in store.saved {
        return Some(NotFound), false;
      }
      var e := store.saved[id];
      if e.status.Completed? {
        return None, false;
      }
      err := Start(e);
      spawned := err.None?;
    }

    /** Saves that the loop has arrived at stage `i`; a failure to do so is ignored. */
    method EnterStage(e: Execution, i: nat, ghost ms: seq<Machine>, ghost acts: seq<Action>)
      returns (e': Execution, dies: bool, ghost ms': seq<Machine>, ghost acts': seq<Action>)
      requires i < |e.stages| && !e.Done(e.stages[i])
      requires Tracked(ms, acts, Machine(store.saved, running, map[0 := AtStage(e, i)]))
      modifies store
      ensures e' == e.Entering(e.stages[i]) && ms <= ms'
      ensures dies == store.fate(old(store.saves)).dies
      ensures Tracked(ms', acts', Machine(store.saved, running, map[0 := Entered(e', i)]))
    {
      hide CalmInv, Linked, Tracked;
      TrackedShape(ms, acts, Machine(store.saved, running, map[0 := AtStage(e, i)]));
      e' := e.(currentStage := e.stages[i]);
      var f := store.Save(e');
      ms', acts' := Track(ms, acts, Advance(0, f.wrote), Machine(store.saved, running, map[0 := Entered(e', i)]));
      dies := f.dies;
    }

    /** Executes stage `i` and takes in the answer. */
    method ExecuteStage(e: Execution, i: nat, ghost ms: seq<Machine>, ghost acts: seq<Action>)
      returns (e': Execution, ghost ms': seq<Machine>, ghost acts': seq<Action>)
      requires i < |e.stages|
      requires Tracked(ms, acts, Machine(store.saved, running, map[0 := Entered(e, i)]))
      modifies executor
      ensures e' == e.Concluded(e.stages[i], executor.script(|old(executor.executed)|, e, e.stages[i]))
      ensures executor.executed == old(executor.executed) + [e.stages[i]] && ms <= ms'
      ensures executor.answers == old(executor.answers) + [executor.script(|old(executor.executed)|, e, e.stages[i])]
      ensures Tracked(ms', acts', Machine(store.saved, running, map[0 := Executed(e', i)]))
    {
      hide CalmInv, Linked, Tracked;
      TrackedShape(ms, acts, Machine(store.saved, running, map[0 := Entered(e, i)]));
      var stage := e.stages[i];
      var answer := executor.ExecuteLoopStage(e, stage);
      match answer {
        case Failure(message) =>
          var result := StageResult(stage, StageFailed, message);
          e' := e.(error := message, status := LoopStatus.Failed, results := e.results[stage := result]);
        case Success(result) =>
          e' := e.(results := e.results[stage := result]);
          if result.state.StageBlockedByEnvironment? || result.state.StageBlocked? {
            e' := e'.(status := LoopStatus.Blocked);
          } else if !result.state.StageCompleted? {
            e' := e'.(status := LoopStatus.Failed,
                      error := "stage " + stage + " ended in " + StateText(result.state));
          }
      }
      ms', acts' := Track(ms, acts, Action.Execute(0, answer),
                          Machine(store.saved, running, map[0 := Executed(e', i)]));
    }

    /** Saves the result of stage `i`; the loop goes on only from a saved completed stage. */
    method SaveStage(e: Execution, i: nat, ghost ms: seq<Machine>, ghost acts: seq<Action>)
      returns (onward: bool, dies: bool, ghost ms': seq<Machine>, ghost acts': seq<Action>)
      requires i < |e.stages|
      requires Tracked(ms, acts, Machine(store.saved, running, map[0 := Executed(e, i)]))
      modifies store
      ensures onward <==> e.Done(e.stages[i]) && store.fate(old(store.saves)).ok
      ensures dies == store.fate(old(store.saves)).dies
      ensures store.fate(old(store.saves)).ok ==> store.saved == old(store.saved)[e.id := e]
      ensures ms <= ms'
      ensures var next := if onward then AtStage(e, i + 1) else Exiting(e.id);
              Tracked(ms', acts', Machine(store.saved, running, map[0 := next]))
    {
      hide CalmInv, Linked, Tracked;
      TrackedShape(ms, acts, Machine(store.saved, running, map[0 := Executed(e, i)]));
      var f := store.Save(e);
      var stage := e.stages[i];
      onward := stage in e.results && e.results[stage].state.StageCompleted? && f.ok;
      ms', acts' := Track(ms, acts, Action.Save(0, f.wrote, f.ok),
        Machine(store.saved, running, map[0 := if onward then AtStage(e, i + 1) else Exiting(e.id)]));
      dies := f.dies;
    }

    /** No save fails and the process survives. */
    ghost predicate SavesWork()
      reads this
    {
      forall k :: store.fate(k).ok && !store.fate(k).dies
    }

    /** Moreover every stage completes. */
    ghost predicate Flawless()
      reads this
    {
      && SavesWork()
      && (forall k, e, s :: executor.script(k, e, s).Success? && executor.script(k, e, s).value.state.StageCompleted?)
    }

    /** The `run` goroutine of one loop. Its effects are a history of the machine above. It
        executes, in order and without a gap, stages starting with the first one that the
        checkpoint it loads does not record as completed; if nothing goes wrong the loop ends
        up persisted as completed.
     */
    method Run(id: string, loadOk: bool)
      returns (died: bool, ghost ms: seq<Machine>, ghost acts: seq<Action>, ghost first: nat, ghost last: nat,
            ghost answers: seq<Answer>)
      requires DiskOk(store.saved) && id in store.saved
      modifies this`running, store, executor
      ensures |ms| == |acts| + 1 && Linked(ms, acts) && CalmInv(ms[|acts|])
      ensures ms[0] == Machine(old(store.saved), old(running), map[0 := Spawned(id)])
      ensures if died then ms[|acts|].disk == store.saved else ms[|acts|] == Machine(store.saved, running, map[])
      ensures first <= last <= |old(store.saved)[id].stages| && DoneExactly(old(store.saved)[id], first)
      ensures executor.executed == old(executor.executed) + old(store.saved)[id].stages[first..last]
      ensures executor.answers == old(executor.answers) + answers && |answers| == last - first
      ensures SavesWork() && loadOk && id !in old(running) ==>
                !died && id in store.saved && Ended(old(store.saved)[id], store.saved[id], first, answers)
      ensures id in old(running) || !loadOk ==> first == last && store.saved == old(store.saved)
      ensures !died ==> running == old(running)
      ensures Flawless() && loadOk && id !in old(running) ==>
                !died && id in store.saved && store.saved[id].status.Completed? && store.saved[id].AllDone()
    {
      hide CalmInv, Linked, Tracked, DoneExactly, Execution.Done, Execution.Concluded, Execution.AllDone, DiskOk;
      first := FirstOpen(store.saved, id);
      last, answers := first, [];
      ms, acts := [Machine(store.saved, running, map[0 := Spawned(id)])], [];
      TrackStart(ms[0], id);
      if id in running {
        ms, acts := Track(ms, acts, Register(0), Machine(store.saved, running, map[]));
        TrackEnd(ms, acts, Machine(store.saved, running, map[]));
        return false, ms, acts, first, last, answers;
      }
      running := running + {id};
      assert running - {id} == old(running);
      ms, acts := Track(ms, acts, Register(0), Machine(store.saved, running, map[0 := Registered(id)]));
      TrackedShape(ms, acts, Machine(store.saved, running, map[0 := Registered(id)]));
      if !loadOk {
        ms, acts := Track(ms, acts, Load(0, false), Machine(store.saved, running, map[0 := Exiting(id)]));
        ms, acts := Leave(id, ms, acts);
        return false, ms, acts, first, last, answers;
      }
      var e := store.saved[id];
      ms, acts := Track(ms, acts, Load(0, true), Machine(store.saved, running, map[0 := AtStage(e, 0)]));
      died, ms, acts, last, answers := RunStages(e, first, ms, acts);
    }

    /** All of one stage that is not completed yet. */
    method RunStage(e: Execution, i: nat, ghost ms: seq<Machine>, ghost acts: seq<Action>)
      returns (e': Execution, onward: bool, died: bool, ghost ms': seq<Machine>, ghost acts': seq<Action>,
            ghost ran: bool, ghost answer: Answer)
      requires i < |e.stages| && DoneExactly(e, i)
      requires Tracked(ms, acts, Machine(store.saved, running, map[0 := AtStage(e, i)]))
      modifies store, executor
      ensures executor.executed == old(executor.executed) + if ran then [e.stages[i]] else []
      ensures executor.answers == old(executor.answers) + if ran then [answer] else []
      ensures ran ==> Concludes(e, e.stages[i], answer, e')
      ensures onward ==> Completes(answer)
      ensures SavesWork() ==>
                && ran && !died && e.id in store.saved && store.saved[e.id] == e'
                && (onward <==> Completes(answer))
      ensures ms <= ms' && !(onward && died)
      ensures onward ==> ran && e'.id == e.id && e'.stages == e.stages && DoneExactly(e', i + 1)
      ensures onward ==> Tracked(ms', acts', Machine(store.saved, running, map[0 := AtStage(e', i + 1)]))
      ensures !onward && !died ==> Tracked(ms', acts', Machine(store.saved, running, map[0 := Exiting(e.id)]))
      ensures died ==>
                |ms'| == |acts'| + 1 && Linked(ms', acts') && CalmInv(ms'[|acts'|]) && ms'[|acts'|].disk == store.saved
      ensures Flawless() ==> onward
    {
      hide CalmInv, Linked, Tracked, DoneExactly, Execution.Done, Execution.Concluded;
      DoneAt(e, i, i);
      TrackedDistinct(ms, acts, store.saved, running, e, i);
      ran, answer := false, Failure("");
      e', died, ms', acts' := EnterStage(e, i, ms, acts);
      if died {
        TrackEnd(ms', acts', Machine(store.saved, running, map[0 := Entered(e', i)]));
        return e', false, true, ms', acts', ran, answer;
      }
      answer := executor.script(|executor.executed|, e', e'.stages[i]);
      e', ms', acts' := ExecuteStage(e', i, ms', acts');
      ran := true;
      ConcludedExactly(e, i, answer);
      ConcludedMeans(e, e.stages[i], answer);
      onward, died, ms', acts' := SaveStage(e', i, ms', acts');
      if died {
        TrackEnd(ms', acts',
                 Machine(store.saved, running, map[0 := if onward then AtStage(e', i + 1) else Exiting(e'.id)]));
        return e', false, true, ms', acts', ran, answer;
      }
    }

    /** Saves the loop as completed. */
    method CloseLoop(e: Execution, ghost ms: seq<Machine>, ghost acts: seq<Action>)
      returns (died: bool, ghost ms': seq<Machine>, ghost acts': seq<Action>)
      requires Tracked(ms, acts, Machine(store.saved, running, map[0 := AtStage(e, |e.stages|)]))
      requires DoneExactly(e, |e.stages|)
      modifies this`running, store
      ensures |ms'| == |acts'| + 1 && ms <= ms' && Linked(ms', acts') && CalmInv(ms'[|acts'|])
      ensures if died then ms'[|acts'|].disk == store.saved else ms'[|acts'|] == Machine(store.saved, running, map[])
      ensures !died ==> running == old(running) - {e.id}
      ensures SavesWork() ==>
                && !died && e.id in store.saved && store.saved[e.id].status.Completed? && store.saved[e.id].AllDone()
                && store.saved[e.id] == e.(currentStage := "", status := Completed)
    {
      hide CalmInv, Linked, Tracked, DoneExactly, Execution.Done, Execution.AllDone;
      ClosedDone(e);
      TrackedShape(ms, acts, Machine(store.saved, running, map[0 := AtStage(e, |e.stages|)]));
      ms', acts' := Track(ms, acts, Advance(0, false), Machine(store.saved, running, map[0 := Closing(e)]));
      TrackedShape(ms', acts', Machine(store.saved, running, map[0 := Closing(e)]));
      var closed := e.(currentStage := "", status := Completed);
      var f := store.Save(closed);
      ms', acts' := Track(ms', acts', Close(0, f.wrote), Machine(store.saved, running, map[0 := Exiting(e.id)]));
      if f.dies {
        TrackEnd(ms', acts', Machine(store.saved, running, map[0 := Exiting(e.id)]));
        return true, ms', acts';
      }
      ms', acts' := Leave(e.id, ms', acts');
      died := false;
    }

    /** The stage loop and what follows it. */
    method RunStages(e0: Execution, ghost first: nat, ghost ms0: seq<Machine>, ghost acts0: seq<Action>)
      returns (died: bool, ghost ms: seq<Machine>, ghost acts: seq<Action>, ghost last: nat,
            ghost answers: seq<Answer>)
      requires Tracked(ms0, acts0, Machine(store.saved, running, map[0 := AtStage(e0, 0)]))
      requires first <= |e0.stages| && DoneExactly(e0, first)
      modifies this`running, store, executor
      ensures |ms| == |acts| + 1 && ms0 <= ms && Linked(ms, acts) && CalmInv(ms[|acts|])
      ensures if died then ms[|acts|].disk == store.saved else ms[|acts|] == Machine(store.saved, running, map[])
      ensures first <= last <= |e0.stages|
      ensures executor.executed == old(executor.executed) + e0.stages[first..last]
      ensures executor.answers == old(executor.answers) + answers && |answers| == last - first
      ensures SavesWork() ==>
                !died && e0.id in store.saved && Ended(e0, store.saved[e0.id], first, answers)
      ensures !died ==> running == old(running) - {e0.id}
      ensures Flawless() ==>
                !died && e0.id in store.saved && store.saved[e0.id].status.Completed? && store.saved[e0.id].AllDone()
    {
      hide CalmInv, Linked, Tracked, DoneExactly, Execution.Done, Execution.Concluded, Execution.AllDone;
      hide Worked, Ended, Concludes, Completes;
      var e := e0;
      ms, acts, last, answers := ms0, acts0, first, [];
      WorkedNone(e0, first);
      TrackedDistinct(ms, acts, store.saved, running, e0, 0);
      var i: nat := 0;
      while i < |e.stages|
        invariant Tracked(ms, acts, Machine(store.saved, running, map[0 := AtStage(e, i)])) && ms0 <= ms
        invariant e.id == e0.id && e.stages == e0.stages && i <= |e.stages|
        invariant first <= last <= |e.stages| && last == Max(first, i) && DoneExactly(e, last)
        invariant executor.executed == old(executor.executed) + e0.stages[first..last]
        invariant running == old(running)
        invariant executor.answers == old(executor.answers) + answers && |answers| == last - first
        invariant Worked(e0, e, first, last, answers)
      {
        DoneAt(e, last, i);
        var stage := e.stages[i];
        DoneMeans(e, stage);
        if stage in e.results && e.results[stage].state.StageCompleted? {
          TrackedShape(ms, acts, Machine(store.saved, running, map[0 := AtStage(e, i)]));
          ms, acts := Track(ms, acts, Advance(0, false), Machine(store.saved, running, map[0 := AtStage(e, i + 1)]));
        } else {
          var onward;
          ghost var ran, answer;
          ghost var before := e;
          e, onward, died, ms, acts, ran, answer := RunStage(e, i, ms, acts);
          if ran {
            WorkedOne(e0, before, first, last, answers, answer, e);
            last, answers := i + 1, answers + [answer];
          }
          if died {
            return true, ms, acts, last, answers;
          }
          if !onward {
            ms, acts := Leave(e0.id, ms, acts);
            return false, ms, acts, last, answers;
          }
        }
        i := i + 1;
      }
      WorkedAll(e0, e, first, answers);
      died, ms, acts := CloseLoop(e, ms, acts);
    }

    /** `defer delete(c.running, id)`. */
    method Leave(id: string, ghost ms: seq<Machine>, ghost acts: seq<Action>)
      returns (ghost ms': seq<Machine>, ghost acts': seq<Action>)
      requires Tracked(ms, acts, Machine(store.saved, running, map[0 := Exiting(id)]))
      modifies this`running
      ensures running == old(running) - {id} && ms <= ms' && |ms'| == |acts'| + 1
      ensures Linked(ms', acts') && CalmInv(ms'[|acts'|])
      ensures ms'[|acts'|] == Machine(store.saved, running, map[])
    {
      hide CalmInv, Linked, Tracked;
      TrackedShape(ms, acts, Machine(store.saved, running, map[0 := Exiting(id)]));
      running := running - {id};
      ms', acts' := Track(ms, acts, Exit(0), Machine(store.saved, running, map[]));
      TrackEnd(ms', acts', Machine(store.saved, running, map[]));
    }
  }

  lemma DoneMeans(e: Execution, s: Stage)
    ensures e.Done(s) <==> s in e.results && e.results[s].state.StageCompleted?
  {
  }

  lemma DoneAt(e: Execution, n: nat, i: nat)
    requires DoneExactly(e, n) && i < |e.stages|
    ensures e.Done(e.stages[i]) <==> i < n
  {
  }

  lemma ConcludedMeans(e: Execution, s: Stage, answer: Answer)
    ensures Concludes(e, s, answer, e.Entering(s).Concluded(s, answer))
    ensures e.Entering(s).Concluded(s, answer).id == e.id
    ensures e.Entering(s).Concluded(s, answer).Done(s) <==> Completes(answer)
  {
  }

  lemma ConcludedExactly(e: Execution, i: nat, answer: Result<StageResult, string>)
    requires i < |e.stages| && DoneExactly(e, i) && Distinct(e.stages)
    ensures var c := e.Entering(e.stages[i]).Concluded(e.stages[i], answer);
            && c.id == e.id && c.stages == e.stages
            && (c.Done(e.stages[i]) ==> DoneExactly(c, i + 1))
            && (c.Done(e.stages[i]) <==> answer.Success? && answer.value.state.StageCompleted?)
  {
  }

  lemma ClosedDone(e: Execution)
    requires DoneExactly(e, |e.stages|)
    ensures e.Closed().AllDone() && e.Closed().status.Completed? && e.Closed().id == e.id
  {
    forall s | s in e.stages ensures e.Closed().Done(s) {
      var i :| 0 <= i < |e.stages| && e.stages[i] == s;
      assert e.Done(e.stages[i]);
    }
  }

  lemma TrackedDistinct(ms: seq<Machine>, acts: seq<Action>, disk: map<string, Execution>, running: set<string>,
          e: Execution, i: nat)
    requires Tracked(ms, acts, Machine(disk, running, map[0 := AtStage(e, i)]))
    ensures Distinct(e.stages)
  {
    assert ProcOk(disk, AtStage(e, i)) by {
      var m := Machine(disk, running, map[0 := AtStage(e, i)]);
      assert 0 in m.procs;
    }
  }

  function Max(a: nat, b: nat): nat { if a < b then b else a }

  lemma FirstOpen(disk: map<string, Execution>, id: string) returns (n: nat)
    requires DiskOk(disk) && id in disk
    ensures n <= |disk[id].stages| && DoneExactly(disk[id], n) && disk[id].id == id
  {
    PrefixLength(disk[id], 0);
    n :| DoneExactly(disk[id], n);
  }

  lemma TrackStart(m: Machine, id: string)
    requires m == Machine(m.disk, m.running, map[0 := Spawned(id)]) && DiskOk(m.disk) && id in m.disk
    ensures Tracked([m], [], m)
  {
    hide DiskOk;
  }

  lemma TrackEnd(ms: seq<Machine>, acts: seq<Action>, now: Machine)
    requires Tracked(ms, acts, now)
    ensures |ms| == |acts| + 1 && Linked(ms, acts) && ms[|acts|] == now && CalmInv(now)
  {
  }

  lemma TrackedShape(ms: seq<Machine>, acts: seq<Action>, now: Machine)
    requires Tracked(ms, acts, now)
    ensures |ms| == |acts| + 1 && ms[|acts|] == now
  {
  }

  /** The states so far are a history in the machine, and the last of them is `now`. */
  ghost predicate Tracked(ms: seq<Machine>, acts: seq<Action>, now: Machine) {
    |ms| == |acts| + 1 && Linked(ms, acts) && ms[|acts|] == now && CalmInv(now)
  }

  lemma Track(ms: seq<Machine>, acts: seq<Action>, a: Action, now: Machine)
    returns (ms': seq<Machine>, acts': seq<Action>)
    requires |ms| == |acts| + 1 && Tracked(ms, acts, ms[|acts|]) && !a.Start? && !a.Resume?
    requires Enabled(ms[|acts|], a) && now == Apply(ms[|acts|], a)
    ensures Tracked(ms', acts', now) && ms <= ms'
  {
    hide CalmInv, Enabled, Apply, Linked;
    CalmStep(ms[|acts|], a);
    ms', acts' := Extend(ms, acts, a, now);
  }
}
