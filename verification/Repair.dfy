/** The bounded repair loop around the verification engine. */
module Repair {
  import opened Wrappers
  import opened Verification

  /** What repairing may answer: `analyses(n)` is the plan, or the error, of the n-th analysis
      and `repairs(n)` tells whether the n-th execution of a plan succeeds. Without an analyzer
      of its own the loop uses the deterministic one.
   */
  datatype Repairer = Repairer(analyses: Option<nat -> Result<seq<string>, string>>, repairs: Option<nat -> bool>)

  function Targets(failures: seq<FailureReport>): seq<string> {
    seq(|failures|, k requires 0 <= k < |failures| => failures[k].checkID)
  }

  function Analyze(repairer: Repairer, n: nat, failures: seq<FailureReport>): Result<seq<string>, string> {
    if repairer.analyses.Some? then repairer.analyses.value(n)
    else if failures == [] then Failure("no failures to analyze")
    else Success(Targets(failures))
  }

  /** The analyzer's plan; the deterministic one aims at the checks that failed, in order. */
  method AnalyzeFailures(repairer: Repairer, n: nat, failures: seq<FailureReport>)
    returns (plan: Result<seq<string>, string>)
    ensures plan == Analyze(repairer, n, failures)
  {
    if repairer.analyses.Some? {
      return repairer.analyses.value(n);
    }
    if |failures| == 0 {
      return Failure("no failures to analyze");
    }
    var targets: seq<string> := [];
    for k := 0 to |failures|
      invariant |targets| == k && forall i :: 0 <= i < k ==> targets[i] == failures[i].checkID
    {
      targets := targets + [failures[k].checkID];
    }
    assert targets == Targets(failures);
    return Success(targets);
  }

  function Limit(maxAttempts: int): int {
    if maxAttempts < 1 then 1 else maxAttempts
  }

  /** The attempt numbered `n + 1`, made because `run` did not pass. */
  function Attempted(repairer: Repairer, n: nat, run: VerificationRun): RepairAttempt
    requires repairer.repairs.Some?
  {
    var plan := Analyze(repairer, n, run.failures);
    RepairAttempt(n + 1,
                  if plan.Success? && repairer.repairs.value(n) then Passed else Failed,
                  if plan.Success? then plan.value else [])
  }

  /** The history after `k` attempts among the verifications `runs`: attempt `n` answers the
      verification before it, which did not pass, and every success is verified again.
   */
  ghost predicate History(repairer: Repairer, runs: seq<Result<VerificationRun, EngineError>>,
          repairs: seq<RepairAttempt>)
    requires repairer.repairs.Some?
  {
    && |repairs| <= |runs| <= |repairs| + 1
    && (forall n :: 0 <= n < |repairs| ==> runs[n].Success? && runs[n].value.status != Passed
                                           && repairs[n] == Attempted(repairer, n, runs[n].value))
    && (forall n :: 0 <= n < |runs| - 1 ==> repairs[n].status == Passed)
    && (|repairs| == |runs| > 0 ==> repairs[|repairs| - 1].status == Failed)
  }

  lemma HistoryStart(repairer: Repairer, r: Result<VerificationRun, EngineError>)
    requires repairer.repairs.Some?
    ensures History(repairer, [r], [])
  {
  }

  lemma HistoryGrows(repairer: Repairer, runs: seq<Result<VerificationRun, EngineError>>, run: VerificationRun,
          repair: RepairAttempt)
    requires repairer.repairs.Some? && History(repairer, runs, run.repairs) && |runs| == |run.repairs| + 1
    requires runs[|runs| - 1].Success? && runs[|runs| - 1].value.(repairs := run.repairs) == run && run.status != Passed
    requires repair == Attempted(repairer, |run.repairs|, run)
    ensures repair.status == Failed ==> History(repairer, runs, run.repairs + [repair])
    ensures repair.status == Passed ==> Awaiting(repairer, runs, run.repairs + [repair])
  {
    hide Analyze;
    assert run.failures == runs[|runs| - 1].value.failures;
  }

  /** The last repair succeeded and is not verified yet. */
  ghost predicate Awaiting(repairer: Repairer, runs: seq<Result<VerificationRun, EngineError>>,
          repairs: seq<RepairAttempt>)
    requires repairer.repairs.Some?
  {
    && |repairs| == |runs|
    && (forall n :: 0 <= n < |repairs| ==> runs[n].Success? && runs[n].value.status != Passed
                                           && repairs[n] == Attempted(repairer, n, runs[n].value)
                                           && repairs[n].status == Passed)
  }

  lemma Verified(repairer: Repairer, runs: seq<Result<VerificationRun, EngineError>>, repairs: seq<RepairAttempt>,
        r: Result<VerificationRun, EngineError>)
    requires repairer.repairs.Some? && Awaiting(repairer, runs, repairs)
    ensures History(repairer, runs + [r], repairs)
  {
    hide Analyze;
  }

  /** `RepairLoop.Run`. The verifications it made are the last entries of `engine.runs`. */
  method RunWithRepairs(engine: Engine, request: Request, repairer: Repairer, maxAttempts: int)
    returns (r: Result<VerificationRun, EngineError>, ghost runs: seq<Result<VerificationRun, EngineError>>)
    requires engine.ContextStays()
    modifies engine
    ensures engine.runs == old(engine.runs) + runs && 1 <= |runs| <= Limit(maxAttempts) + 1
    ensures runs[0].Failure? || runs[0].value.status == Passed || repairer.repairs.None? ==> runs == [r]
    ensures r.Failure? ==> runs[|runs| - 1] == r
    ensures r.Success? ==> runs[|runs| - 1].Success? && runs[|runs| - 1].value.(repairs := r.value.repairs) == r.value
    ensures r.Success? && repairer.repairs.Some? ==>
              && History(repairer, runs, r.value.repairs) && |r.value.repairs| <= Limit(maxAttempts)
              && (r.value.status == Passed || |r.value.repairs| == Limit(maxAttempts) || |r.value.repairs| == |runs|)
    ensures r.Success? && repairer.repairs.None? ==> r.value.repairs == []
  {
    hide History, Analyze, ValidChecks, Profile, IsSorting, Engine.Accounted, Engine.ContextStays;
    var max := maxAttempts;
    if max < 1 {
      max := 1;
    }
    r := engine.Run(request);
    runs := [r];
    if repairer.repairs.Some? {
      HistoryStart(repairer, r);
    }
    if r.Failure? || r.value.status == Passed || repairer.repairs.None? {
      return;
    }
    var run := r.value;
    var attempt := 1;
    while attempt <= max && run.status != Passed
      invariant 1 <= attempt <= max + 1 && engine.runs == old(engine.runs) + runs
      invariant |runs| == attempt == |run.repairs| + 1 && History(repairer, runs, run.repairs)
      invariant runs[|runs| - 1].Success? && runs[|runs| - 1].value.(repairs := run.repairs) == run
      invariant runs[0].Success? && runs[0].value.status != Passed
      decreases max - attempt
    {
      var plan := AnalyzeFailures(repairer, attempt - 1, run.failures);
      var repaired := plan.Success? && repairer.repairs.value(attempt - 1);
      var targets := if plan.Success? then plan.value else [];
      var repair := RepairAttempt(attempt, if repaired then Passed else Failed, targets);
      HistoryGrows(repairer, runs, run, repair);
      run := run.(repairs := run.repairs + [repair]);
      if !repaired {
        break;
      }
      var prior := run.repairs;
      r := engine.Run(request);
      Verified(repairer, runs, prior, r);
      runs := runs + [r];
      if r.Failure? {
        return;
      }
      assert prior + r.value.repairs == prior;
      run := r.value.(repairs := prior + r.value.repairs);
      attempt := attempt + 1;
    }
    r := Success(run);
  }

  /** What the history says: attempts are numbered from one, all but possibly the last
      succeeded, and there is one verification more than there were successful repairs.
   */
  lemma HistoryMeaning(repairer: Repairer, runs: seq<Result<VerificationRun, EngineError>>, repairs: seq<RepairAttempt>)
    requires repairer.repairs.Some? && History(repairer, runs, repairs) && runs != []
    ensures forall n :: 0 <= n < |repairs| ==> repairs[n].attempt == n + 1
    ensures forall n :: 0 <= n < |repairs| - 1 ==> repairs[n].status == Passed
    ensures |runs| == |repairs| + 1 || (|runs| == |repairs| && repairs[|repairs| - 1].status == Failed)
    ensures repairer.analyses.None? ==>
              forall n :: 0 <= n < |repairs| ==>
                repairs[n].targets == Targets(runs[n].value.failures)
                && (repairs[n].status == Passed ==> runs[n].value.failures != [])
  {
  }
}
