/** Executing one task: the executor as an oracle, which errors are retried, and the
    retry loop.
 */
module Retry {
  import opened Ordering
  import opened TaskGraph

  /** An error as `errors.Is` and `err.Error()` see it. */
  datatype ExecError = ExecError(deadline: bool, canceled: bool, message: string)

  datatype ExecResult = Ok(status: TaskStatus) | Err(error: ExecError)

  datatype Call = Call(task: ID, attempt: int, result: ExecResult)

  type Script = (nat, Task, int) -> ExecResult

  /** An executor whose answers may depend on everything: `script(n, task, attempt)` is what
      the n-th call of the whole run returns. `calls` logs them.
   */
  class Executor {
    const script: Script
    var calls: seq<Call>

    /** From call number `n` on, no answer makes a task eligible again. */
    ghost predicate QuietFrom(n: nat) {
      forall k, task, attempt :: k >= n ==>
        var r := script(k, task, attempt);
        r.Ok? ==> !r.status.Open()
    }

    constructor (script: Script)
      ensures this.script == script && calls == []
    {
      this.script := script;
      calls := [];
    }

    method Execute(task: Task, attempt: int) returns (result: ExecResult)
      modifies this
      ensures result == script(|old(calls)|, task, attempt)
      ensures calls == old(calls) + [Call(task.id, attempt, result)]
    {
      result := script(|calls|, task, attempt);
      calls := calls + [Call(task.id, attempt, result)];
    }
  }

  predicate OccursAt(value: string, part: string, i: nat) {
    i + |part| <= |value| && value[i..i + |part|] == part
  }

  ghost predicate Occurs(value: string, part: string) {
    exists i: nat :: OccursAt(value, part, i)
  }

  method ContainsText(value: string, part: string) returns (found: bool)
    ensures found <==> Occurs(value, part)
  {
    var i := 0;
    while i + |part| <= |value|
      invariant 0 <= i
      invariant forall j: nat :: j < i ==> !OccursAt(value, part, j)
    {
      if OccursAt(value, part, i) {
        return true;
      }
      i := i + 1;
    }
    return false;
  }

  /** A timed-out attempt is retried; so is one whose message mentions a listed text. */
  ghost predicate Retryable(task: Task, error: ExecError) {
    error.deadline ||
    exists item :: item in task.retry.retryableErrors && item != "" && Occurs(error.message, item)
  }

  method IsRetryable(task: Task, error: ExecError) returns (yes: bool)
    ensures yes <==> Retryable(task, error)
  {
    if error.deadline {
      return true;
    }
    var items := task.retry.retryableErrors;
    for k := 0 to |items|
      invariant forall i :: 0 <= i < k && items[i] != "" ==> !Occurs(error.message, items[i])
    {
      if items[k] != "" {
        var found := ContainsText(error.message, items[k]);
        if found {
          return true;
        }
      }
    }
    return false;
  }

  function Attempts(task: Task): (n: nat)
    ensures n >= 1 && n >= task.retry.maxAttempts
  {
    if task.retry.maxAttempts < 1 then 1 else task.retry.maxAttempts
  }

  /** After these results another attempt follows. */
  ghost predicate GoesOn(task: Task, tried: seq<ExecResult>) {
    |tried| < Attempts(task) && forall r :: r in tried ==> r.Err? && Retryable(task, r.error)
  }

  /** These are the results of a finished retry loop: the attempts up to the last were each
      followed by another, the last one was not.
   */
  ghost predicate Settled(task: Task, tried: seq<ExecResult>) {
    tried != [] && GoesOn(task, tried[..|tried| - 1]) && !GoesOn(task, tried)
  }

  /** The status a goroutine stores for its task after its last attempt; before any
      attempt has returned the task is running.
   */
  function StatusAfter(tried: seq<ExecResult>): TaskStatus {
    if tried == [] then Running
    else
      match tried[|tried| - 1]
      case Ok(status) => if status.Unset? then Succeeded else status
      case Err(e) => if e.deadline then TimedOut else if e.canceled then Cancelled else Failed
  }

  /** A finished loop makes between one and max(1, MaxAttempts) attempts; each attempt after
      the first follows a retryable error; and it stops for one of three reasons.
   */
  lemma SettledMeaning(task: Task, tried: seq<ExecResult>)
    requires Settled(task, tried)
    ensures 1 <= |tried| <= (if task.retry.maxAttempts < 1 then 1 else task.retry.maxAttempts)
    ensures forall i :: 0 <= i < |tried| - 1 ==> tried[i].Err? && Retryable(task, tried[i].error)
    ensures var last := tried[|tried| - 1];
            || last.Ok? || !Retryable(task, last.error)
            || |tried| == if task.retry.maxAttempts < 1 then 1 else task.retry.maxAttempts
  {
    var earlier := tried[..|tried| - 1];
    assert tried == earlier + [tried[|tried| - 1]];
    forall i | 0 <= i < |tried| - 1 ensures tried[i].Err? && Retryable(task, tried[i].error) {
      assert earlier[i] in earlier;
    }
  }

  /** One stream of executor answers settles a task at one point only. */
  lemma SettledOnce(task: Task, a: seq<ExecResult>, b: seq<ExecResult>)
    requires Settled(task, a) && Settled(task, b) && a <= b
    ensures a == b
  {
    if |a| < |b| {
      var earlier := b[..|b| - 1];
      assert a <= earlier;
      assert forall r :: r in a ==> r in earlier;
      assert GoesOn(task, a);
      assert false;
    }
    assert b[..|a|] == a;
  }

  /** Extending an unfinished list of attempts by one result. */
  lemma OneMore(task: Task, tried: seq<ExecResult>, r: ExecResult)
    requires GoesOn(task, tried)
    ensures GoesOn(task, tried + [r]) || Settled(task, tried + [r])
    ensures GoesOn(task, tried + [r]) <==>
              r.Err? && Retryable(task, r.error) && |tried| + 1 < Attempts(task)
  {
    var more := tried + [r];
    assert more[..|tried|] == tried;
    assert forall x :: x in more <==> x in tried || x == r;
  }

  /** After a result the loop decides by that result and the number of attempts alone. */
  lemma GoesOnByLast(task: Task, tried: seq<ExecResult>)
    requires GoesOn(task, tried) || Settled(task, tried)
    ensures GoesOn(task, tried) <==>
              tried == [] ||
              (var last := tried[|tried| - 1];
               last.Err? && Retryable(task, last.error) && |tried| < Attempts(task))
  {
    if tried != [] {
      var earlier := tried[..|tried| - 1];
      assert tried == earlier + [tried[|tried| - 1]];
      if GoesOn(task, tried) {
        assert tried[|tried| - 1] in tried;
        assert forall r :: r in earlier ==> r in tried;
      }
      OneMore(task, earlier, tried[|tried| - 1]);
    }
  }

  method WantsAnother(task: Task, tried: seq<ExecResult>) returns (yes: bool)
    requires GoesOn(task, tried) || Settled(task, tried)
    ensures yes <==> GoesOn(task, tried)
  {
    GoesOnByLast(task, tried);
    if tried == [] {
      return true;
    }
    var last := tried[|tried| - 1];
    if last.Ok? {
      return false;
    }
    var attempts := task.retry.maxAttempts;
    if attempts < 1 {
      attempts := 1;
    }
    var retry := IsRetryable(task, last.error);
    return retry && |tried| < attempts;
  }

  /** The logged calls that were made for `id`, in order. */
  function CallsFor(calls: seq<Call>, id: ID): seq<Call> {
    if calls == [] then []
    else CallsFor(calls[..|calls| - 1], id) + (if calls[|calls| - 1].task == id then [calls[|calls| - 1]] else [])
  }

  lemma CallsForAppend(calls: seq<Call>, c: Call, id: ID)
    ensures CallsFor(calls + [c], id) == if c.task == id then CallsFor(calls, id) + [c] else CallsFor(calls, id)
  {
    assert (calls + [c])[..|calls|] == calls;
  }

  lemma {:induction false} CallsForSplit(a: seq<Call>, b: seq<Call>, id: ID)
    ensures CallsFor(a + b, id) == CallsFor(a, id) + CallsFor(b, id)
  {
    if b == [] {
      assert a + b == a;
    } else {
      assert (a + b)[..|a + b| - 1] == a + b[..|b| - 1];
      CallsForSplit(a, b[..|b| - 1], id);
    }
  }

  lemma {:induction false} CallsForMember(calls: seq<Call>, id: ID, c: Call)
    requires c in CallsFor(calls, id)
    ensures c in calls && c.task == id
  {
    var n := |calls| - 1;
    if c in CallsFor(calls[..n], id) {
      CallsForMember(calls[..n], id, c);
    }
  }

  /** The calls that return these results, one attempt after the other. */
  function CallsOf(id: ID, tried: seq<ExecResult>): seq<Call> {
    seq(|tried|, i requires 0 <= i < |tried| => Call(id, i + 1, tried[i]))
  }

  lemma CallsOfAppend(id: ID, tried: seq<ExecResult>, r: ExecResult)
    ensures CallsOf(id, tried + [r]) == CallsOf(id, tried) + [Call(id, |tried| + 1, r)]
  {
  }

  /** Every call from number `from` on was made for a running copy of one of the tasks and
      returned what the executor's script answers it.
   */
  ghost predicate Genuine(script: Script, tasks: map<ID, Task>, calls: seq<Call>, from: nat) {
    forall n :: from <= n < |calls| ==>
      && calls[n].task in tasks
      && calls[n].result == script(n, tasks[calls[n].task].(status := Running), calls[n].attempt)
  }

  /** The retry loop run on its own: it makes exactly the attempts of a settled list and
      hands back the last answer.
   */
  method ExecuteWithRetry(exec: Executor, task: Task) returns (result: ExecResult, ghost tried: seq<ExecResult>)
    modifies exec
    ensures Settled(task, tried) && result == tried[|tried| - 1]
    ensures exec.calls == old(exec.calls) + CallsOf(task.id, tried)
    ensures forall n :: |old(exec.calls)| <= n < |exec.calls| ==>
                          exec.calls[n].result == exec.script(n, task, n - |old(exec.calls)| + 1)
  {
    tried := [];
    var attempts := task.retry.maxAttempts;
    if attempts < 1 {
      attempts := 1;
    }
    assert exec.calls == old(exec.calls) + CallsOf(task.id, tried);
    var attempt := 1;
    while true
      invariant 1 <= attempt <= attempts && |tried| == attempt - 1
      invariant GoesOn(task, tried)
      invariant exec.calls == old(exec.calls) + CallsOf(task.id, tried)
      invariant forall n :: |old(exec.calls)| <= n < |exec.calls| ==>
                              exec.calls[n].result == exec.script(n, task, n - |old(exec.calls)| + 1)
      decreases attempts - attempt
    {
      result := exec.Execute(task, attempt);
      OneMore(task, tried, result);
      CallsOfAppend(task.id, tried, result);
      tried := tried + [result];
      if result.Ok? {
        return;
      }
      var retry := IsRetryable(task, result.error);
      if !retry || attempt == attempts {
        return;
      }
      attempt := attempt + 1;
    }
  }
}
