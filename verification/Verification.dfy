/** The verification engine: a validated list of dependent checks run in id order, with
    retries, cancellation, and a verdict from the required checks.
 */
module Verification {
  import opened Wrappers
  import opened Ordering
  import opened Dag
  import opened VertexList

  datatype Status = Pending | Running | Passed | Failed | Cancelled | TimedOut

  datatype Policy = Strict | Standard | Fast | OtherPolicy

  datatype Check = Check(id: string, kind: string, required: bool, maxAttempts: int, deps: seq<string>) {
    function AsVertex(): Vertex { Vertex(id, deps) }
  }

  datatype FailureReport = FailureReport(checkID: string, cause: string)

  datatype CheckResult = CheckResult(checkID: string, status: Status, failure: Option<FailureReport>)

  datatype Summary = Summary(
    requiredPassed: nat, requiredFailed: nat, optionalPassed: nat, optionalFailed: nat, blocked: nat)

  datatype RepairAttempt = RepairAttempt(attempt: int, status: Status, targets: seq<string>)

  datatype VerificationRun = VerificationRun(
    status: Status, checks: seq<Check>, results: seq<CheckResult>, summary: Summary,
    failures: seq<FailureReport>, repairs: seq<RepairAttempt>)

  datatype Request = Request(projectID: string, policy: Policy, checks: seq<Check>)

  datatype EngineError = NoProject | DuplicateCheck | CheckCycle | MissingDependency

  const DEPENDENCY_FAILED := "dependency check did not pass"

  // ------------------------------------------------------------------- the checks

  function RequiredCheck(id: string, kind: string, deps: seq<string>): Check {
    Check(id, kind, true, 1, deps)
  }

  /** The checks of a request: its own or, if it lists none, those of its policy. */
  function Profile(policy: Policy, checks: seq<Check>): seq<Check> {
    if checks != [] then checks
    else
      var build, tests := RequiredCheck("build", "BUILD", []), RequiredCheck("tests", "UNIT_TEST", []);
      match policy
      case Strict => [build, tests, RequiredCheck("security", "SECURITY", [])]
      case Fast => [build, tests]
      case Standard => [build, tests, RequiredCheck("runtime", "RUNTIME_HEALTH", ["build"])]
      case OtherPolicy => [build, tests, RequiredCheck("runtime", "RUNTIME_HEALTH", ["build"])]
  }

  method ProfileOf(policy: Policy, checks: seq<Check>) returns (profile: seq<Check>)
    ensures profile == Profile(policy, checks)
    ensures checks != [] ==> profile == checks
    ensures checks == [] ==> DefaultChecks(policy, profile)
  {
    if |checks| > 0 {
      return checks;
    }
    var build := Check("build", "BUILD", true, 1, []);
    var tests := Check("tests", "UNIT_TEST", true, 1, []);
    match policy {
      case Strict => return [build, tests, Check("security", "SECURITY", true, 1, [])];
      case Fast => return [build, tests];
      case Standard => return [build, tests, Check("runtime", "RUNTIME_HEALTH", true, 1, ["build"])];
      case OtherPolicy => return [build, tests, Check("runtime", "RUNTIME_HEALTH", true, 1, ["build"])];
    }
  }

  /** What runs when a request lists no checks: build and tests, under the strict policy a security
      scan, and unless the policy is strict or fast a look at the runtime, which needs the
      build; each is required and tried once.
   */
  predicate DefaultChecks(policy: Policy, checks: seq<Check>) {
    && (forall c :: c in checks ==> c.required && c.maxAttempts == 1)
    && (forall i, j :: 0 <= i < j < |checks| ==> checks[i].id != checks[j].id)
    && (forall c :: c in checks ==>
         || (c.id == "build" && c.kind == "BUILD" && c.deps == [])
         || (c.id == "tests" && c.kind == "UNIT_TEST" && c.deps == [])
         || (policy == Strict && c.id == "security" && c.kind == "SECURITY" && c.deps == [])
         || (policy != Strict && policy != Fast
             && c.id == "runtime" && c.kind == "RUNTIME_HEALTH" && c.deps == ["build"]))
    && |checks| == if policy == Fast then 2 else 3
  }

  function Vertices(checks: seq<Check>): (vs: seq<Vertex>)
    ensures |vs| == |checks| && forall k :: 0 <= k < |checks| ==> vs[k] == checks[k].AsVertex()
  {
    seq(|checks|, k requires 0 <= k < |checks| => checks[k].AsVertex())
  }

  function Dependencies(checks: seq<Check>): Edges {
    EdgesOf(Vertices(checks))
  }

  ghost predicate ValidChecks(checks: seq<Check>) {
    Workable(Vertices(checks))
  }

  /** `ValidateChecks`: the same acyclicity the provisioning steps are held to. */
  method ValidateChecks(checks: seq<Check>) returns (err: Option<EngineError>)
    ensures err.None? <==> ValidChecks(checks)
    ensures err == Some(DuplicateCheck) <==> !Named(Vertices(checks))
    ensures err == Some(CheckCycle) ==> exists c :: c in checks && OnCycle(Dependencies(checks), c.id)
    ensures err == Some(MissingDependency) ==>
              exists c, d :: c in checks && d in c.deps && forall other :: other in checks ==> other.id != d
    ensures err != Some(NoProject)
  {
    hide EdgesOf, Workable, Named, OnCycle;
    var vs := Vertices(checks);
    var e := Validate(vs);
    if e.None? {
      return None;
    }
    match e.value {
      case Unnamed => return Some(DuplicateCheck);
      case Duplicate(_) => return Some(DuplicateCheck);
      case Cycle(id) =>
        CycleIsOfACheck(checks, id);
        return Some(CheckCycle);
      case Missing(id, dep) =>
        MissingIsOfACheck(checks, id, dep);
        return Some(MissingDependency);
    }
  }

  lemma CycleIsOfACheck(checks: seq<Check>, id: string)
    requires OnCycle(Dependencies(checks), id)
    ensures exists c :: c in checks && OnCycle(Dependencies(checks), c.id)
  {
    hide EdgesOf;
    var vs := Vertices(checks);
    EdgesMeaning(vs);
    var p :| IsCycle(EdgesOf(vs), p) && p[0] == id;
    assert p[1] in Out(EdgesOf(vs), p[0]);
    var i :| 0 <= i < |vs| && vs[i].id == id;
    assert checks[i].id == id;
  }

  lemma MissingIsOfACheck(checks: seq<Check>, id: string, dep: string)
    requires var vs := Vertices(checks);
             exists i :: 0 <= i < |vs| && vs[i].id == id && dep in vs[i].deps &&
                         forall j :: 0 <= j < |vs| ==> vs[j].id != dep
    ensures exists c :: c in checks && dep in c.deps && forall other :: other in checks ==> other.id != dep
  {
    var vs := Vertices(checks);
    var i :| 0 <= i < |vs| && vs[i].id == id && dep in vs[i].deps && forall j :: 0 <= j < |vs| ==> vs[j].id != dep;
    assert dep in checks[i].deps;
    forall other | other in checks ensures other.id != dep {
      var j :| 0 <= j < |checks| && checks[j] == other;
      assert vs[j].id == other.id;
    }
  }

  function Ids(checks: seq<Check>): seq<string> {
    seq(|checks|, k requires 0 <= k < |checks| => checks[k].id)
  }

  /** `cs` holds the checks in ascending order of their ids. */
  ghost predicate IsSorting(checks: seq<Check>, cs: seq<Check>) {
    Ascending(Ids(cs)) && |cs| == |checks| && forall c :: c in cs <==> c in checks
  }

  /** `findCheck`: the check of that id, or a required one that is not in the list. */
  method FindCheck(checks: seq<Check>, id: string) returns (c: Check)
    ensures c.id == id && (c in checks || (c.required && forall d :: d in checks ==> d.id != id))
  {
    for k := 0 to |checks|
      invariant forall d :: d in checks[..k] ==> d.id != id
    {
      if checks[k].id == id {
        return checks[k];
      }
    }
    assert checks[..|checks|] == checks;
    return Check(id, "", true, 0, []);
  }

  lemma FoundIsUnique(checks: seq<Check>, a: Check, b: Check)
    requires Named(Vertices(checks)) && a in checks && b in checks && a.id == b.id
    ensures a == b
  {
    var vs := Vertices(checks);
    var i :| 0 <= i < |checks| && checks[i] == a;
    var j :| 0 <= j < |checks| && checks[j] == b;
    assert vs[i].id == vs[j].id;
  }

  /** `sort.Slice` by id on a copy of the checks. */
  method SortChecks(checks: seq<Check>) returns (cs: seq<Check>)
    requires Named(Vertices(checks))
    ensures IsSorting(checks, cs)
  {
    hide Named, Below, Ascending, Ids, Vertices;
    var ids := SortIds(set c | c in checks :: c.id);
    cs := [];
    assert Ids([]) == ids[..0] by { NoIds(); }
    for k := 0 to |ids|
      invariant |cs| == k && Ids(cs) == ids[..k]
      invariant forall c :: c in cs ==> c in checks
    {
      assert ids[k] in Elems(ids);
      var c := FindCheck(checks, ids[k]);
      IdsStep(ids, cs, c);
      cs := cs + [c];
    }
    SortedAll(checks, ids, cs);
  }

  lemma NoIds()
    ensures Ids([]) == []
  {
  }

  lemma IdsStep(ids: seq<string>, cs: seq<Check>, c: Check)
    requires |cs| < |ids| && Ids(cs) == ids[..|cs|] && c.id == ids[|cs|]
    ensures Ids(cs + [c]) == ids[..|cs| + 1]
  {
    assert Ids(cs + [c]) == Ids(cs) + [c.id];
  }

  lemma SortedAll(checks: seq<Check>, ids: seq<string>, cs: seq<Check>)
    requires Named(Vertices(checks)) && Ascending(ids) && Elems(ids) == set c | c in checks :: c.id
    requires Ids(cs) == ids && forall c :: c in cs ==> c in checks
    ensures IsSorting(checks, cs)
  {
    hide Named, Below;
    forall c | c in checks ensures c in cs {
      assert c.id in Elems(ids);
      var k :| 0 <= k < |ids| && ids[k] == c.id;
      assert cs[k].id == Ids(cs)[k];
      FoundIsUnique(checks, c, cs[k]);
    }
    AscendingDistinct(ids);
    DistinctCount(cs) by {
      forall i, j | 0 <= i < j < |cs| ensures cs[i] != cs[j] {
        assert Ids(cs)[i] != Ids(cs)[j];
      }
    }
    NamedDistinct(checks);
    DistinctCount(checks);
    assert Elems(cs) == Elems(checks);
  }

  lemma NamedDistinct(checks: seq<Check>)
    requires Named(Vertices(checks))
    ensures Distinct(checks)
  {
    var vs := Vertices(checks);
    forall i, j | 0 <= i < j < |checks| ensures checks[i] != checks[j] {
      assert vs[i].id != vs[j].id;
    }
  }

  // ------------------------------------------------------------------ the chronicle

  /** The result of a check that is not executed because of a dependency. */
  function Refused(id: string): CheckResult {
    CheckResult(id, Failed, Some(FailureReport(id, DEPENDENCY_FAILED)))
  }

  /** Check `k` has a dependency that ran before it and did not pass. */
  predicate Held(cs: seq<Check>, results: seq<CheckResult>, k: nat)
    requires k < |cs| && k <= |results|
  {
    exists j :: 0 <= j < k && cs[j].id in cs[k].deps && !results[j].status.Passed?
  }

  ghost predicate Settled(cs: seq<Check>, results: seq<CheckResult>, engaged: seq<string>, k: nat)
    requires k < |results| <= |cs|
  {
    && results[k].checkID == cs[k].id
    && if Held(cs, results, k) then results[k] == Refused(cs[k].id) && cs[k].id !in engaged else cs[k].id in engaged
  }

  /** What a run does with the first `|results|` checks: every one of them gets one result;
      it is refused when held, and engages its adapter, once, when not.
   */
  ghost predicate Chronicle(cs: seq<Check>, results: seq<CheckResult>, engaged: seq<string>) {
    && |results| <= |cs|
    && (forall k :: 0 <= k < |results| ==> Settled(cs, results, engaged, k))
    && (forall id :: id in engaged ==> id in Ids(cs[..|results|]))
    && Distinct(engaged)
  }

  lemma ChronicleStep(cs: seq<Check>, results: seq<CheckResult>, engaged: seq<string>, r: CheckResult)
    requires Chronicle(cs, results, engaged) && Ascending(Ids(cs)) && |results| < |cs| && r.checkID == cs[|results|].id
    ensures Held(cs, results, |results|) && r == Refused(r.checkID) ==> Chronicle(cs, results + [r], engaged)
    ensures !Held(cs, results, |results|) ==> Chronicle(cs, results + [r], engaged + [r.checkID])
  {
    hide Below, Ascending, Held, Settled;
    var n := |results|;
    AscendingDistinct(Ids(cs));
    NotYet(cs, results, engaged);
    var more := results + [r];
    assert cs[..n + 1] == cs[..n] + [cs[n]];
    assert Ids(cs[..n + 1]) == Ids(cs[..n]) + [cs[n].id];
    forall k | 0 <= k < n ensures Settled(cs, more, engaged, k) && Settled(cs, more, engaged + [r.checkID], k) {
      assert Ids(cs)[k] != Ids(cs)[n];
      SettledEarlier(cs, results, engaged, r, k);
    }
    SettledLast(cs, results, engaged, r);
  }

  lemma SettledEarlier(cs: seq<Check>, results: seq<CheckResult>, engaged: seq<string>, r: CheckResult, k: nat)
    requires k < |results| < |cs| && Settled(cs, results, engaged, k) && r.checkID != cs[k].id
    ensures Settled(cs, results + [r], engaged, k) && Settled(cs, results + [r], engaged + [r.checkID], k)
  {
    hide Held;
    HeldEarlier(cs, results, r, k);
  }

  lemma SettledLast(cs: seq<Check>, results: seq<CheckResult>, engaged: seq<string>, r: CheckResult)
    requires |results| < |cs| && r.checkID == cs[|results|].id && r.checkID !in engaged
    ensures Held(cs, results, |results|) && r == Refused(r.checkID) ==> Settled(cs, results + [r], engaged, |results|)
    ensures !Held(cs, results, |results|) ==> Settled(cs, results + [r], engaged + [r.checkID], |results|)
  {
    hide Held;
    HeldEarlier(cs, results, r, |results|);
  }

  lemma NotYet(cs: seq<Check>, results: seq<CheckResult>, engaged: seq<string>)
    requires Chronicle(cs, results, engaged) && Distinct(Ids(cs)) && |results| < |cs|
    ensures cs[|results|].id !in engaged
  {
    hide Held;
    var n := |results|;
    forall i | 0 <= i < n ensures Ids(cs[..n])[i] != cs[n].id {
      assert Ids(cs)[i] != Ids(cs)[n];
    }
  }

  lemma HeldEarlier(cs: seq<Check>, results: seq<CheckResult>, r: CheckResult, k: nat)
    requires k <= |results| < |cs|
    ensures Held(cs, results + [r], k) <==> Held(cs, results, k)
  {
    if Held(cs, results, k) {
      var j :| 0 <= j < k && cs[j].id in cs[k].deps && !results[j].status.Passed?;
      assert !(results + [r])[j].status.Passed?;
    }
  }

  /** When every check sorts behind its dependencies, a check that does not pass keeps all its
      dependents, direct or not, from being executed, and none of them passes.
   */
  lemma {:induction false} FailureSpreads(checks: seq<Check>, cs: seq<Check>, results: seq<CheckResult>,
        engaged: seq<string>, p: seq<string>, k: nat, j: nat)
    requires ValidChecks(checks) && IsSorting(checks, cs) && Topological(Dependencies(checks), Ids(cs))
    requires Chronicle(cs, results, engaged) && k < |results| && j < |results| && !results[j].status.Passed?
    requires IsPath(Dependencies(checks), p) && |p| >= 2 && p[0] == cs[k].id && p[|p| - 1] == cs[j].id
    ensures cs[k].id !in engaged && !results[k].status.Passed?
    decreases |p|
  {
    hide EdgesOf, Below, Workable, Named, Chronicle;
    ChronicleNames(cs, results, engaged);
    DependencyEarlier(checks, cs, k, p[1]);
    var i :| 0 <= i < k && cs[i].id == p[1];
    if |p| == 2 {
      AscendingDistinct(Ids(cs));
      assert Ids(cs)[i] == Ids(cs)[j];
    } else {
      PathTail(Dependencies(checks), p);
      FailureSpreads(checks, cs, results, engaged, p[1..], i, j);
    }
    HeldIsOut(checks, cs, results, engaged, k, i);
  }

  lemma HeldIsOut(checks: seq<Check>, cs: seq<Check>, results: seq<CheckResult>, engaged: seq<string>, k: nat, i: nat)
    requires Chronicle(cs, results, engaged) && i < k < |results| && cs[i].id in cs[k].deps
    requires !results[i].status.Passed?
    ensures cs[k].id !in engaged && !results[k].status.Passed?
  {
    assert Held(cs, results, k) && Settled(cs, results, engaged, k);
  }

  lemma DepsOf(checks: seq<Check>, cs: seq<Check>, k: nat)
    requires ValidChecks(checks) && IsSorting(checks, cs) && k < |cs|
    ensures Out(Dependencies(checks), cs[k].id) == cs[k].deps
  {
    hide EdgesOf, Below;
    EdgesMeaning(Vertices(checks));
    assert cs[k] in checks;
    var i :| 0 <= i < |checks| && checks[i] == cs[k];
    assert Vertices(checks)[i].id == cs[k].id;
  }

  lemma DependencyEarlier(checks: seq<Check>, cs: seq<Check>, k: nat, d: string)
    requires ValidChecks(checks) && IsSorting(checks, cs) && Topological(Dependencies(checks), Ids(cs))
    requires k < |cs| && d in Out(Dependencies(checks), cs[k].id)
    ensures d in cs[k].deps && exists i :: 0 <= i < k && cs[i].id == d
  {
    hide EdgesOf, Below, Workable;
    DepsOf(checks, cs, k);
    assert d in Out(Dependencies(checks), Ids(cs)[k]);
    assert d in Ids(cs)[..k];
    var i :| 0 <= i < k && Ids(cs)[i] == d;
  }

  /** Check `k` depends on check `j`, which has not passed. */
  ghost predicate Unmet(cs: seq<Check>, results: seq<CheckResult>, j: nat, k: nat) {
    j < |results| <= |cs| && k < |results| && cs[j].id in cs[k].deps && !results[j].status.Passed?
  }

  /** Whatever the adapters answer, no check is executed that has a direct dependency whose
      result is not a pass.
   */
  ghost predicate Respected(cs: seq<Check>) {
    forall results: seq<CheckResult>, engaged: seq<string>, j: nat, k: nat ::
      Chronicle(cs, results, engaged) && Unmet(cs, results, j, k) ==> cs[k].id !in engaged
  }

  /** The engine respects dependencies exactly when every check sorts behind its dependencies. */
  lemma RespectedExactly(checks: seq<Check>, cs: seq<Check>)
    requires ValidChecks(checks) && IsSorting(checks, cs)
    ensures Respected(cs) <==> Topological(Dependencies(checks), Ids(cs))
  {
    hide EdgesOf, Below, Chronicle, Workable;
    if Topological(Dependencies(checks), Ids(cs)) {
      forall results: seq<CheckResult>, engaged: seq<string>, j: nat, k: nat |
        Chronicle(cs, results, engaged) && Unmet(cs, results, j, k)
        ensures cs[k].id !in engaged
      {
        DepsOf(checks, cs, k);
        ShortPath(checks, cs[k].id, cs[j].id);
        FailureSpreads(checks, cs, results, engaged, [cs[k].id, cs[j].id], k, j);
      }
    }
    if Respected(cs) {
      AscendingDistinct(Ids(cs));
      forall k, d | 0 <= k < |Ids(cs)| && d in Out(Dependencies(checks), Ids(cs)[k]) ensures d in Ids(cs)[..k] {
        DepsOf(checks, cs, k);
        DependencyListed(checks, cs, k, d);
        var j :| 0 <= j < |cs| && cs[j].id == d;
        if j >= k {
          LaterFailure(cs, j, k);
          assert false;
        }
        assert Ids(cs)[j] == d;
      }
    }
  }

  lemma ShortPath(checks: seq<Check>, a: string, b: string)
    requires b in Out(Dependencies(checks), a)
    ensures IsPath(Dependencies(checks), [a, b])
  {
    hide EdgesOf;
  }

  lemma DependencyListed(checks: seq<Check>, cs: seq<Check>, k: nat, d: string)
    requires ValidChecks(checks) && IsSorting(checks, cs) && k < |cs| && d in cs[k].deps
    ensures exists j :: 0 <= j < |cs| && cs[j].id == d
  {
    hide EdgesOf, Below;
    DepsOf(checks, cs, k);
    var vs := Vertices(checks);
    EdgesMeaning(vs);
    assert cs[k] in checks;
    var i :| 0 <= i < |checks| && checks[i] == cs[k];
    assert vs[i].id in EdgesOf(vs).Keys;
    assert d in EdgesOf(vs).Keys;
    var m :| 0 <= m < |vs| && vs[m].id == d;
    assert checks[m] in cs;
  }

  /** Everything passes up to check `j`, which fails and is the last. */
  function AllPassUpTo(cs: seq<Check>, j: nat): seq<CheckResult>
    requires j < |cs|
  {
    seq(j + 1, i requires 0 <= i <= j => CheckResult(cs[i].id, if i == j then Failed else Passed, None))
  }

  lemma LaterFailureAccount(cs: seq<Check>, j: nat)
    requires Ascending(Ids(cs)) && j < |cs|
    ensures Chronicle(cs, AllPassUpTo(cs, j), Ids(cs[..j + 1]))
  {
    hide Below;
    var results := AllPassUpTo(cs, j);
    var engaged := Ids(cs[..j + 1]);
    AscendingDistinct(Ids(cs));
    assert forall i :: 0 <= i <= j ==> engaged[i] == cs[i].id == Ids(cs)[i];
    assert forall i :: 0 <= i <= j ==> !Held(cs, results, i);
  }

  /** A dependency that sorts later is ignored: in the run in which everything passes up to
      check `j`, which fails and is the last before the run is cancelled, check `k` is executed.
   */
  lemma LaterFailure(cs: seq<Check>, j: nat, k: nat)
    requires Ascending(Ids(cs)) && k <= j < |cs| && cs[j].id in cs[k].deps
    ensures !Respected(cs)
  {
    hide Chronicle, Ascending;
    LaterFailureAccount(cs, j);
    assert Ids(cs[..j + 1])[k] == cs[k].id;
    assert Unmet(cs, AllPassUpTo(cs, j), j, k);
  }

  /** The default checks of every policy can be worked off, in the order they are written in. */
  lemma DefaultsRun(policy: Policy)
    ensures ValidChecks(Profile(policy, []))
  {
    hide EdgesOf, Workable;
    var checks := Profile(policy, []);
    var vs := Vertices(checks);
    assert vs[0] == Vertex("build", []) && vs[1] == Vertex("tests", []);
    assert |vs| == 3 ==> vs[2].deps == [] || vs[2].deps == ["build"];
    EdgesMeaning(vs);
    var order := Ids(checks);
    forall i, d | 0 <= i < |order| && d in Out(EdgesOf(vs), order[i]) ensures d in order[..i] {
      assert vs[i].id == order[i];
      assert order[..2][0] == "build";
    }
    OrderedRuns(checks);
  }

  lemma OrderedRuns(checks: seq<Check>)
    requires Named(Vertices(checks)) && Topological(Dependencies(checks), Ids(checks))
    ensures ValidChecks(checks)
  {
    hide EdgesOf, Named;
    var vs, order := Vertices(checks), Ids(checks);
    EdgesMeaning(vs);
    forall id ensures id in EdgesOf(vs).Keys <==> id in Elems(order) {
      if id in EdgesOf(vs).Keys {
        var i :| 0 <= i < |vs| && vs[i].id == id;
        assert order[i] == id;
      }
      if id in Elems(order) {
        var i :| 0 <= i < |order| && order[i] == id;
        assert vs[i].id == id;
      }
    }
    assert EdgesOf(vs).Keys == Elems(order);
    forall n, d | n in Elems(order) && d in Out(EdgesOf(vs), n) ensures d in Elems(order) {
      var i :| 0 <= i < |order| && order[i] == n;
      assert d in order[..i];
    }
    TopologicalIsAcyclic(EdgesOf(vs), order);
  }

  /** In every policy's default checks the runtime check sorts behind the build it needs, so the
      engine respects their dependencies.
   */
  lemma DefaultsRespected(policy: Policy, cs: seq<Check>)
    requires IsSorting(Profile(policy, []), cs)
    ensures Respected(cs)
  {
    hide EdgesOf, Respected, Profile, ValidChecks;
    var checks := Profile(policy, []);
    DefaultsRun(policy);
    DefaultDeps(policy);
    forall k, d | 0 <= k < |Ids(cs)| && d in Out(Dependencies(checks), Ids(cs)[k]) ensures d in Ids(cs)[..k] {
      DepsOf(checks, cs, k);
      DependencyListed(checks, cs, k, d);
      var j :| 0 <= j < |cs| && cs[j].id == d;
      BuildFirst(cs, j, k);
      assert Ids(cs)[j] == d;
    }
    AscendingDistinct(Ids(cs));
    RespectedExactly(checks, cs);
  }

  lemma DefaultDeps(policy: Policy)
    ensures forall c :: c in Profile(policy, []) ==> c.deps == [] || (c.deps == ["build"] && c.id == "runtime")
  {
  }

  lemma BuildFirst(cs: seq<Check>, j: nat, k: nat)
    requires Ascending(Ids(cs)) && j < |cs| && k < |cs| && cs[j].id == "build" && cs[k].id == "runtime"
    ensures j < k
  {
    assert Ids(cs)[j] == "build" && Ids(cs)[k] == "runtime";
    assert "build"[0] == 'b' && "runtime"[0] == 'r';
    assert !Below("runtime", "build");
  }

  // --------------------------------------------------------------------- the verdict

  function Count(cs: seq<Check>, results: seq<CheckResult>, required: bool, passed: bool): nat
    requires |results| <= |cs|
  {
    if results == [] then 0
    else
      var n := |results| - 1;
      Count(cs, results[..n], required, passed)
      + if cs[n].required == required && results[n].status.Passed? == passed then 1 else 0
  }

  function CountBlocked(results: seq<CheckResult>): nat {
    if results == [] then 0
    else
      CountBlocked(results[..|results| - 1])
      + var f := results[|results| - 1].failure;
        if f.Some? && f.value.cause == DEPENDENCY_FAILED then 1 else 0
  }

  function FailuresOf(results: seq<CheckResult>): seq<FailureReport> {
    if results == [] then []
    else
      FailuresOf(results[..|results| - 1])
      + var f := results[|results| - 1].failure; if f.Some? then [f.value] else []
  }

  function SummaryOf(cs: seq<Check>, results: seq<CheckResult>): Summary
    requires |results| <= |cs|
  {
    Summary(Count(cs, results, true, true), Count(cs, results, true, false),
            Count(cs, results, false, true), Count(cs, results, false, false), CountBlocked(results))
  }

  ghost predicate RequiredPass(cs: seq<Check>, results: seq<CheckResult>)
    requires |results| <= |cs|
  {
    forall k :: 0 <= k < |results| && cs[k].required ==> results[k].status.Passed?
  }

  /** Every result is counted once, and a required failure is counted exactly when there is one. */
  lemma {:induction false} SummaryMeaning(cs: seq<Check>, results: seq<CheckResult>)
    requires |results| <= |cs|
    ensures var s := SummaryOf(cs, results);
            && s.requiredPassed + s.requiredFailed + s.optionalPassed + s.optionalFailed == |results|
            && (s.requiredFailed == 0 <==> RequiredPass(cs, results))
  {
    if results != [] {
      var init := results[..|results| - 1];
      SummaryMeaning(cs, init);
      assert forall k :: 0 <= k < |init| ==> init[k] == results[k];
    }
  }

  method Summarize(checks: seq<Check>, results: seq<CheckResult>, ghost cs: seq<Check>)
    returns (summary: Summary, failures: seq<FailureReport>)
    requires Named(Vertices(checks)) && IsSorting(checks, cs) && |results| <= |cs|
    requires forall k :: 0 <= k < |results| ==> results[k].checkID == cs[k].id
    ensures summary == SummaryOf(cs, results) && failures == FailuresOf(results)
  {
    hide Named;
    summary, failures := Summary(0, 0, 0, 0, 0), [];
    for k := 0 to |results|
      invariant summary == SummaryOf(cs, results[..k]) && failures == FailuresOf(results[..k])
    {
      var result := results[k];
      assert results[..k + 1][..k] == results[..k];
      var check := FindCheck(checks, result.checkID);
      assert cs[k] in checks;
      FoundIsUnique(checks, check, cs[k]);
      if result.failure.Some? && result.failure.value.cause == "dependency check did not pass" {
        summary := summary.(blocked := summary.blocked + 1);
      }
      if result.status == Passed {
        if check.required {
          summary := summary.(requiredPassed := summary.requiredPassed + 1);
        } else {
          summary := summary.(optionalPassed := summary.optionalPassed + 1);
        }
      } else if check.required {
        summary := summary.(requiredFailed := summary.requiredFailed + 1);
      } else {
        summary := summary.(optionalFailed := summary.optionalFailed + 1);
      }
      if result.failure.Some? {
        failures := failures + [result.failure.value];
      }
    }
    assert results[..|results|] == results;
  }

  // ---------------------------------------------------------------------- the engine

  datatype Stop = Canceled | DeadlineExceeded

  /** A stop and the status it gives. */
  predicate StoppedAs(stop: Stop, status: Status) {
    (stop == DeadlineExceeded ==> status == TimedOut) && (stop == Canceled ==> status == Cancelled)
  }

  method StatusOf(stop: Stop) returns (status: Status)
    ensures StoppedAs(stop, status)
  {
    status := Cancelled;
    if stop == DeadlineExceeded {
      status := TimedOut;
    }
  }

  /** What one call of an adapter returns: an error or none, and the evidence it left. */
  datatype Reply = Reply(err: Option<string>, evidence: string)

  /** What `NormalizeResult` makes of a reply. The result names its check, as it does with both
      of the repository's adapters.
   */
  datatype Verdict = Verdict(status: Status, failure: Option<FailureReport>)

  const UNAVAILABLE := "verification adapter is unavailable in this environment"

  function Attempts(check: Check): int {
    if check.maxAttempts < 1 then 1 else check.maxAttempts
  }

  /** The calls `c0` to `c1` and the looks `l0` to `l1` that one check takes, and whether it came
      to an attempt.
   */
  datatype Span = Span(c0: nat, c1: nat, l0: nat, l1: nat, attempted: bool)

  function EndCalls(spans: seq<Span>, c: nat): nat {
    if spans == [] then c else spans[|spans| - 1].c1
  }

  function EndLooks(spans: seq<Span>, l: nat): nat {
    if spans == [] then l else spans[|spans| - 1].l1
  }

  /** An engine among adapters that may answer anything: `replies(n)` answers its n-th call and
      `context(n)` is what the n-th look at the context sees. `engaged` lists the checks
      whose adapter the current run has called, `runs` what every run returned.
   */
  class Engine {
    const replies: nat -> Reply
    const context: nat -> Option<Stop>
    const registered: set<string>
    const normalize: (Check, Reply) -> Verdict
    var calls: nat
    var looks: nat
    var engaged: seq<string>
    var runs: seq<Result<VerificationRun, EngineError>>

    constructor (replies: nat -> Reply, context: nat -> Option<Stop>, registered: set<string>,
            normalize: (Check, Reply) -> Verdict)
      ensures this.replies == replies && this.context == context && this.registered == registered
      ensures this.normalize == normalize
      ensures calls == 0 && looks == 0 && engaged == [] && runs == []
    {
      this.replies, this.context, this.registered, this.normalize := replies, context, registered, normalize;
      calls, looks, engaged, runs := 0, 0, [], [];
    }

    /** A context that is done stays done. */
    ghost predicate ContextStays() {
      forall i: nat, j: nat :: i <= j && context(i).Some? ==> context(j) == context(i)
    }

    /** Some look from the `from`-th up to the latest saw the context done. */
    ghost predicate SawStop(from: nat)
      reads this
    {
      exists i: nat :: from <= i < looks && context(i).Some?
    }

    /** What the adapter for the check returns from call number `n`. */
    function Answer(check: Check, n: nat): Reply {
      if check.kind in registered then replies(n) else Reply(Some(UNAVAILABLE), "")
    }

    function Normalized(check: Check, reply: Reply): CheckResult {
      var v := if check.kind in registered then normalize(check, reply)
               else Verdict(Failed, Some(FailureReport(check.id, if reply.err.Some? then reply.err.value else "")));
      CheckResult(check.id, v.status, v.failure)
    }

    /** One execution by the check's adapter; the one for unregistered kinds always fails. */
    method Call(check: Check) returns (reply: Reply)
      modifies `calls
      ensures reply == Answer(check, old(calls)) && calls == old(calls) + 1
    {
      if check.kind in registered {
        reply := replies(calls);
      } else {
        reply := Reply(Some("verification adapter is unavailable in this environment"), "");
      }
      calls := calls + 1;
    }

    method Normalize(check: Check, reply: Reply) returns (result: CheckResult)
      ensures result == Normalized(check, reply)
    {
      if check.kind in registered {
        var v := normalize(check, reply);
        return CheckResult(check.id, v.status, v.failure);
      }
      var cause := if reply.err.Some? then reply.err.value else "";
      return CheckResult(check.id, Failed, Some(FailureReport(check.id, cause)));
    }

    method Look() returns (stop: Option<Stop>)
      modifies `looks
      ensures stop == context(old(looks)) && looks == old(looks) + 1
    {
      stop := context(looks);
      looks := looks + 1;
    }

    method IsBlocked(check: Check, results: map<string, CheckResult>) returns (blocked: bool)
      ensures blocked <==> exists dep :: dep in check.deps && dep in results && results[dep].status != Passed
    {
      blocked := false;
      for k := 0 to |check.deps|
        invariant blocked <==>
                  exists i :: 0 <= i < k && check.deps[i] in results && results[check.deps[i]].status != Passed
      {
        if check.deps[k] in results && results[check.deps[k]].status != Passed {
          blocked := true;
        }
      }
    }

    /** The calls `c0` to `c1` are the attempts at a check: at least one, none after a success,
        none beyond the policy, none after a look that sees the context done. The result is
        what is made of the last answer, except that a stop seen after an error overrides its
        status.
     */
    ghost predicate Tried(check: Check, c0: nat, c1: nat, l0: nat, l1: nat, result: CheckResult) {
      && c0 < c1 <= c0 + Attempts(check)
      && (forall m: nat :: c0 <= m < c1 - 1 ==> Answer(check, m).err.Some?)
      && (forall i: nat :: l0 <= i < l1 - 1 ==> context(i).None?)
      && var last := Answer(check, c1 - 1);
         if last.err.None? then
           && l1 == l0 + (c1 - c0) - 1
           && (forall i: nat :: l0 <= i < l1 ==> context(i).None?)
           && result == Normalized(check, last)
         else
           && l1 == l0 + (c1 - c0)
           && (c1 - c0 == Attempts(check) || context(l1 - 1).Some?)
           && result == Normalized(check, last).(status := result.status)
           && if context(l1 - 1).Some? then StoppedAs(context(l1 - 1).value, result.status)
              else result == Normalized(check, last)
    }

    method Execute(check: Check) returns (result: CheckResult)
      modifies `calls, `looks
      ensures Tried(check, old(calls), calls, old(looks), looks, result)
    {
      ghost var n := 0;
      var attempts := check.maxAttempts;
      if attempts < 1 {
        attempts := 1;
      }
      var attempt := 1;
      result := CheckResult(check.id, Pending, None);
      while attempt <= attempts
        invariant attempt == n + 1 && calls == old(calls) + n && n <= Attempts(check)
        invariant looks == old(looks) + n
        invariant forall m: nat :: old(calls) <= m < calls ==> Answer(check, m).err.Some?
        invariant forall i: nat :: old(looks) <= i < looks ==> context(i).None?
        invariant n > 0 ==> result == Normalized(check, Answer(check, calls - 1))
      {
        var reply := Call(check);
        n := n + 1;
        result := Normalize(check, reply);
        if reply.err.None? {
          break;
        }
        var stop := Look();
        if stop.Some? {
          var status := StatusOf(stop.value);
          result := result.(status := status);
          break;
        }
        attempt := attempt + 1;
      }
    }

    /** What calling the check's adapter comes to: a failed discovery or validation gives a
        result without an attempt, otherwise the attempts give one.
     */
    ghost predicate EngagedAs(check: Check, c0: nat, c1: nat, l0: nat, l1: nat, attempted: bool, result: CheckResult) {
      if check.kind !in registered then
        attempted && Tried(check, c0, c1, l0, l1, result)
      else if replies(c0).err.Some? then
        !attempted && c1 == c0 + 1 && l1 == l0 && result == Normalized(check, Reply(replies(c0).err, ""))
      else if replies(c0 + 1).err.Some? then
        !attempted && c1 == c0 + 2 && l1 == l0 && result == Normalized(check, Reply(replies(c0 + 1).err, ""))
      else
        attempted && Tried(check, c0 + 2, c1, l0, l1, result)
    }

    method Engage(check: Check) returns (result: CheckResult, attempted: bool)
      modifies `calls, `looks, `engaged
      ensures engaged == old(engaged) + [check.id]
      ensures EngagedAs(check, old(calls), calls, old(looks), looks, attempted, result)
    {
      hide Tried;
      engaged := engaged + [check.id];
      if check.kind in registered {
        var discovered := replies(calls);
        calls := calls + 1;
        if discovered.err.Some? {
          result := Normalize(check, Reply(discovered.err, ""));
          return result, false;
        }
        var validated := replies(calls);
        calls := calls + 1;
        if validated.err.Some? {
          result := Normalize(check, Reply(validated.err, ""));
          return result, false;
        }
      }
      result := Execute(check);
      attempted := true;
    }

    /** A check of an unregistered kind never passes; looks are only added; and a stop seen in
        between is still seen afterwards.
     */
    lemma EngagedMeaning(check: Check, c0: nat, c1: nat, l0: nat, l1: nat, attempted: bool, result: CheckResult)
      requires EngagedAs(check, c0, c1, l0, l1, attempted, result) && ContextStays()
      ensures result.checkID == check.id && l1 >= l0 && (!attempted ==> l1 == l0)
      ensures check.kind !in registered ==> !result.status.Passed?
      ensures context(l1).None? ==> forall i: nat :: l0 <= i < l1 ==> context(i).None?
    {
    }

    /** Check `k` after the results before it: a look that sees no stop, then its refusal or
        its adapter, and a look after an attempt.
     */
    ghost predicate Follows(cs: seq<Check>, results: seq<CheckResult>, k: nat, span: Span)
      requires k < |results| <= |cs|
    {
      && context(span.l0).None?
      && if Held(cs, results, k) then span.c1 == span.c0 && span.l1 == span.l0 + 1
         else span.l1 > span.l0 &&
              var l1 := if span.attempted then span.l1 - 1 else span.l1;
              EngagedAs(cs[k], span.c0, span.c1, span.l0 + 1, l1, span.attempted, results[k])
    }

    /** The checks run one after the other, from call `c` and look `l` on. */
    ghost predicate Ledger(cs: seq<Check>, results: seq<CheckResult>, spans: seq<Span>, c: nat, l: nat) {
      && |spans| == |results| <= |cs|
      && forall k :: 0 <= k < |spans| ==>
           && Follows(cs, results, k, spans[k])
           && spans[k].c0 == EndCalls(spans[..k], c) && spans[k].l0 == EndLooks(spans[..k], l)
    }

    lemma LedgerStep(cs: seq<Check>, results: seq<CheckResult>, spans: seq<Span>, c: nat, l: nat, r: CheckResult,
            span: Span)
      requires Ledger(cs, results, spans, c, l) && |results| < |cs|
      requires span.c0 == EndCalls(spans, c) && span.l0 == EndLooks(spans, l)
      requires Follows(cs, results + [r], |results|, span)
      ensures Ledger(cs, results + [r], spans + [span], c, l)
    {
      hide Held, EngagedAs;
      var more := spans + [span];
      assert more[..|spans|] == spans;
      forall k | 0 <= k < |spans|
        ensures Follows(cs, results + [r], k, more[k]) && more[..k] == spans[..k]
      {
        HeldEarlier(cs, results, r, k);
      }
    }

    /** The loop over the sorted checks. */
    method RunChecks(cs: seq<Check>) returns (results: seq<CheckResult>, status: Status, ghost spans: seq<Span>)
      requires ContextStays() && Ascending(Ids(cs)) && engaged == []
      modifies `calls, `looks, `engaged
      ensures Chronicle(cs, results, engaged) && Ledger(cs, results, spans, old(calls), old(looks))
      ensures calls == EndCalls(spans, old(calls)) && looks >= old(looks)
      ensures forall k :: 0 <= k < |results| && cs[k].kind !in registered ==> !results[k].status.Passed?
      ensures status == Running ==> |results| == |cs| && looks == EndLooks(spans, old(looks)) && !SawStop(old(looks))
      ensures status != Running ==> StoppedAt(cs, spans, old(looks)) && StoppedAs(context(looks - 1).value, status)
    {
      hide Chronicle, Held, Ascending, Ledger, EngagedAs, Recorded;
      results, spans := [], [];
      var byID: map<string, CheckResult> := map[];
      EmptyChronicle(cs);
      EmptyLedger(cs, calls, looks);
      NothingRecorded(cs);
      for k := 0 to |cs|
        invariant |results| == k == |spans| && Chronicle(cs, results, engaged) && Recorded(cs, results, byID)
        invariant Ledger(cs, results, spans, old(calls), old(looks))
        invariant calls == EndCalls(spans, old(calls)) && looks == EndLooks(spans, old(looks))
        invariant forall i :: 0 <= i < k && cs[i].kind !in registered ==> !results[i].status.Passed?
        invariant looks >= old(looks) && !SawStop(old(looks))
      {
        ghost var c, l := calls, looks;
        var stop := Look();
        if stop.Some? {
          status := StatusOf(stop.value);
          return;
        }
        var blocked := IsBlocked(cs[k], byID);
        BlockedIsHeld(cs, results, byID);
        if blocked {
          results, byID, spans := RefuseCheck(cs, results, byID, spans, old(calls), old(looks));
        } else {
          var result, attempted := Engage(cs[k]);
          EngagedMeaning(cs[k], c, calls, l + 1, looks, attempted, result);
          ChronicleStep(cs, results, engaged[..|engaged| - 1], result);
          assert engaged[..|engaged| - 1] + [result.checkID] == engaged;
          RecordedStep(cs, results, byID, result);
          HeldEarlier(cs, results, result, k);
          ghost var span := Span(c, calls, l, if attempted then looks + 1 else looks, attempted);
          LedgerStep(cs, results, spans, old(calls), old(looks), result, span);
          results, byID, spans := results + [result], byID[cs[k].id := result], spans + [span];
          if attempted {
            var after := Look();
            if after.Some? {
              status := StatusOf(after.value);
              return;
            }
          }
        }
      }
      status := Running;
    }

    /** Files the refusal of the next check. */
    method RefuseCheck(cs: seq<Check>, results: seq<CheckResult>, byID: map<string, CheckResult>,
            ghost spans: seq<Span>, ghost c: nat, ghost l: nat)
      returns (results': seq<CheckResult>, byID': map<string, CheckResult>, ghost spans': seq<Span>)
      requires Chronicle(cs, results, engaged) && Recorded(cs, results, byID) && Ascending(Ids(cs)) && |results| < |cs|
      requires Ledger(cs, results, spans, c, l) && Held(cs, results, |results|)
      requires calls == EndCalls(spans, c) && looks == EndLooks(spans, l) + 1 && context(looks - 1).None?
      ensures results' == results + [Refused(cs[|results|].id)] && Chronicle(cs, results', engaged)
      ensures Recorded(cs, results', byID')
      ensures Ledger(cs, results', spans', c, l) && |spans'| == |results'|
      ensures calls == EndCalls(spans', c) && looks == EndLooks(spans', l)
    {
      hide Chronicle, Held, Ascending, Ledger, EngagedAs, Recorded;
      var id := cs[|results|].id;
      var r := CheckResult(id, Failed, Some(FailureReport(id, "dependency check did not pass")));
      ChronicleStep(cs, results, engaged, r);
      RecordedStep(cs, results, byID, r);
      HeldEarlier(cs, results, r, |results|);
      LedgerLength(cs, results, spans, c, l);
      ghost var span := Span(calls, calls, looks - 1, looks, false);
      LedgerStep(cs, results, spans, c, l, r, span);
      results', byID', spans' := results + [r], byID[cs[|results|].id := r], spans + [span];
    }

    lemma LedgerLength(cs: seq<Check>, results: seq<CheckResult>, spans: seq<Span>, c: nat, l: nat)
      requires Ledger(cs, results, spans, c, l)
      ensures |spans| == |results|
    {
    }

    lemma EmptyLedger(cs: seq<Check>, c: nat, l: nat)
      ensures Ledger(cs, [], [], c, l)
    {
    }

    /** The latest look saw the context done: the one after the last check, or the one before
        a next check.
     */
    ghost predicate StoppedAt(cs: seq<Check>, spans: seq<Span>, l: nat)
      reads this
    {
      && looks > l && context(looks - 1).Some?
      && (looks == EndLooks(spans, l) || (looks == EndLooks(spans, l) + 1 && |spans| < |cs|))
    }

    /** A finished run over the sorted checks `cs` that made its calls from number `c` and its
        looks from number `l` on.
     */
    ghost predicate Accounted(cs: seq<Check>, spans: seq<Span>, run: VerificationRun, c: nat, l: nat)
      reads this
    {
      && Chronicle(cs, run.results, engaged) && |run.results| <= |cs|
      && Ledger(cs, run.results, spans, c, l) && calls == EndCalls(spans, c)
      && (SawStop(l) ==> StoppedAt(cs, spans, l))
      && (!SawStop(l) ==> |run.results| == |cs| && looks == EndLooks(spans, l))
      && (forall k :: 0 <= k < |run.results| && cs[k].kind !in registered ==> !run.results[k].status.Passed?)
      && run.summary == SummaryOf(cs, run.results) && run.failures == FailuresOf(run.results)
      && (run.status == Passed <==> !SawStop(l) && |run.results| == |cs| && RequiredPass(cs, run.results))
      && (run.status == Failed <==> !RequiredPass(cs, run.results))
      && (run.status != Passed && run.status != Failed ==>
            looks > 0 && context(looks - 1).Some? && StoppedAs(context(looks - 1).value, run.status))
    }

    /** `Engine.Run`. A run passes exactly when no look saw the context done, every check has
        its one result, and every required check passed.
     */
    method Run(request: Request) returns (r: Result<VerificationRun, EngineError>)
      requires ContextStays()
      modifies this
      ensures runs == old(runs) + [r] && looks >= old(looks)
      ensures r.Failure? ==> engaged == [] && looks == old(looks) && calls == old(calls)
      ensures r == Failure(NoProject) <==> request.projectID == ""
      ensures r == Failure(DuplicateCheck) <==>
                request.projectID != "" && !Named(Vertices(Profile(request.policy, request.checks)))
      ensures r.Success? <==> request.projectID != "" && ValidChecks(Profile(request.policy, request.checks))
      ensures r.Success? ==>
                var run: VerificationRun := r.value;
                && run.checks == Profile(request.policy, request.checks) && run.repairs == []
                && (request.checks != [] ==> run.checks == request.checks)
                && (request.checks == [] ==> DefaultChecks(request.policy, run.checks))
                && exists cs: seq<Check>, spans: seq<Span> ::
                     IsSorting(run.checks, cs) && Accounted(cs, spans, run, old(calls), old(looks))
    {
      hide Chronicle, IsSorting, ValidChecks, Profile, DefaultChecks, SummaryOf, RequiredPass, Ascending, Ledger;
      engaged := [];
      if request.projectID == "" {
        r := Failure(NoProject);
      } else {
        var checks := ProfileOf(request.policy, request.checks);
        var err := ValidateChecks(checks);
        if err.Some? {
          r := Failure(err.value);
        } else {
          WorkableIsNamed(checks);
          var cs := SortChecks(checks);
          SortingAscends(checks, cs);
          ghost var spans;
          var results: seq<CheckResult>, status: Status;
          results, status, spans := RunChecks(cs);
          ChronicleNames(cs, results, engaged);
          var summary, failures := Summarize(checks, results, cs);
          SummaryMeaning(cs, results);
          if status == Running {
            status := Passed;
          } else {
            assert SawStop(old(looks));
          }
          SummaryFields(cs, results);
          if summary.requiredFailed > 0 {
            status := Failed;
          }
          r := Success(VerificationRun(status, checks, results, summary, failures, []));
          runs := runs + [r];
          assert Accounted(cs, spans, r.value, old(calls), old(looks));
          return;
        }
      }
      runs := runs + [r];
    }

    /** Adapters that raise no error and whose results pass, under a context that is never done,
        make the run pass, with every check executed.
     */
    lemma FlawlessPasses(cs: seq<Check>, spans: seq<Span>, run: VerificationRun, c: nat, l: nat)
      requires Accounted(cs, spans, run, c, l)
      requires forall i: nat :: context(i).None?
      requires forall n: nat :: replies(n).err.None?
      requires forall k :: 0 <= k < |cs| ==> cs[k].kind in registered
      requires forall check, reply :: normalize(check, reply).status.Passed?
      ensures run.status == Passed && |run.results| == |cs|
      ensures forall k :: 0 <= k < |cs| ==> run.results[k].status.Passed? && cs[k].id in engaged
    {
      hide SummaryOf, FailuresOf, Chronicle, Ledger;
      forall k | 0 <= k < |run.results| ensures run.results[k].status.Passed? && !Held(cs, run.results, k) {
        FlawlessResult(cs, run.results, spans, c, l, k);
      }
      forall k | 0 <= k < |cs| ensures cs[k].id in engaged {
        ExecutedUnlessHeld(cs, run.results, engaged, k);
      }
    }

    lemma FlawlessResult(cs: seq<Check>, results: seq<CheckResult>, spans: seq<Span>, c: nat, l: nat, k: nat)
      requires Ledger(cs, results, spans, c, l) && k < |results|
      requires forall i: nat :: context(i).None?
      requires forall n: nat :: replies(n).err.None?
      requires forall i :: 0 <= i < |cs| ==> cs[i].kind in registered
      requires forall check, reply :: normalize(check, reply).status.Passed?
      ensures results[k].status.Passed? && !Held(cs, results, k)
      decreases k
    {
      forall j | 0 <= j < k ensures results[j].status.Passed? {
        FlawlessResult(cs, results, spans, c, l, j);
      }
      assert Follows(cs, results, k, spans[k]);
    }
  }

  /** The results filed under the ids of their checks. */
  ghost predicate Recorded(cs: seq<Check>, results: seq<CheckResult>, byID: map<string, CheckResult>) {
    && |results| <= |cs|
    && (forall id :: id in byID ==> exists j :: 0 <= j < |results| && cs[j].id == id && byID[id] == results[j])
    && (forall j :: 0 <= j < |results| ==> cs[j].id in byID)
  }

  lemma ExecutedUnlessHeld(cs: seq<Check>, results: seq<CheckResult>, engaged: seq<string>, k: nat)
    requires Chronicle(cs, results, engaged) && k < |results| && !Held(cs, results, k)
    ensures cs[k].id in engaged
  {
    hide Held;
    assert Settled(cs, results, engaged, k);
  }

  lemma EmptyChronicle(cs: seq<Check>)
    ensures Chronicle(cs, [], [])
  {
  }

  lemma NothingRecorded(cs: seq<Check>)
    ensures Recorded(cs, [], map[])
  {
  }

  lemma RecordedStep(cs: seq<Check>, results: seq<CheckResult>, byID: map<string, CheckResult>, r: CheckResult)
    requires Recorded(cs, results, byID) && |results| < |cs|
    ensures Recorded(cs, results + [r], byID[cs[|results|].id := r])
  {
    var more := results + [r];
    forall id | id in byID && id != cs[|results|].id
      ensures exists j :: 0 <= j < |more| && cs[j].id == id && byID[id] == more[j]
    {
      var j :| 0 <= j < |results| && cs[j].id == id && byID[id] == results[j];
      assert more[j] == results[j];
    }
    assert more[|results|] == r;
  }

  lemma BlockedIsHeld(cs: seq<Check>, results: seq<CheckResult>, byID: map<string, CheckResult>)
    requires Recorded(cs, results, byID) && Ascending(Ids(cs)) && |results| < |cs|
    ensures (exists dep :: dep in cs[|results|].deps && dep in byID && byID[dep].status != Passed) <==>
              Held(cs, results, |results|)
  {
    hide Below, Ascending;
    AscendingDistinct(Ids(cs));
    forall j | 0 <= j < |results| ensures byID[cs[j].id] == results[j] {
      var i :| 0 <= i < |results| && cs[i].id == cs[j].id && byID[cs[j].id] == results[i];
      assert Ids(cs)[i] == Ids(cs)[j];
    }
  }

  lemma WorkableIsNamed(checks: seq<Check>)
    requires ValidChecks(checks)
    ensures Named(Vertices(checks))
  {
  }

  lemma SortingAscends(checks: seq<Check>, cs: seq<Check>)
    requires IsSorting(checks, cs)
    ensures Ascending(Ids(cs))
  {
  }

  lemma ChronicleNames(cs: seq<Check>, results: seq<CheckResult>, engaged: seq<string>)
    requires Chronicle(cs, results, engaged)
    ensures |results| <= |cs| && forall k :: 0 <= k < |results| ==> results[k].checkID == cs[k].id
  {
    hide Held;
    forall k | 0 <= k < |results| ensures results[k].checkID == cs[k].id {
      assert Settled(cs, results, engaged, k);
    }
  }

  lemma SummaryFields(cs: seq<Check>, results: seq<CheckResult>)
    requires |results| <= |cs|
    ensures SummaryOf(cs, results).requiredFailed == 0 <==> RequiredPass(cs, results)
  {
    SummaryMeaning(cs, results);
  }
}
