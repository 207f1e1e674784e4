/** The accounts of `Verification` are those of real runs: for every account there are adapters
    and a context with which the engine produces exactly it.
 */
module EngineRuns {
  import opened Wrappers
  import opened Ordering
  import opened Dag
  import opened VertexList
  import opened Verification

  /** How many looks the first `k` checks take when every adapter call succeeds. */
  function LooksFor(cs: seq<Check>, results: seq<CheckResult>, k: nat): nat
    requires k <= |results| <= |cs|
  {
    if k == 0 then 0 else LooksFor(cs, results, k - 1) + if Held(cs, results, k - 1) then 1 else 2
  }

  lemma {:induction false} LooksGrow(cs: seq<Check>, results: seq<CheckResult>, j: nat, k: nat)
    requires j < k <= |results| <= |cs|
    ensures LooksFor(cs, results, j) < LooksFor(cs, results, k)
  {
    if j < k - 1 {
      LooksGrow(cs, results, j, k - 1);
    }
  }

  function VerdictOf(results: seq<CheckResult>, id: string): Verdict {
    if results == [] then Verdict(Failed, None)
    else if results[0].checkID == id then Verdict(results[0].status, results[0].failure)
    else VerdictOf(results[1..], id)
  }

  lemma {:induction false} VerdictFound(results: seq<CheckResult>, k: nat)
    requires k < |results| && forall i, j :: 0 <= i < j < |results| ==> results[i].checkID != results[j].checkID
    ensures VerdictOf(results, results[k].checkID) == Verdict(results[k].status, results[k].failure)
  {
    if k > 0 {
      VerdictFound(results[1..], k - 1);
    }
  }

  lemma SortingUnique(checks: seq<Check>, a: seq<Check>, b: seq<Check>)
    requires Named(Vertices(checks)) && IsSorting(checks, a) && IsSorting(checks, b)
    ensures a == b
  {
    hide Named, Below;
    IdsMembers(a);
    IdsMembers(b);
    assert Elems(Ids(a)) == Elems(Ids(b));
    AscendingUnique(Ids(a), Ids(b));
    forall k | 0 <= k < |a| ensures a[k] == b[k] {
      assert Ids(a)[k] == a[k].id && Ids(b)[k] == b[k].id;
      FoundIsUnique(checks, a[k], b[k]);
    }
  }

  lemma IdsMembers(cs: seq<Check>)
    ensures forall id :: id in Elems(Ids(cs)) <==> exists c :: c in cs && c.id == id
  {
    forall id ensures id in Elems(Ids(cs)) <==> exists c :: c in cs && c.id == id {
      if id in Elems(Ids(cs)) {
        var k :| 0 <= k < |cs| && Ids(cs)[k] == id;
        assert cs[k] in cs;
      }
      if c :| c in cs && c.id == id {
        var k :| 0 <= k < |cs| && cs[k] == c;
        assert Ids(cs)[k] == id;
      }
    }
  }

  lemma DistinctResults(cs: seq<Check>, results: seq<CheckResult>, engaged: seq<string>)
    requires Chronicle(cs, results, engaged) && Ascending(Ids(cs))
    ensures forall i, j :: 0 <= i < j < |results| ==> results[i].checkID != results[j].checkID
  {
    hide Below, Ascending, Chronicle;
    AscendingDistinct(Ids(cs));
    ChronicleNames(cs, results, engaged);
    forall i, j | 0 <= i < j < |results| ensures results[i].checkID != results[j].checkID {
      assert Ids(cs)[i] != Ids(cs)[j];
    }
  }

  /** The engine answers as the account says, and its context is done when the account ends. */
  ghost predicate Scripted(engine: Engine, cs: seq<Check>, results: seq<CheckResult>)
    requires |results| <= |cs|
  {
    && (forall n: nat :: engine.replies(n).err.None?)
    && (forall i: nat :: engine.context(i).Some? <==> i >= LooksFor(cs, results, |results|))
    && (forall k :: 0 <= k < |cs| ==> cs[k].kind in engine.registered)
    && (forall check, reply :: engine.normalize(check, reply) == VerdictOf(results, check.id))
  }

  lemma SameHeld(cs: seq<Check>, a: seq<CheckResult>, b: seq<CheckResult>, k: nat)
    requires k <= |a| && k <= |b| && k < |cs| && a[..k] == b[..k]
    ensures Held(cs, a, k) <==> Held(cs, b, k)
  {
    assert forall j :: 0 <= j < k ==> a[j] == a[..k][j] && b[j] == b[..k][j];
  }

  /** Check by check, the engine gives the results of the account and takes its looks. */
  lemma {:induction false} SameSoFar(engine: Engine, cs: seq<Check>, results: seq<CheckResult>, engaged: seq<string>,
        got: seq<CheckResult>, gotEngaged: seq<string>, spans: seq<Span>, k: nat)
    requires Chronicle(cs, results, engaged) && Ascending(Ids(cs)) && |results| <= |cs| && Scripted(engine, cs, results)
    requires Chronicle(cs, got, gotEngaged) && engine.Ledger(cs, got, spans, 0, 0)
    requires k <= |results| && k <= |got| && |spans| == |got|
    ensures got[..k] == results[..k] && EndLooks(spans[..k], 0) == LooksFor(cs, results, k)
  {
    hide Chronicle, Engine.Ledger, Scripted, Engine.Follows, Held, Ascending;
    if k > 0 {
      SameSoFar(engine, cs, results, engaged, got, gotEngaged, spans, k - 1);
      SameNext(engine, cs, results, engaged, got, gotEngaged, spans, k - 1);
      assert got[..k] == got[..k - 1] + [got[k - 1]] && results[..k] == results[..k - 1] + [results[k - 1]];
    }
  }

  lemma SameNext(engine: Engine, cs: seq<Check>, results: seq<CheckResult>, engaged: seq<string>,
        got: seq<CheckResult>, gotEngaged: seq<string>, spans: seq<Span>, k: nat)
    requires Chronicle(cs, results, engaged) && Ascending(Ids(cs)) && |results| <= |cs| && Scripted(engine, cs, results)
    requires Chronicle(cs, got, gotEngaged) && engine.Ledger(cs, got, spans, 0, 0)
    requires k < |results| && k < |got| && |spans| == |got| && got[..k] == results[..k]
    ensures got[k] == results[k]
    ensures EndLooks(spans[..k + 1], 0) == EndLooks(spans[..k], 0) + if Held(cs, results, k) then 1 else 2
  {
    hide Held, Ascending, Engine.Tried, EndLooks;
    SameHeld(cs, got, results, k);
    LedgerAt(engine, cs, got, spans, k);
    assert Settled(cs, results, engaged, k) && Settled(cs, got, gotEngaged, k);
    if !Held(cs, results, k) {
      DistinctResults(cs, results, engaged);
      VerdictFound(results, k);
      var s := spans[k];
      OneTry(engine, cs[k], s.c0 + 2, s.c1, s.l0 + 1, s.l1 - 1, got[k]);
    }
  }

  lemma LedgerAt(engine: Engine, cs: seq<Check>, got: seq<CheckResult>, spans: seq<Span>, k: nat)
    requires engine.Ledger(cs, got, spans, 0, 0) && k < |spans|
    ensures |spans| == |got| <= |cs| && engine.Follows(cs, got, k, spans[k])
    ensures EndLooks(spans[..k], 0) == spans[k].l0 && EndLooks(spans[..k + 1], 0) == spans[k].l1
  {
    hide Engine.Follows;
  }

  lemma OneTry(engine: Engine, check: Check, c0: nat, c1: nat, l0: nat, l1: nat, result: CheckResult)
    requires engine.Tried(check, c0, c1, l0, l1, result) && check.kind in engine.registered
    requires forall n: nat :: engine.replies(n).err.None?
    ensures l1 == l0 && exists n: nat :: result == engine.Normalized(check, engine.replies(n))
  {
    assert engine.Answer(check, c0).err.None?;
    assert c1 == c0 + 1;
  }

  /** It stops exactly where the account ends. */
  lemma SameLength(engine: Engine, cs: seq<Check>, results: seq<CheckResult>, engaged: seq<string>,
        run: VerificationRun, spans: seq<Span>)
    requires Chronicle(cs, results, engaged) && Ascending(Ids(cs)) && |results| <= |cs| && Scripted(engine, cs, results)
    requires engine.Accounted(cs, spans, run, 0, 0)
    ensures run.results == results
  {
    hide Chronicle, Held, Ascending, SummaryOf, RequiredPass, FailuresOf, Engine.Ledger, LooksFor;
    var got := run.results;
    engine.LedgerLength(cs, got, spans, 0, 0);
    var least := if |got| < |results| then |got| else |results|;
    SameSoFar(engine, cs, results, engaged, got, engine.engaged, spans, least);
    if |got| > |results| {
      LedgerAt(engine, cs, got, spans, |results|);
    } else if |got| < |results| {
      assert spans[..least] == spans;
      LooksGrow(cs, results, |got|, |results|);
    }
    assert got[..least] == got && results[..least] == results;
  }

  lemma SameEngaged(cs: seq<Check>, results: seq<CheckResult>, a: seq<string>, b: seq<string>)
    requires Chronicle(cs, results, a) && Chronicle(cs, results, b)
    ensures forall id :: id in a ==> id in b
  {
    hide Held;
    forall id | id in a ensures id in b {
      var k :| 0 <= k < |results| && Ids(cs[..|results|])[k] == id;
      assert Settled(cs, results, a, k) && Settled(cs, results, b, k);
    }
  }

  /** Every account of checks, complete or cut off, is what some run of the engine does. */
  method Realise(checks: seq<Check>, cs: seq<Check>, results: seq<CheckResult>, ghost engaged: seq<string>)
    returns (engine: Engine, run: VerificationRun)
    requires checks != [] && ValidChecks(checks) && IsSorting(checks, cs) && Chronicle(cs, results, engaged)
    ensures fresh(engine) && run.results == results && forall id :: id in engine.engaged <==> id in engaged
  {
    hide Chronicle, ValidChecks, IsSorting, Held, Ascending, LooksFor, Engine.Accounted, VerdictOf;
    ChronicleNames(cs, results, engaged);
    SortingAscends(checks, cs);
    var stop := LooksFor(cs, results, |results|);
    var kinds := set c | c in cs :: c.kind;
    engine := new Engine(n => Reply(None, ""), i => if i >= stop then Some(Canceled) else None, kinds,
                         (check: Check, reply) => VerdictOf(results, check.id));
    var r := engine.Run(Request("project", OtherPolicy, checks));
    WorkableIsNamed(checks);
    run := r.value;
    ghost var sorted: seq<Check>, spans: seq<Span> :|
      IsSorting(checks, sorted) && engine.Accounted(sorted, spans, run, 0, 0);
    SortingUnique(checks, cs, sorted);
    SameLength(engine, cs, results, engaged, run, spans);
    AccountedChronicle(engine, cs, spans, run);
    SameEngaged(cs, results, engaged, engine.engaged);
    SameEngaged(cs, results, engine.engaged, engaged);
  }

  lemma AccountedChronicle(engine: Engine, cs: seq<Check>, spans: seq<Span>, run: VerificationRun)
    requires engine.Accounted(cs, spans, run, 0, 0)
    ensures Chronicle(cs, run.results, engine.engaged)
  {
  }

  /** A dependency that sorts later is ignored by an actual run: check `j` fails, and check `k`,
      which depends on it, has been executed and has passed.
   */
  method IgnoresLater(checks: seq<Check>, cs: seq<Check>, j: nat, k: nat) returns (engine: Engine, run: VerificationRun)
    requires checks != [] && ValidChecks(checks) && IsSorting(checks, cs)
    requires k < j < |cs| && cs[j].id in cs[k].deps
    ensures |run.results| == j + 1 && run.results[j].checkID == cs[j].id && run.results[j].status == Failed
    ensures run.results[k].checkID == cs[k].id && run.results[k].status == Passed && cs[k].id in engine.engaged
  {
    hide Chronicle, ValidChecks, IsSorting, Ascending;
    SortingAscends(checks, cs);
    LaterFailureAccount(cs, j);
    var results := AllPassUpTo(cs, j);
    engine, run := Realise(checks, cs, results, Ids(cs[..j + 1]));
    assert Ids(cs[..j + 1])[k] == cs[k].id;
  }
}
