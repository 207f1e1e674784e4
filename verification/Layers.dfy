/** The layered schedule: when every execution succeeds, round k executes exactly the tasks
    whose longest dependency chain has k edges, and the number of rounds is the height of
    the graph.
 */
module Layers {
  import opened Ordering
  import opened Dag
  import opened TaskGraph
  import opened Retry
  import opened Schedule
  import opened FinalStates

  ghost predicate AllSucceed(rounds: seq<Round>) {
    forall k, id :: 0 <= k < |rounds| && id in rounds[k].results ==> StatusAfter(rounds[k].results[id]).Succeeded?
  }

  /** The tasks with no chain of `k` edges below them have succeeded, the others are as they
      were given.
   */
  ghost predicate LayersDone(g: Graph, h: Graph, k: nat) {
    && h.dependencies == g.dependencies
    && h.tasks.Keys == g.tasks.Keys
    && forall id :: id in g.tasks ==>
         if HasChain(g.dependencies, id, k) then h.tasks[id] == g.tasks[id]
         else h.tasks[id].status.Succeeded?
  }

  /** `id` lies in layer `k`: its longest dependency chain has exactly `k` edges. */
  ghost predicate InLayer(g: Graph, id: ID, k: nat) {
    id in g.tasks && HasChain(g.dependencies, id, k) && !HasChain(g.dependencies, id, k + 1)
  }

  lemma DependencyChains(edges: Edges, id: ID, k: nat)
    ensures HasChain(edges, id, k + 1) <==> exists d :: d in Out(edges, id) && HasChain(edges, d, k)
  {
  }

  lemma NothingFails(g: Graph, h: Graph, k: nat)
    requires StartsOpen(g) && LayersDone(g, h, k)
    ensures Propagated(h) == h
  {
    forall id ensures !h.Status(id).Failing() {
      if id in h.tasks && HasChain(g.dependencies, id, k) {
        assert h.tasks[id] == g.tasks[id];
      }
    }
    assert forall id :: !ShouldBlock(h, id);
    assert Propagated(h).tasks == h.tasks;
  }

  /** With the layers below `k` done, the ready tasks are those of layer `k`. */
  lemma ReadyIsLayer(g: Graph, h: Graph, k: nat, id: ID)
    requires ValidGraph(g) && StartsOpen(g) && LayersDone(g, h, k)
    ensures IsReady(h, id) <==> InLayer(g, id, k)
  {
    if id in g.tasks {
      assert WellFormedTask(g, id);
      DependencyChains(g.dependencies, id, k);
      if HasChain(g.dependencies, id, k) {
        assert h.tasks[id] == g.tasks[id];
        assert h.Deps(id) == g.Deps(id);
        assert forall d :: d in g.Deps(id) ==>
                  d in h.tasks && (h.Status(d).Succeeded? <==> !HasChain(g.dependencies, d, k));
      }
    }
  }

  lemma NextLayer(g: Graph, h: Graph, r: Round, k: nat)
    requires ValidGraph(g) && StartsOpen(g) && LayersDone(g, h, k) && ValidRound(h, r)
    requires forall id :: id in r.results ==> StatusAfter(r.results[id]).Succeeded?
    ensures LayersDone(g, AfterRound(h, r), k + 1)
    ensures forall id :: id in r.ready <==> InLayer(g, id, k)
  {
    NothingFails(g, h, k);
    forall id ensures id in r.ready <==> InLayer(g, id, k) {
      ReadyIsLayer(g, h, k, id);
    }
    assert forall id :: id in r.results <==> id in Elems(r.ready);
    LayerAdded(g, h, AfterRound(h, r), k);
  }

  lemma LayerAdded(g: Graph, h: Graph, after: Graph, k: nat)
    requires LayersDone(g, h, k)
    requires after.dependencies == h.dependencies && after.tasks.Keys == h.tasks.Keys
    requires forall id :: id in h.tasks && InLayer(g, id, k) ==> after.tasks[id].status.Succeeded?
    requires forall id :: id in h.tasks && !InLayer(g, id, k) ==> after.tasks[id] == h.tasks[id]
    ensures LayersDone(g, after, k + 1)
  {
    forall id | id in g.tasks
      ensures if HasChain(g.dependencies, id, k + 1) then after.tasks[id] == g.tasks[id]
              else after.tasks[id].status.Succeeded?
    {
      if HasChain(g.dependencies, id, k + 1) {
        ChainShortens(g.dependencies, id, k + 1, k);
      }
    }
  }

  lemma LayersStart(g: Graph)
    ensures LayersDone(g, g, 0)
  {
  }

  lemma {:induction false} LayersThroughout(g: Graph, rounds: seq<Round>, k: nat)
    requires ValidGraph(g) && StartsOpen(g) && ValidRounds(g, rounds) && AllSucceed(rounds)
    requires k <= |rounds|
    ensures LayersDone(g, At(g, rounds, k), k)
  {
    hide ValidGraph, StartsOpen, ValidRound, AfterRound, LayersDone, StatusAfter;
    if k == 0 {
      LayersStart(g);
    } else {
      LayersThroughout(g, rounds, k - 1);
      NextLayer(g, At(g, rounds, k - 1), rounds[k - 1], k - 1);
    }
  }

  /** Round k executes layer k. */
  lemma RoundIsLayer(g: Graph, rounds: seq<Round>, k: nat, id: ID)
    requires ValidGraph(g) && StartsOpen(g) && ValidRounds(g, rounds) && AllSucceed(rounds)
    requires k < |rounds|
    ensures id in rounds[k].ready <==> InLayer(g, id, k)
  {
    LayersThroughout(g, rounds, k);
    NextLayer(g, At(g, rounds, k), rounds[k], k);
  }

  /** A finished run of that kind has made every task succeed, in as many rounds as the
      longest dependency path has tasks, and its verdict is success.
   */
  lemma LayeredRun(g: Graph, rounds: seq<Round>)
    requires ValidGraph(g) && StartsOpen(g) && ValidRounds(g, rounds) && AllSucceed(rounds)
    requires AtRest(Final(g, rounds))
    ensures forall id :: id in g.tasks ==> Final(g, rounds).Status(id).Succeeded?
    ensures Verdict(Final(g, rounds)) == WorkflowSucceeded
    ensures forall p :: IsPath(g.dependencies, p) && p[0] in g.tasks ==> |p| <= |rounds|
    ensures |rounds| > 0 ==> exists p :: IsPath(g.dependencies, p) && p[0] in g.tasks && |p| == |rounds|
  {
    var f := Final(g, rounds);
    var n := |rounds|;
    LayersThroughout(g, rounds, n);
    NothingFails(g, At(g, rounds, n), n);
    forall id | id in g.tasks ensures !HasChain(g.dependencies, id, n) {
      NoLayerLeft(g, f, n, id);
    }
    AllDone(g, f, n);
    forall p | IsPath(g.dependencies, p) && p[0] in g.tasks ensures |p| <= n {
      ShortPath(g, p, n);
    }
    if n > 0 {
      LongestPath(g, rounds);
    }
  }

  lemma AllDone(g: Graph, f: Graph, n: nat)
    requires LayersDone(g, f, n)
    requires forall id :: id in g.tasks ==> !HasChain(g.dependencies, id, n)
    ensures forall id :: id in g.tasks ==> f.Status(id).Succeeded?
    ensures Verdict(f) == WorkflowSucceeded
  {
  }

  lemma ShortPath(g: Graph, p: seq<ID>, n: nat)
    requires IsPath(g.dependencies, p) && p[0] in g.tasks && !HasChain(g.dependencies, p[0], n)
    ensures |p| <= n
  {
    if |p| > n {
      ChainIsPath(g.dependencies, p[0], |p| - 1);
      ChainShortens(g.dependencies, p[0], |p| - 1, n);
      assert false;
    }
  }

  lemma NoLayerLeft(g: Graph, f: Graph, n: nat, id: ID)
    requires ValidGraph(g) && StartsOpen(g) && LayersDone(g, f, n) && id in g.tasks
    requires forall x :: !IsReady(f, x)
    ensures !HasChain(g.dependencies, id, n)
  {
    var left := set x | x in g.tasks && HasChain(g.dependencies, x, n);
    if left != {} {
      AcyclicSubset(g.dependencies, g.tasks.Keys, left);
      var b := Bottom(g.dependencies, left);
      assert WellFormedTask(g, b);
      ReadyIsLayer(g, f, n, b);
      DependencyChains(g.dependencies, b, n);
      assert false;
    }
    assert id !in left;
  }

  lemma LongestPath(g: Graph, rounds: seq<Round>)
    requires ValidGraph(g) && StartsOpen(g) && ValidRounds(g, rounds) && AllSucceed(rounds)
    requires |rounds| > 0
    ensures exists p :: IsPath(g.dependencies, p) && p[0] in g.tasks && |p| == |rounds|
  {
    var k := |rounds| - 1;
    assert ValidRound(At(g, rounds, k), rounds[k]);
    var id := rounds[k].ready[0];
    assert id in rounds[k].ready;
    RoundIsLayer(g, rounds, k, id);
    ChainIsPath(g.dependencies, id, k);
  }
}
