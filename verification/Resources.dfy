/** The resource manager: what is reserved, what is owed, and what the capacity bounds. */
module Resources {
  import opened Wrappers

  datatype Amount = Amount(cpu: int, memory: int, disk: int) {
    function Plus(other: Amount): Amount { Amount(cpu + other.cpu, memory + other.memory, disk + other.disk) }

    function Minus(other: Amount): Amount { Amount(cpu - other.cpu, memory - other.memory, disk - other.disk) }

    predicate Within(other: Amount) { cpu <= other.cpu && memory <= other.memory && disk <= other.disk }

    function In(d: Dimension): int {
      match d case CPU => cpu case Memory => memory case Disk => disk
    }
  }

  datatype Dimension = CPU | Memory | Disk

  const NOTHING := Amount(0, 0, 0)

  /** A granted request and how often its lease was released. */
  datatype Lease = Lease(request: Amount, released: nat)

  datatype Pool = Pool(used: Amount, leases: seq<Lease>)

  datatype Operation = Reserve(request: Amount) | Release(lease: nat)

  const EMPTY := Pool(NOTHING, [])

  predicate Fits(capacity: Amount, used: Amount, request: Amount) {
    used.Plus(request).Within(capacity)
  }

  /** One operation; releasing a lease that was never granted cannot be asked for. */
  function Apply(capacity: Amount, pool: Pool, op: Operation): Pool {
    match op
    case Reserve(request) =>
      if Fits(capacity, pool.used, request) then Pool(pool.used.Plus(request), pool.leases + [Lease(request, 0)])
      else pool
    case Release(i) =>
      if i < |pool.leases| then
        var lease := pool.leases[i];
        Pool(pool.used.Minus(lease.request), pool.leases[i := lease.(released := lease.released + 1)])
      else pool
  }

  class MemoryResourceManager {
    const capacity: Amount
    var used: Amount
    ghost var leases: seq<Lease>

    constructor (capacity: Amount)
      ensures this.capacity == capacity && View() == EMPTY
    {
      this.capacity, used, leases := capacity, NOTHING, [];
    }

    ghost function View(): Pool
      reads this
    {
      Pool(used, leases)
    }

    /** `Reserve`: the lease is the number under which the request is filed. */
    method Reserve(request: Amount) returns (ok: bool, ghost lease: nat)
      modifies this
      ensures ok <==> Fits(capacity, old(used), request)
      ensures View() == Apply(capacity, old(View()), Operation.Reserve(request))
      ensures lease == |old(leases)| && (ok ==> |leases| == lease + 1 && leases[lease] == Lease(request, 0))
    {
      lease := |leases|;
      if used.cpu + request.cpu > capacity.cpu
        || used.memory + request.memory > capacity.memory
        || used.disk + request.disk > capacity.disk
      {
        return false, lease;
      }
      used := Amount(used.cpu + request.cpu, used.memory + request.memory, used.disk + request.disk);
      leases := leases + [Lease(request, 0)];
      return true, lease;
    }

    /** The lease's `Release`, which closes over the granted request. */
    method Release(request: Amount, ghost lease: nat)
      requires lease < |leases| && leases[lease].request == request
      modifies this
      ensures View() == Apply(capacity, old(View()), Operation.Release(lease))
    {
      used := Amount(used.cpu - request.cpu, used.memory - request.memory, used.disk - request.disk);
      leases := leases[lease := leases[lease].(released := leases[lease].released + 1)];
    }
  }

  // ------------------------------------------------------------------------ histories

  function Replay(capacity: Amount, ops: seq<Operation>): Pool {
    if ops == [] then EMPTY else Apply(capacity, Replay(capacity, ops[..|ops| - 1]), ops[|ops| - 1])
  }

  function Many(n: nat, amount: int): int {
    if n == 0 then 0 else Many(n - 1, amount) + amount
  }

  /** Every lease counts as often as it was granted, once, less its releases. */
  function Balance(leases: seq<Lease>, d: Dimension): int {
    if leases == [] then 0
    else
      var last := leases[|leases| - 1];
      Balance(leases[..|leases| - 1], d) + last.request.In(d) - Many(last.released, last.request.In(d))
  }

  /** What the leases that were never released hold. */
  function Outstanding(leases: seq<Lease>, d: Dimension): int {
    if leases == [] then 0
    else
      var last := leases[|leases| - 1];
      Outstanding(leases[..|leases| - 1], d) + if last.released == 0 then last.request.In(d) else 0
  }

  lemma {:induction false} BalanceReleased(leases: seq<Lease>, i: nat, d: Dimension)
    requires i < |leases|
    ensures Balance(leases[i := leases[i].(released := leases[i].released + 1)], d)
         == Balance(leases, d) - leases[i].request.In(d)
  {
    hide Amount.In;
    var n := |leases| - 1;
    var more := leases[i].(released := leases[i].released + 1);
    if i == n {
      assert leases[i := more][..n] == leases[..n];
    } else {
      assert leases[i := more][..n] == leases[..n][i := more];
      BalanceReleased(leases[..n], i, d);
    }
  }

  lemma BalanceGranted(leases: seq<Lease>, request: Amount, d: Dimension)
    ensures Balance(leases + [Lease(request, 0)], d) == Balance(leases, d) + request.In(d)
  {
    hide Amount.In;
    assert (leases + [Lease(request, 0)])[..|leases|] == leases;
  }

  lemma SumsIn(a: Amount, b: Amount, d: Dimension)
    ensures a.Plus(b).In(d) == a.In(d) + b.In(d) && a.Minus(b).In(d) == a.In(d) - b.In(d)
  {
  }

  lemma NothingIn(d: Dimension)
    ensures NOTHING.In(d) == Balance([], d) == 0
  {
  }

  /** After every history whatever, what is used is the balance of the leases. */
  lemma {:induction false} UsedIsBalance(capacity: Amount, ops: seq<Operation>, d: Dimension)
    ensures Replay(capacity, ops).used.In(d) == Balance(Replay(capacity, ops).leases, d)
  {
    hide Amount.In, Amount.Plus, Amount.Minus, Amount.Within, Fits, Balance;
    if ops == [] {
      NothingIn(d);
    } else {
      var before, op := Replay(capacity, ops[..|ops| - 1]), ops[|ops| - 1];
      UsedIsBalance(capacity, ops[..|ops| - 1], d);
      match op {
        case Reserve(request) =>
          SumsIn(before.used, request, d);
          BalanceGranted(before.leases, request, d);
        case Release(i) =>
          if i < |before.leases| {
            SumsIn(before.used, before.leases[i].request, d);
            BalanceReleased(before.leases, i, d);
          }
      }
    }
  }

  predicate NonNegativeRequests(ops: seq<Operation>) {
    forall i, d :: 0 <= i < |ops| && ops[i].Reserve? ==> ops[i].request.In(d) >= 0
  }

  predicate NonNegativeLeases(leases: seq<Lease>) {
    forall i, d :: 0 <= i < |leases| ==> leases[i].request.In(d) >= 0
  }

  lemma {:induction false} UsedWithin(capacity: Amount, ops: seq<Operation>)
    requires NOTHING.Within(capacity) && NonNegativeRequests(ops)
    ensures Replay(capacity, ops).used.Within(capacity)
    ensures NonNegativeLeases(Replay(capacity, ops).leases)
  {
    if ops != [] {
      var n := |ops| - 1;
      assert forall i :: 0 <= i < n ==> ops[..n][i] == ops[i];
      UsedWithin(capacity, ops[..n]);
      var before := Replay(capacity, ops[..n]);
      if ops[n].Release? && ops[n].lease < |before.leases| {
        var request := before.leases[ops[n].lease].request;
        assert request.In(CPU) >= 0 && request.In(Memory) >= 0 && request.In(Disk) >= 0;
      }
    }
  }

  /** No lease that holds anything was released more than once. */
  predicate ReleasedOnce(leases: seq<Lease>, d: Dimension) {
    forall i :: 0 <= i < |leases| ==> leases[i].released <= 1 || leases[i].request.In(d) == 0
  }

  lemma {:induction false} ManyMeaning(n: nat, amount: int)
    requires amount >= 0
    ensures Many(n, amount) >= amount * (if n == 0 then 0 else 1) && (n > 1 && amount > 0 ==> Many(n, amount) > amount)
    ensures amount == 0 ==> Many(n, amount) == 0
  {
    if n > 0 {
      ManyMeaning(n - 1, amount);
    }
  }

  lemma LastLease(leases: seq<Lease>, d: Dimension)
    requires leases != []
    ensures var init, last := leases[..|leases| - 1], leases[|leases| - 1];
            && (ReleasedOnce(leases, d) <==> ReleasedOnce(init, d) && (last.released <= 1 || last.request.In(d) == 0))
            && (NonNegativeLeases(leases) ==> NonNegativeLeases(init) && last.request.In(d) >= 0)
  {
    hide Amount.In;
    var n := |leases| - 1;
    assert forall i :: 0 <= i < n ==> leases[..n][i] == leases[i];
  }

  lemma {:induction false} BalanceOutstanding(leases: seq<Lease>, d: Dimension)
    requires NonNegativeLeases(leases)
    ensures Balance(leases, d) <= Outstanding(leases, d)
    ensures Balance(leases, d) == Outstanding(leases, d) <==> ReleasedOnce(leases, d)
  {
    hide Amount.In, NonNegativeLeases, ReleasedOnce;
    if leases == [] {
      NoLease(d);
    } else {
      var n := |leases| - 1;
      LastLease(leases, d);
      BalanceOutstanding(leases[..n], d);
      ManyMeaning(leases[n].released, leases[n].request.In(d));
    }
  }

  lemma NoLease(d: Dimension)
    ensures ReleasedOnce([], d)
  {
  }

  /** With requests that are not negative, what is used never exceeds the capacity, and in each
      dimension it is the sum of the outstanding leases exactly when no lease that holds
      anything there was released twice; otherwise it falls short of that sum, and the pool
      can be overcommitted.
   */
  lemma UsedIsOutstanding(capacity: Amount, ops: seq<Operation>, d: Dimension)
    requires NOTHING.Within(capacity) && NonNegativeRequests(ops)
    ensures var pool := Replay(capacity, ops);
            && pool.used.In(d) <= capacity.In(d) && pool.used.In(d) <= Outstanding(pool.leases, d)
            && (pool.used.In(d) == Outstanding(pool.leases, d) <==> ReleasedOnce(pool.leases, d))
  {
    hide Replay;
    var pool := Replay(capacity, ops);
    UsedIsBalance(capacity, ops, d);
    UsedWithin(capacity, ops);
    BalanceOutstanding(pool.leases, d);
  }

  /** What fills the pool up to its capacity in one dimension and takes nothing in the others. */
  function TopUp(capacity: Amount, used: Amount, d: Dimension): Amount {
    match d
    case CPU => Amount(capacity.cpu - used.cpu, 0, 0)
    case Memory => Amount(0, capacity.memory - used.memory, 0)
    case Disk => Amount(0, 0, capacity.disk - used.disk)
  }

  lemma OutstandingNext(leases: seq<Lease>, request: Amount, d: Dimension)
    ensures Outstanding(leases + [Lease(request, 0)], d) == Outstanding(leases, d) + request.In(d)
  {
    hide Amount.In;
    assert (leases + [Lease(request, 0)])[..|leases|] == leases;
  }

  lemma Next(capacity: Amount, ops: seq<Operation>, op: Operation)
    ensures Replay(capacity, ops + [op]) == Apply(capacity, Replay(capacity, ops), op)
  {
    assert (ops + [op])[..|ops|] == ops;
  }

  /** After a second release the pool is one granted request away from being overcommitted. */
  lemma SecondReleaseOvercommits(capacity: Amount, ops: seq<Operation>, d: Dimension)
    requires NOTHING.Within(capacity) && NonNegativeRequests(ops) && !ReleasedOnce(Replay(capacity, ops).leases, d)
    ensures var request := TopUp(capacity, Replay(capacity, ops).used, d);
            && (forall e :: request.In(e) >= 0)
            && Outstanding(Replay(capacity, ops + [Reserve(request)]).leases, d) > capacity.In(d)
  {
    hide Replay, Outstanding, ReleasedOnce, NonNegativeRequests;
    var pool := Replay(capacity, ops);
    UsedIsOutstanding(capacity, ops, d);
    UsedWithin(capacity, ops);
    var request := TopUp(capacity, pool.used, d);
    assert Fits(capacity, pool.used, request);
    Next(capacity, ops, Reserve(request));
    OutstandingNext(pool.leases, request, d);
  }
}
