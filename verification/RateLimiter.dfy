/** The fixed-window rate limiter: what it admits over whole histories of requests. */
module RateLimiter {
  import opened Wrappers

  datatype RateWindow = RateWindow(count: int, until: int)

  /** The answer to a request, what is left of the window, and the new state of the key. */
  datatype Answer = Answer(ok: bool, wait: int, entry: RateWindow)

  function Decide(limit: int, window: int, entry: Option<RateWindow>, now: int): Answer {
    if entry.None? || now >= entry.value.until then Answer(true, 0, RateWindow(1, now + window))
    else if entry.value.count >= limit then Answer(false, entry.value.until - now, entry.value)
    else Answer(true, 0, RateWindow(entry.value.count + 1, entry.value.until))
  }

  class FixedWindowLimiter {
    const limit: int
    const window: int
    var items: map<string, RateWindow>

    constructor (limit: int, window: int)
      ensures this.limit == limit && this.window == window && items == map[]
    {
      this.limit, this.window, items := limit, window, map[];
    }

    function EntryOf(key: string): Option<RateWindow>
      reads this
    {
      if key in items then Some(items[key]) else None
    }

    /** `allow`: the answer depends on the key's own entry, and no other entry changes. */
    method Allow(key: string, now: int) returns (ok: bool, wait: int)
      modifies this
      ensures var a := Decide(limit, window, old(EntryOf(key)), now);
              ok == a.ok && wait == a.wait && items == old(items)[key := a.entry]
    {
      if key !in items || now >= items[key].until {
        items := items[key := RateWindow(1, now + window)];
        return true, 0;
      }
      var entry := items[key];
      if entry.count >= limit {
        assert items[key := entry] == items;
        return false, entry.until - now;
      }
      entry := entry.(count := entry.count + 1);
      items := items[key := entry];
      return true, 0;
    }
  }

  // --------------------------------------------------------------- the history of a key

  /** The entry after the requests of one key at these times. */
  function Replay(limit: int, window: int, times: seq<int>): Option<RateWindow> {
    if times == [] then None
    else Some(Decide(limit, window, Replay(limit, window, times[..|times| - 1]), times[|times| - 1]).entry)
  }

  predicate Admits(limit: int, window: int, times: seq<int>, k: nat)
    requires k < |times|
  {
    Decide(limit, window, Replay(limit, window, times[..k]), times[k]).ok
  }

  /** How many of the requests with `from <= time < to` are admitted. */
  function Admitted(limit: int, window: int, times: seq<int>, from: int, to: int): nat {
    if times == [] then 0
    else
      var n := |times| - 1;
      Admitted(limit, window, times[..n], from, to)
      + if from <= times[n] < to && Admits(limit, window, times, n) then 1 else 0
  }

  predicate Ordered(times: seq<int>) {
    forall i, j :: 0 <= i < j < |times| ==> times[i] <= times[j]
  }

  function Cap(limit: int): int {
    if limit < 1 then 1 else limit
  }

  /** Past the last request there is nothing to count. */
  lemma {:induction false} NothingLater(limit: int, window: int, times: seq<int>, from: int, to: int)
    requires forall i :: 0 <= i < |times| ==> times[i] < from
    ensures Admitted(limit, window, times, from, to) == 0
  {
    if times != [] {
      NothingLater(limit, window, times[..|times| - 1], from, to);
    }
  }

  lemma {:induction false} WiderCountsMore(limit: int, window: int, times: seq<int>, from: int, to: int, from': int,
          to': int)
    requires from' <= from && to <= to'
    ensures Admitted(limit, window, times, from, to) <= Admitted(limit, window, times, from', to')
  {
    if times != [] {
      WiderCountsMore(limit, window, times[..|times| - 1], from, to, from', to');
    }
  }

  /** What the entry knows: the window was opened by an admitted request, its count is the
      number admitted since, never above the limit, and less than the limit were admitted in
      the stretch of one window length that ends where it begins.
   */
  ghost predicate Counted(limit: int, window: int, times: seq<int>, e: RateWindow)
    requires times != []
  {
    var start := e.until - window;
    var end := times[|times| - 1] + 1;
    && start < end <= e.until && 1 <= e.count <= Cap(limit)
    && Admitted(limit, window, times, start, end) == e.count
    && (forall a :: a > start ==> Admitted(limit, window, times, a, end) <= e.count - 1)
    && (forall a :: a > start - window ==> Admitted(limit, window, times, a, end) <= Cap(limit) - 1 + e.count)
  }

  lemma {:induction false} EntryCounts(limit: int, window: int, times: seq<int>)
    requires window > 0 && Ordered(times) && times != []
    ensures Replay(limit, window, times).Some? && Counted(limit, window, times, Replay(limit, window, times).value)
  {
    var n := |times| - 1;
    var init, now := times[..n], times[n];
    if init == [] {
      forall a, b ensures Admitted(limit, window, times, a, b) == if a <= now < b then 1 else 0 {
        assert Admitted(limit, window, init, a, b) == 0;
      }
    } else {
      EntryCounts(limit, window, init);
      var e := Replay(limit, window, init).value;
      assert init[n - 1] <= now;
      if now >= e.until {
        OpensWindow(limit, window, times, e);
      } else {
        StaysInWindow(limit, window, times, e);
      }
    }
  }

  lemma LastCounts(limit: int, window: int, times: seq<int>, from: int)
    requires Ordered(times) && |times| > 1
    ensures var n := |times| - 1;
            Admitted(limit, window, times, from, times[n] + 1)
              == Admitted(limit, window, times[..n], from, times[n - 1] + 1)
                 + if from <= times[n] && Admits(limit, window, times, n) then 1 else 0
  {
    var n := |times| - 1;
    SameTail(limit, window, times[..n], from, times[n - 1] + 1, times[n] + 1);
  }

  /** Every request lies before either bound. */
  lemma {:induction false} SameTail(limit: int, window: int, times: seq<int>, from: int, to: int, to': int)
    requires forall i :: 0 <= i < |times| ==> times[i] < to && times[i] < to'
    ensures Admitted(limit, window, times, from, to) == Admitted(limit, window, times, from, to')
  {
    if times != [] {
      SameTail(limit, window, times[..|times| - 1], from, to, to');
    }
  }

  lemma OpensWindow(limit: int, window: int, times: seq<int>, e: RateWindow)
    requires window > 0 && Ordered(times) && |times| > 1
    requires var n := |times| - 1;
             && Replay(limit, window, times[..n]) == Some(e) && Counted(limit, window, times[..n], e)
             && times[n] >= e.until
    ensures Counted(limit, window, times, RateWindow(1, times[|times| - 1] + window))
  {
    hide Admitted;
    var n := |times| - 1;
    var init, now, end := times[..n], times[n], times[n] + 1;
    forall a
      ensures Admitted(limit, window, times, a, end)
           == Admitted(limit, window, init, a, init[n - 1] + 1) + if a <= now then 1 else 0
    {
      LastCounts(limit, window, times, a);
    }
    var before := init[n - 1] + 1;
    forall a | a >= now ensures Admitted(limit, window, init, a, before) == 0 {
      NothingLater(limit, window, init, a, before);
    }
  }

  lemma StaysInWindow(limit: int, window: int, times: seq<int>, e: RateWindow)
    requires window > 0 && Ordered(times) && |times| > 1
    requires var n := |times| - 1;
             Replay(limit, window, times[..n]) == Some(e) && Counted(limit, window, times[..n], e) && times[n] < e.until
    ensures Counted(limit, window, times, Decide(limit, window, Some(e), times[|times| - 1]).entry)
  {
    hide Admitted;
    var n := |times| - 1;
    var init, now, end := times[..n], times[n], times[n] + 1;
    assert init[n - 1] <= now;
    forall a ensures Admitted(limit, window, times, a, end)
                  == Admitted(limit, window, init, a, init[n - 1] + 1) + if a <= now && e.count < limit then 1 else 0 {
      LastCounts(limit, window, times, a);
    }
  }

  /** No half-open interval of one window length has more than `2 * limit - 1` admissions. */
  lemma {:induction false} SlidingBound(limit: int, window: int, times: seq<int>, from: int)
    requires window > 0 && Ordered(times)
    ensures Admitted(limit, window, times, from, from + window) <= 2 * Cap(limit) - 1
  {
    if times != [] {
      var n := |times| - 1;
      var end := times[n] + 1;
      SlidingBound(limit, window, times[..n], from);
      if from <= times[n] < from + window {
        EntryCounts(limit, window, times);
        var e := Replay(limit, window, times).value;
        SameTail(limit, window, times, from, end, from + window);
      }
    }
  }

  /** Within the window that is open, no more than the limit is admitted. */
  lemma WindowBound(limit: int, window: int, times: seq<int>)
    requires window > 0 && Ordered(times) && times != []
    ensures var e := Replay(limit, window, times).value;
            Admitted(limit, window, times, e.until - window, e.until) == e.count <= Cap(limit)
  {
    EntryCounts(limit, window, times);
    var e := Replay(limit, window, times).value;
    SameTail(limit, window, times, e.until - window, times[|times| - 1] + 1, e.until);
  }

  /** A refusal is earned: the open window has admitted its full limit; a request after the
      announced wait is admitted, and none before.
   */
  lemma RefusalEarned(limit: int, window: int, times: seq<int>, now: int)
    requires window > 0 && Ordered(times + [now])
    requires var a := Decide(limit, window, Replay(limit, window, times), now); !a.ok
    ensures var e := Replay(limit, window, times).value;
            var a := Decide(limit, window, Replay(limit, window, times), now);
            && times != [] && e.until - window <= now < e.until
            && Admitted(limit, window, times, e.until - window, e.until) == Cap(limit)
            && 0 < a.wait <= window && Decide(limit, window, Some(e), now + a.wait).ok
            && forall t :: now <= t < now + a.wait ==> !Decide(limit, window, Some(e), t).ok
  {
    assert forall i :: 0 <= i < |times| ==>
              times[i] == (times + [now])[i] && (times + [now])[i] <= (times + [now])[|times|];
    WindowBound(limit, window, times);
    EntryCounts(limit, window, times);
  }

  /** A window that is not positive admits everything. */
  lemma NoWindowNoLimit(limit: int, window: int, times: seq<int>, k: nat)
    requires window <= 0 && Ordered(times) && k < |times|
    ensures Admits(limit, window, times, k)
  {
    if k > 0 {
      OpenedBehind(limit, window, times[..k]);
    }
  }

  lemma {:induction false} OpenedBehind(limit: int, window: int, times: seq<int>)
    requires window <= 0 && Ordered(times) && times != []
    ensures Replay(limit, window, times).Some? && Replay(limit, window, times).value.until <= times[|times| - 1]
  {
    var n := |times| - 1;
    if n > 0 {
      OpenedBehind(limit, window, times[..n]);
      assert times[n - 1] <= times[n];
    }
  }

  /** The bound is met: one request, `limit - 1` at the end of its window and `limit` at the
      start of the next are all admitted, all but the first within one window length.
   */
  lemma BoundMet(limit: int, window: int) returns (times: seq<int>)
    requires limit >= 1 && window >= 2
    ensures Ordered(times) && Admitted(limit, window, times, window - 1, 2 * window - 1) == 2 * limit - 1
  {
    hide Replay, Admitted;
    Nothing(limit, window, window - 1, 2 * window - 1);
    Appended(limit, window, [], 0, window - 1, 2 * window - 1);
    times := [] + [0];
    var i := 1;
    while i < limit
      invariant 1 <= i <= limit && |times| == i && Ordered(times) && times[i - 1] <= window - 1
      invariant Replay(limit, window, times) == Some(RateWindow(i, window))
      invariant Admitted(limit, window, times, window - 1, 2 * window - 1) == i - 1
    {
      Appended(limit, window, times, window - 1, window - 1, 2 * window - 1);
      times := times + [window - 1];
      i := i + 1;
    }
    Appended(limit, window, times, window, window - 1, 2 * window - 1);
    times := times + [window];
    var j := 1;
    while j < limit
      invariant 1 <= j <= limit && |times| == limit + j && Ordered(times) && times[|times| - 1] == window
      invariant Replay(limit, window, times) == Some(RateWindow(j, 2 * window))
      invariant Admitted(limit, window, times, window - 1, 2 * window - 1) == limit - 1 + j
    {
      Appended(limit, window, times, window, window - 1, 2 * window - 1);
      times := times + [window];
      j := j + 1;
    }
  }

  lemma Nothing(limit: int, window: int, from: int, to: int)
    ensures Replay(limit, window, []) == None && Admitted(limit, window, [], from, to) == 0
  {
  }

  lemma Appended(limit: int, window: int, times: seq<int>, now: int, from: int, to: int)
    ensures var a := Decide(limit, window, Replay(limit, window, times), now);
            && Replay(limit, window, times + [now]) == Some(a.entry)
            && Admitted(limit, window, times + [now], from, to)
               == Admitted(limit, window, times, from, to) + if from <= now < to && a.ok then 1 else 0
  {
    assert (times + [now])[..|times|] == times;
  }

  // ------------------------------------------------------------------------ many keys

  datatype Hit = Hit(key: string, now: int)

  /** The map of entries after a history of requests of many keys. */
  function Run(limit: int, window: int, hits: seq<Hit>): map<string, RateWindow> {
    if hits == [] then map[]
    else
      var items, hit := Run(limit, window, hits[..|hits| - 1]), hits[|hits| - 1];
      items[hit.key := Decide(limit, window, if hit.key in items then Some(items[hit.key]) else None, hit.now).entry]
  }

  function TimesOf(key: string, hits: seq<Hit>): seq<int> {
    if hits == [] then []
    else TimesOf(key, hits[..|hits| - 1]) + if hits[|hits| - 1].key == key then [hits[|hits| - 1].now] else []
  }

  /** A key's entry, and so every answer it gets, depends on its own requests alone. */
  lemma {:induction false} KeysApart(limit: int, window: int, hits: seq<Hit>, key: string)
    ensures (if key in Run(limit, window, hits) then Some(Run(limit, window, hits)[key]) else None)
         == Replay(limit, window, TimesOf(key, hits))
  {
    if hits != [] {
      var init, hit := hits[..|hits| - 1], hits[|hits| - 1];
      KeysApart(limit, window, init, key);
      if hit.key == key {
        Appended(limit, window, TimesOf(key, init), hit.now, 0, 0);
      } else {
        assert TimesOf(key, hits) == TimesOf(key, init);
      }
    }
  }
}
