/** What a ten-second window holds when both its edges count (edge/limit.go). The limiter drops a stamp
    exactly ten seconds old, so its own window excludes the older edge. */
module EdgeWindows {
  import opened EdgeLimiter

  /** How many of `events` lie in the ten seconds up to `end`, both edges included. */
  function InClosed(events: seq<int>, end: int): nat {
    if events == [] then 0
    else
      var last := events[|events| - 1];
      InClosed(events[..|events| - 1], end) + if end - WINDOW <= last <= end then 1 else 0
  }

  function AtInstant(events: seq<int>, t: int): nat {
    if events == [] then 0
    else AtInstant(events[..|events| - 1], t) + if events[|events| - 1] == t then 1 else 0
  }

  /** Hits at `times`, all at one rate. */
  function AtRate(times: seq<int>, rpm: nat): seq<Arrival> {
    if times == [] then [] else AtRate(times[..|times| - 1], rpm) + [Arrival(times[|times| - 1], rpm)]
  }

  /** The events a key is allowed at `times`. */
  function Allowed(times: seq<int>, rpm: nat): seq<int> {
    Reference(AtRate(times, rpm)).0
  }

  lemma {:induction false} AtRateIsPointwise(times: seq<int>, rpm: nat)
    ensures |AtRate(times, rpm)| == |times|
    ensures forall i | 0 <= i < |times| :: AtRate(times, rpm)[i] == Arrival(times[i], rpm)
  {
    if times != [] { AtRateIsPointwise(times[..|times| - 1], rpm); }
  }

  lemma AtRateIsOrdered(times: seq<int>, rpm: nat)
    requires Ascending(times)
    ensures InTimeOrder(AtRate(times, rpm)) && WithinBudget(AtRate(times, rpm), Budget(rpm))
    ensures times != [] ==> Last(AtRate(times, rpm)) == times[|times| - 1]
  {
    AtRateIsPointwise(times, rpm);
  }

  lemma OneRateIsBounded(times: seq<int>, rpm: nat, end: int)
    requires Ascending(times)
    ensures InWindow(Allowed(times, rpm), end) <= Budget(rpm)
  {
    AtRateIsOrdered(times, rpm);
    WindowsAreBounded(AtRate(times, rpm), Budget(rpm), end);
  }

  lemma {:induction false} ClosedIsOpenAndEdge(events: seq<int>, end: int)
    ensures InClosed(events, end) == InWindow(events, end) + AtInstant(events, end - WINDOW)
  {
    if events != [] { ClosedIsOpenAndEdge(events[..|events| - 1], end); }
  }

  lemma {:induction false} InstantInWindow(events: seq<int>, t: int)
    ensures AtInstant(events, t) <= InWindow(events, t)
  {
    if events != [] { InstantInWindow(events[..|events| - 1], t); }
  }

  /** Whatever rate each hit finds, a closed window holds at most twice the largest budget. */
  lemma ClosedWindowsAreBounded(hits: seq<Arrival>, bound: nat, end: int)
    requires InTimeOrder(hits) && WithinBudget(hits, bound)
    ensures InClosed(Reference(hits).0, end) <= 2 * bound
  {
    var events := Reference(hits).0;
    ClosedIsOpenAndEdge(events, end);
    InstantInWindow(events, end - WINDOW);
    WindowsAreBounded(hits, bound, end);
    WindowsAreBounded(hits, bound, end - WINDOW);
  }

  predicate StrictlyAscending(times: seq<int>) {
    forall i, j | 0 <= i < j < |times| :: times[i] < times[j]
  }

  lemma {:induction false} NoneAfter(events: seq<int>, bound: int, t: int)
    requires AllAtMost(events, bound) && bound < t
    ensures AtInstant(events, t) == 0
  {
    if events != [] { NoneAfter(events[..|events| - 1], bound, t); }
  }

  lemma AtRateSnoc(times: seq<int>, rpm: nat, now: int)
    ensures AtRate(times + [now], rpm) == AtRate(times, rpm) + [Arrival(now, rpm)]
  {
    assert (times + [now])[..|times|] == times;
  }

  /** One more call: allowed when its window has room, and counted at its own instant then. */
  lemma AllowedSnoc(times: seq<int>, rpm: nat, now: int)
    ensures var before, after := Allowed(times, rpm), Allowed(times + [now], rpm);
            && after == (if InWindow(before, now) < Budget(rpm) then before + [now] else before)
            && forall t :: AtInstant(before + [now], t) == AtInstant(before, t) + if now == t then 1 else 0
  {
    hide InWindow, Budget, AtRate;
    var before, hits := Allowed(times, rpm), AtRate(times, rpm);
    AtRateSnoc(times, rpm, now);
    assert (hits + [Arrival(now, rpm)])[..|hits|] == hits;
    assert (before + [now])[..|before|] == before;
  }

  lemma AllowedIsPast(times: seq<int>, rpm: nat, now: int)
    requires Ascending(times) && (times != [] ==> times[|times| - 1] < now)
    ensures AtInstant(Allowed(times, rpm), now) == 0
  {
    if times != [] {
      AtRateIsOrdered(times, rpm);
      PrunedLogRefines(AtRate(times, rpm));
      hide InWindow, Budget, Reference, AtRate, AtInstant;
      NoneAfter(Allowed(times, rpm), times[|times| - 1], now);
    } else {
      NothingYet(rpm, now);
    }
  }

  lemma {:induction false} OneAnInstant(times: seq<int>, rpm: nat, t: int)
    requires StrictlyAscending(times)
    ensures AtInstant(Allowed(times, rpm), t) <= 1
  {
    if times == [] {
      NothingYet(rpm, t);
    } else {
      hide InWindow, Budget, Allowed, AtInstant;
      var init, now := times[..|times| - 1], times[|times| - 1];
      assert times == init + [now];
      AllowedSnoc(init, rpm, now);
      OneAnInstant(init, rpm, t);
      AllowedIsPast(init, rpm, now);
    }
  }

  lemma NothingYet(rpm: nat, t: int)
    ensures AtInstant(Allowed([], rpm), t) == 0
  {
  }

  /** When no two calls read the same instant, it holds at most one more than the budget. */
  lemma StrictReadingsAddOne(times: seq<int>, rpm: nat, end: int)
    requires StrictlyAscending(times)
    ensures InClosed(Allowed(times, rpm), end) <= Budget(rpm) + 1
  {
    var events := Allowed(times, rpm);
    ClosedIsOpenAndEdge(events, end);
    OneRateIsBounded(times, rpm, end);
    OneAnInstant(times, rpm, end - WINDOW);
  }

  lemma ClosedSnoc(events: seq<int>, now: int)
    ensures InClosed(events + [now], now) == InClosed(events, now) + 1
  {
    assert (events + [now])[..|events|] == events;
  }

  /** A call takes the closed window that ends with it over the budget exactly when that window already
      held the budget, with an event on its older edge. */
  lemma HitOverfillsExactly(times: seq<int>, rpm: nat, now: int)
    requires Ascending(times + [now])
    ensures InClosed(Allowed(times + [now], rpm), now) > Budget(rpm)
            <==> InClosed(Allowed(times, rpm), now) >= Budget(rpm) && AtInstant(Allowed(times, rpm), now - WINDOW) > 0
  {
    var before := Allowed(times, rpm);
    assert Ascending(times) by { assert (times + [now])[..|times|] == times; }
    hide InWindow, Budget, Allowed, InClosed, AtInstant;
    AllowedSnoc(times, rpm, now);
    ClosedIsOpenAndEdge(before, now);
    OneRateIsBounded(times, rpm, now);
    ClosedSnoc(before, now);
  }

  // ---- the bounds are reached ----

  predicate HasRoom(times: seq<int>, rpm: nat, k: nat) {
    k < |times| && InWindow(times[..k], times[k]) < Budget(rpm)
  }

  /** When each call finds room among all the earlier ones, all are allowed. */
  lemma {:induction false} AllAreAllowed(times: seq<int>, rpm: nat)
    requires forall k: nat | k < |times| :: HasRoom(times, rpm, k)
    ensures Allowed(times, rpm) == times
    ensures |Reference(AtRate(times, rpm)).1| == |times| && forall k | 0 <= k < |times| :: Reference(AtRate(times, rpm)).1[k]
  {
    if times != [] {
      var init := times[..|times| - 1];
      forall k: nat | k < |init| ensures HasRoom(init, rpm, k) {
        assert HasRoom(times, rpm, k) && init[..k] == times[..k];
      }
      AllAreAllowed(init, rpm);
      LastIsAllowed(times, rpm);
    }
  }

  lemma LastIsAllowed(times: seq<int>, rpm: nat)
    requires times != [] && HasRoom(times, rpm, |times| - 1)
    requires var init := Reference(AtRate(times[..|times| - 1], rpm));
             init.0 == times[..|times| - 1] && |init.1| == |times| - 1 && forall k | 0 <= k < |init.1| :: init.1[k]
    ensures Allowed(times, rpm) == times
    ensures |Reference(AtRate(times, rpm)).1| == |times| && forall k | 0 <= k < |times| :: Reference(AtRate(times, rpm)).1[k]
  {
    hide InWindow, Budget;
    assert times == times[..|times| - 1] + [times[|times| - 1]];
  }

  lemma {:induction false} InWindowAppend(a: seq<int>, b: seq<int>, now: int)
    ensures InWindow(a + b, now) == InWindow(a, now) + InWindow(b, now)
    ensures AtInstant(a + b, now) == AtInstant(a, now) + AtInstant(b, now)
    decreases |b|
  {
    if b == [] {
      assert a + b == a;
    } else {
      assert (a + b)[..|a + b| - 1] == a + b[..|b| - 1];
      InWindowAppend(a, b[..|b| - 1], now);
    }
  }

  function Burst(n: nat, at: int): seq<int> {
    seq(n, _ => at)
  }

  lemma {:induction false} BurstCounts(n: nat, at: int, now: int)
    ensures InWindow(Burst(n, at), now) == if now - WINDOW < at <= now then n else 0
    ensures AtInstant(Burst(n, at), now) == if at == now then n else 0
    decreases n
  {
    if n > 0 {
      assert Burst(n, at)[..n - 1] == Burst(n - 1, at);
      BurstCounts(n - 1, at, now);
    }
  }

  function TwoBursts(b: nat, at: int): seq<int> {
    Burst(b, at) + Burst(b, at + WINDOW)
  }

  lemma BurstsFindRoom(b: nat, at: int, k: nat)
    requires k < 2 * b
    ensures InWindow(TwoBursts(b, at)[..k], TwoBursts(b, at)[k]) < b
  {
    hide InWindow;
    var first, times := Burst(b, at), TwoBursts(b, at);
    if k < b {
      assert times[..k] == Burst(k, at);
      BurstCounts(k, at, at);
    } else {
      assert times[..k] == first + Burst(k - b, at + WINDOW);
      InWindowAppend(first, Burst(k - b, at + WINDOW), at + WINDOW);
      BurstCounts(b, at, at + WINDOW);
      BurstCounts(k - b, at + WINDOW, at + WINDOW);
    }
  }

  lemma BurstsFillClosed(b: nat, at: int)
    ensures InClosed(TwoBursts(b, at), at + WINDOW) == 2 * b
  {
    hide InWindow, InClosed, AtInstant;
    var first, second := Burst(b, at), Burst(b, at + WINDOW);
    ClosedIsOpenAndEdge(first + second, at + WINDOW);
    InWindowAppend(first, second, at + WINDOW);
    InWindowAppend(first, second, at);
    BurstCounts(b, at, at + WINDOW);
    BurstCounts(b, at + WINDOW, at + WINDOW);
    BurstCounts(b, at, at);
    BurstCounts(b, at + WINDOW, at);
  }

  /** At every rate a closed window can hold twice the budget: a full burst, and another exactly ten
      seconds later. The limiter allows every one of these calls. */
  lemma TwiceTheBudgetIsReached(rpm: nat, at: int)
    ensures var times := TwoBursts(Budget(rpm), at);
            && Ascending(times) && Allowed(times, rpm) == times
            && InClosed(Allowed(times, rpm), at + WINDOW) == 2 * Budget(rpm)
            && |RunKey(AtRate(times, rpm)).1| == |times| && forall k | 0 <= k < |times| :: RunKey(AtRate(times, rpm)).1[k]
  {
    hide InWindow, InClosed, Budget, RunKey, Reference;
    var times := TwoBursts(Budget(rpm), at);
    forall k: nat | k < |times| ensures HasRoom(times, rpm, k) {
      BurstsFindRoom(Budget(rpm), at, k);
    }
    AllAreAllowed(times, rpm);
    AtRateIsOrdered(times, rpm);
    PrunedLogRefines(AtRate(times, rpm));
    BurstsFillClosed(Budget(rpm), at);
  }

  function Ramp(n: nat, at: int): seq<int> {
    seq(n, i => at + i)
  }

  lemma {:induction false} RampCounts(n: nat, at: int, now: int)
    requires n <= WINDOW && at <= now
    ensures now <= at + WINDOW ==> InWindow(Ramp(n, at), now) <= n
    ensures now == at + WINDOW ==> InWindow(Ramp(n, at), now) == if n == 0 then 0 else n - 1
    ensures AtInstant(Ramp(n, at), at) == if n == 0 then 0 else 1
    decreases n
  {
    if n > 0 {
      assert Ramp(n, at)[..n - 1] == Ramp(n - 1, at);
      RampCounts(n - 1, at, now);
    }
  }

  function RampAndOne(b: nat, at: int): seq<int> {
    Ramp(b, at) + Burst(1, at + WINDOW)
  }

  lemma RampFindsRoom(b: nat, at: int, k: nat)
    requires 1 <= b <= WINDOW && k <= b
    ensures InWindow(RampAndOne(b, at)[..k], RampAndOne(b, at)[k]) < b
  {
    hide InWindow, AtInstant;
    assert RampAndOne(b, at)[..k] == Ramp(k, at);
    RampCounts(k, at, RampAndOne(b, at)[k]);
  }

  lemma RampFillsClosed(b: nat, at: int)
    requires 1 <= b <= WINDOW
    ensures InClosed(RampAndOne(b, at), at + WINDOW) == b + 1
  {
    hide InWindow, InClosed, AtInstant;
    var first, second := Ramp(b, at), Burst(1, at + WINDOW);
    ClosedIsOpenAndEdge(first + second, at + WINDOW);
    InWindowAppend(first, second, at + WINDOW);
    InWindowAppend(first, second, at);
    RampCounts(b, at, at + WINDOW);
    BurstCounts(1, at + WINDOW, at + WINDOW);
    BurstCounts(1, at + WINDOW, at);
  }

  /** And with no two calls at one instant it can hold one more than the budget. */
  lemma OneMoreIsReached(rpm: nat, at: int)
    ensures var times := RampAndOne(Budget(rpm), at);
            && StrictlyAscending(times) && Allowed(times, rpm) == times
            && InClosed(Allowed(times, rpm), at + WINDOW) == Budget(rpm) + 1
  {
    assert 1 <= Budget(rpm) <= WINDOW;
    hide InWindow, InClosed, Budget, Reference;
    var times := RampAndOne(Budget(rpm), at);
    forall k: nat | k < |times| ensures HasRoom(times, rpm, k) {
      RampFindsRoom(Budget(rpm), at, k);
    }
    AllAreAllowed(times, rpm);
    RampFillsClosed(Budget(rpm), at);
  }
}
