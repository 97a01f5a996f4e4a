/** The edge's sliding-window rate limiter (edge/limit.go): its state per key and zone as values. */
module EdgeLimiter {
  import opened Collections

  const SECOND: int := 1_000_000_000
  const WINDOW: int := 10 * SECOND
  const MAX_KEYS: nat := 65536
  const UINT32: nat := 0x1_0000_0000
  const MAX_RPM: nat := 0x4000_0000   // 1 << 30

  datatype KeyState = KeyState(stamps: seq<int>, lastSeen: int)

  type Zone = map<string, KeyState>

  datatype Verdict = Verdict(allowed: bool, retryAfter: int)

  /** Events per window; the sum is a uint32. */
  function Budget(rpm: nat): nat {
    var b := ((rpm + 5) % UINT32) / 6;
    if b < 1 then 1 else b
  }

  predicate Ascending(stamps: seq<int>) {
    forall i, j | 0 <= i < j < |stamps| :: stamps[i] <= stamps[j]
  }

  predicate AllAtMost(stamps: seq<int>, bound: int) {
    forall i | 0 <= i < |stamps| :: stamps[i] <= bound
  }

  /** The least index whose stamp is past `cutoff`. */
  function FirstAfter(stamps: seq<int>, cutoff: int): (k: nat)
    ensures k <= |stamps|
    ensures forall i | 0 <= i < k :: stamps[i] <= cutoff
    ensures k < |stamps| ==> stamps[k] > cutoff
  {
    if stamps == [] || stamps[0] > cutoff then 0 else 1 + FirstAfter(stamps[1..], cutoff)
  }

  function Pruned(stamps: seq<int>, cutoff: int): seq<int> {
    stamps[FirstAfter(stamps, cutoff)..]
  }

  /** Whole seconds until the oldest stamp leaves the window, rounded up, at least one. */
  function RetryAfter(oldest: int, now: int): int {
    var retry := (oldest + WINDOW - now + SECOND - 1) / SECOND;
    (if retry < 1 then 1 else retry) * SECOND
  }

  function Hit(ks: KeyState, rpm: nat, now: int): (KeyState, Verdict) {
    var stamps := Pruned(ks.stamps, now - WINDOW);
    if |stamps| >= Budget(rpm) then (KeyState(stamps, now), Verdict(false, RetryAfter(stamps[0], now)))
    else (KeyState(stamps + [now], now), Verdict(true, 0))
  }

  const NewKey := KeyState([], 0)

  function KeyOf(zone: Zone, key: string): KeyState {
    if key in zone then zone[key] else NewKey
  }

  function HitZone(zone: Zone, key: string, rpm: nat, now: int): (Zone, Verdict) {
    var (ks, verdict) := Hit(KeyOf(zone, key), rpm, now);
    (zone[key := ks], verdict)
  }

  function SweepZone(zone: Zone, idle: int, now: int): Zone {
    map key | key in zone && now - zone[key].lastSeen <= idle :: zone[key]
  }

  // ---- the budget ----

  /** Rounding up to at least one, for every rate a validated table admits and past it, up to the
      exact point where the uint32 sum wraps. */
  lemma BudgetIsCeiling(rpm: nat)
    requires rpm < UINT32
    ensures var ceiling := if rpm == 0 then 1 else (rpm - 1) / 6 + 1;
            Budget(rpm) == ceiling <==> rpm < UINT32 - 5
    ensures rpm <= MAX_RPM ==> rpm < UINT32 - 5 && Budget(rpm) * 6 >= rpm
  {
  }

  // ---- one key against its full history ----

  /** A hit on a key, at the rate its zone has in the table of the time. A zone without a rate asks for no
      limit, and its calls are no hits. */
  datatype Arrival = Arrival(at: int, rpm: nat)

  predicate InTimeOrder(hits: seq<Arrival>) {
    forall i, j | 0 <= i < j < |hits| :: hits[i].at <= hits[j].at
  }

  /** No rate among `hits` has a budget over `bound`. */
  predicate WithinBudget(hits: seq<Arrival>, bound: nat) {
    forall i | 0 <= i < |hits| :: Budget(hits[i].rpm) <= bound
  }

  /** The state of a key and the answers it gave to `hits`. */
  function RunKey(hits: seq<Arrival>): (KeyState, seq<bool>) {
    if hits == [] then (NewKey, [])
    else
      var (ks, answers) := RunKey(hits[..|hits| - 1]);
      var (next, verdict) := Hit(ks, hits[|hits| - 1].rpm, hits[|hits| - 1].at);
      (next, answers + [verdict.allowed])
  }

  /** How many of `events` lie in the ten seconds up to `now`, older edge excluded. */
  function InWindow(events: seq<int>, now: int): nat {
    if events == [] then 0
    else
      var last := events[|events| - 1];
      InWindow(events[..|events| - 1], now) + if now - WINDOW < last <= now then 1 else 0
  }

  /** The reference limiter: it keeps every allowed event for ever, and allows a hit when fewer than
      the budget lie in the last ten seconds. */
  function Reference(hits: seq<Arrival>): (seq<int>, seq<bool>) {
    if hits == [] then ([], [])
    else
      var (allowed, answers) := Reference(hits[..|hits| - 1]);
      var Arrival(now, rpm) := hits[|hits| - 1];
      var ok := InWindow(allowed, now) < Budget(rpm);
      (if ok then allowed + [now] else allowed, answers + [ok])
  }

  /** How many of the allowed events the log no longer keeps. */
  function Cut(stamps: seq<int>, history: seq<int>): int {
    |history| - |stamps|
  }

  /** The kept stamps are the full history without a prefix that has left the window. */
  predicate SuffixOf(stamps: seq<int>, history: seq<int>, now: int) {
    var cut := Cut(stamps, history);
    cut >= 0 && stamps == history[cut..] && forall i | 0 <= i < cut :: history[i] <= now - WINDOW
  }

  lemma FirstAfterIsLeast(stamps: seq<int>, cutoff: int, k: nat)
    requires k <= |stamps| && forall i | 0 <= i < k :: stamps[i] <= cutoff
    requires k < |stamps| ==> stamps[k] > cutoff
    ensures FirstAfter(stamps, cutoff) == k
  {
  }

  lemma {:induction false} CountIsLength(events: seq<int>, now: int)
    requires Ascending(events) && AllAtMost(events, now)
    ensures InWindow(events, now) == |events| - FirstAfter(events, now - WINDOW)
  {
    if events != [] {
      var init, last := events[..|events| - 1], events[|events| - 1];
      CountIsLength(init, now);
      FirstAfterOfInit(events, now - WINDOW);
    }
  }

  lemma FirstAfterOfInit(events: seq<int>, cutoff: int)
    requires events != [] && Ascending(events)
    ensures var k := FirstAfter(events[..|events| - 1], cutoff);
            FirstAfter(events, cutoff) == if events[|events| - 1] <= cutoff then |events| else k
  {
    var init, last := events[..|events| - 1], events[|events| - 1];
    if last <= cutoff {
      forall i | 0 <= i < |events| ensures events[i] <= cutoff { assert events[i] <= last; }
      FirstAfterIsLeast(events, cutoff, |events|);
    } else {
      FirstAfterIsLeast(events, cutoff, FirstAfter(init, cutoff));
    }
  }

  /** Pruning the suffix and pruning the whole history leave the same stamps. */
  lemma PruneSuffix(stamps: seq<int>, history: seq<int>, before: int, now: int)
    requires SuffixOf(stamps, history, before) && Ascending(history)
    requires before <= now || history == []
    ensures Pruned(stamps, now - WINDOW) == Pruned(history, now - WINDOW)
    ensures SuffixOf(Pruned(history, now - WINDOW), history, now)
  {
    var cutoff, cut := now - WINDOW, Cut(stamps, history);
    var k := FirstAfter(history, cutoff);
    assert cut <= k by {
      forall i | 0 <= i < cut ensures history[i] <= cutoff { assert history[i] <= before - WINDOW; }
    }
    forall i | 0 <= i < k - cut ensures stamps[i] <= cutoff { assert stamps[i] == history[cut + i]; }
    if k < |history| { assert stamps[k - cut] == history[k]; }
    FirstAfterIsLeast(stamps, cutoff, k - cut);
  }

  lemma SnocAscends(stamps: seq<int>, now: int)
    requires Ascending(stamps) && AllAtMost(stamps, now)
    ensures Ascending(stamps + [now]) && AllAtMost(stamps + [now], now)
  {
  }

  /** The clock reading of the last hit. */
  function Last(hits: seq<Arrival>): int {
    if hits == [] then 0 else hits[|hits| - 1].at
  }

  lemma InitOrdered(hits: seq<Arrival>)
    requires hits != [] && InTimeOrder(hits)
    ensures InTimeOrder(hits[..|hits| - 1])
    ensures hits[..|hits| - 1] != [] ==> Last(hits[..|hits| - 1]) <= Last(hits)
  {
  }

  /** What a hit does to a log whose history is known. */
  lemma HitOnHistory(ks: KeyState, history: seq<int>, rpm: nat, before: int, now: int)
    requires SuffixOf(ks.stamps, history, before) && Ascending(history)
    requires AllAtMost(history, now) && (before <= now || history == [])
    ensures var kept := Pruned(history, now - WINDOW);
            && SuffixOf(kept, history, now) && |kept| == InWindow(history, now)
            && Hit(ks, rpm, now).1.allowed == (InWindow(history, now) < Budget(rpm))
            && Hit(ks, rpm, now).0.stamps == if InWindow(history, now) < Budget(rpm) then kept + [now] else kept
  {
    PruneSuffix(ks.stamps, history, before, now);
    CountIsLength(history, now);
    hide Ascending, InWindow, AllAtMost, RetryAfter, SuffixOf, Budget;
  }

  lemma SuffixGrows(kept: seq<int>, history: seq<int>, now: int)
    requires SuffixOf(kept, history, now)
    ensures SuffixOf(kept + [now], history + [now], now)
  {
    assert Cut(kept + [now], history + [now]) == Cut(kept, history);
  }

  /** One more hit keeps the pruned log and the reference in step, and gets one answer from both. */
  lemma HitRefines(ks: KeyState, history: seq<int>, rpm: nat, before: int, now: int)
    requires SuffixOf(ks.stamps, history, before) && Ascending(history)
    requires AllAtMost(history, before) && (before <= now || history == [])
    ensures var (next, verdict) := Hit(ks, rpm, now);
            var after := if verdict.allowed then history + [now] else history;
            && verdict.allowed == (InWindow(history, now) < Budget(rpm))
            && SuffixOf(next.stamps, after, now) && Ascending(after) && AllAtMost(after, now)
  {
    assert AllAtMost(history, now);
    HitOnHistory(ks, history, rpm, before, now);
    SnocAscends(history, now);
    SuffixGrows(Pruned(history, now - WINDOW), history, now);
    hide Hit, Ascending, InWindow, AllAtMost, SuffixOf, Budget;
  }

  /** The pruned log refines the full history: with clock readings that never go back, at whatever rate
      each hit finds, `Allow` answers exactly as the reference that forgets nothing. */
  lemma {:induction false} PrunedLogRefines(hits: seq<Arrival>)
    requires InTimeOrder(hits)
    ensures RunKey(hits).1 == Reference(hits).1
    ensures Ascending(Reference(hits).0) && AllAtMost(Reference(hits).0, Last(hits))
    ensures SuffixOf(RunKey(hits).0.stamps, Reference(hits).0, Last(hits))
  {
    hide Hit, Ascending, AllAtMost, InWindow, Budget, SuffixOf, InTimeOrder;
    if hits == [] {
      EmptyRefines();
    } else {
      var init := hits[..|hits| - 1];
      InitOrdered(hits);
      PrunedLogRefines(init);
      if init == [] { assert Reference(init).0 == []; }
      HitRefines(RunKey(init).0, Reference(init).0, hits[|hits| - 1].rpm, Last(init), Last(hits));
    }
  }

  lemma EmptyRefines()
    ensures SuffixOf([], [], 0) && Ascending([]) && AllAtMost([], 0)
  {
  }

  /** No ten-second window, older edge excluded, ever holds more allowed events than the largest budget
      any hit was given. */
  lemma {:induction false} WindowsAreBounded(hits: seq<Arrival>, bound: nat, end: int)
    requires InTimeOrder(hits) && WithinBudget(hits, bound)
    ensures InWindow(Reference(hits).0, end) <= bound
  {
    if hits != [] {
      var init, now := hits[..|hits| - 1], Last(hits);
      InitOrdered(hits);
      WindowsAreBounded(init, bound, end);
      PrunedLogRefines(init);
      var allowed, next := Reference(init).0, Reference(hits).0;
      if next != allowed && end - WINDOW < now <= end {
        assert next == allowed + [now] && next[..|next| - 1] == allowed;
        assert AllAtMost(allowed, now);
        WindowAtLast(allowed, now, end);
      }
    }
  }

  /** Among events up to `now`, a window that ends later holds no more of them. */
  lemma {:induction false} WindowAtLast(events: seq<int>, now: int, end: int)
    requires now <= end && AllAtMost(events, now)
    ensures InWindow(events, end) <= InWindow(events, now)
  {
    if events != [] {
      WindowAtLast(events[..|events| - 1], now, end);
    }
  }

  // ---- Retry-After ----

  lemma SuffixAscends(stamps: seq<int>, history: seq<int>, now: int)
    requires SuffixOf(stamps, history, now) && Ascending(history) && AllAtMost(history, now)
    ensures Ascending(stamps) && AllAtMost(stamps, now)
  {
  }

  /** A log never holds more than the largest budget. */
  lemma {:induction false} LogIsBounded(hits: seq<Arrival>, bound: nat)
    requires WithinBudget(hits, bound)
    ensures |RunKey(hits).0.stamps| <= bound
  {
    if hits != [] {
      LogIsBounded(hits[..|hits| - 1], bound);
    }
  }

  /** A denial says whole seconds from 1 to 10, and after any fewer the same key, left alone, is still
      denied. After that long it is allowed exactly when the stamp that stands one budget from the end has
      left by then; the call looks at the oldest one instead. That is the same stamp unless an earlier hit
      had a higher budget. */
  lemma RetryIsLeastSufficient(hits: seq<Arrival>, rpm: nat, now: int, wait: nat)
    requires InTimeOrder(hits) && (hits == [] || Last(hits) <= now)
    requires !Hit(RunKey(hits).0, rpm, now).1.allowed
    ensures var (denied, verdict) := Hit(RunKey(hits).0, rpm, now);
            && verdict.retryAfter % SECOND == 0 && SECOND <= verdict.retryAfter <= 10 * SECOND
            && (wait * SECOND < verdict.retryAfter ==> !Hit(denied, rpm, now + wait * SECOND).1.allowed)
            && |denied.stamps| >= Budget(rpm)
            && (Hit(denied, rpm, now + verdict.retryAfter).1.allowed
                <==> denied.stamps[|denied.stamps| - Budget(rpm)] + WINDOW <= now + verdict.retryAfter)
            && (WithinBudget(hits, Budget(rpm)) ==>
                  |denied.stamps| == Budget(rpm) && Hit(denied, rpm, now + verdict.retryAfter).1.allowed)
  {
    hide *;
    LogIsOrdered(hits, now);
    if WithinBudget(hits, Budget(rpm)) { LogIsBounded(hits, Budget(rpm)); }
    DenialClears(RunKey(hits).0, rpm, now, wait);
  }

  lemma LogIsOrdered(hits: seq<Arrival>, now: int)
    requires InTimeOrder(hits) && (hits == [] || Last(hits) <= now)
    ensures Ascending(RunKey(hits).0.stamps) && AllAtMost(RunKey(hits).0.stamps, now)
  {
    if hits != [] {
      PrunedLogRefines(hits);
      hide RunKey, Reference;
      SuffixAscends(RunKey(hits).0.stamps, Reference(hits).0, Last(hits));
    }
  }

  lemma DenialClears(ks: KeyState, rpm: nat, now: int, wait: nat)
    requires Ascending(ks.stamps) && AllAtMost(ks.stamps, now)
    requires !Hit(ks, rpm, now).1.allowed
    ensures var (denied, verdict) := Hit(ks, rpm, now);
            && verdict.retryAfter % SECOND == 0 && SECOND <= verdict.retryAfter <= 10 * SECOND
            && (wait * SECOND < verdict.retryAfter ==> !Hit(denied, rpm, now + wait * SECOND).1.allowed)
            && |denied.stamps| >= Budget(rpm)
            && (Hit(denied, rpm, now + verdict.retryAfter).1.allowed
                <==> denied.stamps[|denied.stamps| - Budget(rpm)] + WINDOW <= now + verdict.retryAfter)
            && (|ks.stamps| <= Budget(rpm) ==>
                  |denied.stamps| == Budget(rpm) && Hit(denied, rpm, now + verdict.retryAfter).1.allowed)
  {
    var (denied, verdict) := Hit(ks, rpm, now);
    var stamps := denied.stamps;
    assert Ascending(stamps);
    RetryRounds(stamps[0], now);
    var later := now + verdict.retryAfter - WINDOW;
    FirstAfterCompares(stamps, later, |stamps| - Budget(rpm));
    if wait * SECOND < verdict.retryAfter {
      RetryIsTight(stamps[0], now, wait);
      FirstAfterIsLeast(stamps, now + wait * SECOND - WINDOW, 0);
    }
  }

  lemma FirstAfterCompares(stamps: seq<int>, cutoff: int, i: nat)
    requires Ascending(stamps) && i < |stamps|
    ensures FirstAfter(stamps, cutoff) > i <==> stamps[i] <= cutoff
  {
    var k := FirstAfter(stamps, cutoff);
    if k <= i { assert stamps[k] <= stamps[i]; }
  }

  function TwoAtTwelve(at: int): seq<Arrival> {
    [Arrival(at, 12), Arrival(at + 5 * SECOND, 12)]
  }

  lemma TwoAreKept(at: int)
    ensures RunKey(TwoAtTwelve(at)).0.stamps == [at, at + 5 * SECOND]
  {
    var hits := TwoAtTwelve(at);
    assert hits[..1] == [Arrival(at, 12)] && hits[..1][..0] == [];
    assert RunKey(hits[..1]).0.stamps == [at];
    FirstAfterIsLeast([at], at + 5 * SECOND - WINDOW, 0);
  }

  /** When a table lowers the rate, a denial can name too short a wait: two hits at twelve a minute, then
      a denial at six. */
  lemma RetryFallsShort(at: int)
    ensures var (denied, verdict) := Hit(RunKey(TwoAtTwelve(at)).0, 6, at + 6 * SECOND);
            && !verdict.allowed && verdict.retryAfter == 4 * SECOND
            && !Hit(denied, 6, at + 6 * SECOND + verdict.retryAfter).1.allowed
  {
    TwoAreKept(at);
    hide RunKey;
    var stamps, now := [at, at + 5 * SECOND], at + 6 * SECOND;
    FirstAfterIsLeast(stamps, now - WINDOW, 0);
    FirstAfterIsLeast(stamps, now + 4 * SECOND - WINDOW, 1);
  }

  lemma RetryRounds(oldest: int, now: int)
    requires now - WINDOW < oldest <= now
    ensures var r := RetryAfter(oldest, now);
            r % SECOND == 0 && SECOND <= r <= 10 * SECOND && oldest + WINDOW <= now + r
  {
    var left := oldest + WINDOW - now;
    var q := (left + SECOND - 1) / SECOND;
    assert q * SECOND <= left + SECOND - 1 < (q + 1) * SECOND;
    assert 1 <= q <= 10;
  }

  lemma RetryIsTight(oldest: int, now: int, wait: nat)
    requires now - WINDOW < oldest <= now && wait * SECOND < RetryAfter(oldest, now)
    ensures oldest > now + wait * SECOND - WINDOW
  {
    var left := oldest + WINDOW - now;
    var q := (left + SECOND - 1) / SECOND;
    assert q * SECOND <= left + SECOND - 1;
    assert RetryAfter(oldest, now) == q * SECOND;
    assert wait <= q - 1;
  }

  // ---- Sweep is unobservable ----

  datatype Op = Allow(key: string, rpm: nat, at: int) | Sweep(idle: int, at: int)

  /** Run a kept zone through hits and sweeps. */
  function RunZone(zone: Zone, ops: seq<Op>): (Zone, seq<Verdict>) {
    if ops == [] then (zone, [])
    else
      var (before, verdicts) := RunZone(zone, ops[..|ops| - 1]);
      match ops[|ops| - 1]
      case Allow(key, rpm, at) =>
        var (after, verdict) := HitZone(before, key, rpm, at);
        (after, verdicts + [verdict])
      case Sweep(idle, at) => (SweepZone(before, idle, at), verdicts)
  }

  /** The same run with its sweeps left out. */
  function Hits(ops: seq<Op>): seq<Op> {
    if ops == [] then []
    else
      var last := ops[|ops| - 1];
      Hits(ops[..|ops| - 1]) + if last.Allow? then [last] else []
  }

  function LastAt(ops: seq<Op>, start: int): int {
    if ops == [] then start else ops[|ops| - 1].at
  }

  /** Readings never go back, and every sweep spares what was seen within the window. */
  predicate Timely(ops: seq<Op>, start: int) {
    ops == []
    || (var init, last := ops[..|ops| - 1], ops[|ops| - 1];
        Timely(init, start) && LastAt(init, start) <= last.at && (last.Sweep? ==> last.idle >= WINDOW))
  }

  /** The zone never has to evict. */
  predicate StaysUnderMax(zone: Zone, ops: seq<Op>) {
    ops == []
    || (var init, last := ops[..|ops| - 1], ops[|ops| - 1];
        var before := RunZone(zone, init).0;
        StaysUnderMax(zone, init) && (last.Allow? ==> last.key in before || |before| < MAX_KEYS))
  }

  predicate Seen(ks: KeyState, now: int) {
    ks.lastSeen <= now && AllAtMost(ks.stamps, ks.lastSeen)
  }

  /** `swept` is `whole` without keys whose stamps have all left the window. */
  predicate Agree(swept: Zone, whole: Zone, now: int) {
    && (forall k | k in swept :: k in whole && swept[k] == whole[k])
    && (forall k | k in whole && k !in swept :: AllAtMost(whole[k].stamps, now - WINDOW))
    && (forall k | k in whole :: Seen(whole[k], now))
  }

  lemma PrunedAway(stamps: seq<int>, cutoff: int)
    requires AllAtMost(stamps, cutoff)
    ensures Pruned(stamps, cutoff) == []
  {
    FirstAfterIsLeast(stamps, cutoff, |stamps|);
  }

  lemma HitSees(ks: KeyState, rpm: nat, now: int, at: int)
    requires now <= at && (Seen(ks, now) || ks.stamps == [])
    ensures Seen(Hit(ks, rpm, at).0, at)
  {
  }

  lemma HitZoneSize(zone: Zone, key: string, rpm: nat, at: int)
    ensures |HitZone(zone, key, rpm, at).0| == if key in zone then |zone| else |zone| + 1
  {
    hide Hit;
    var next := HitZone(zone, key, rpm, at).0;
    assert next.Keys == zone.Keys + {key};
    assert |next| == |next.Keys| && |zone| == |zone.Keys|;
  }

  lemma HitAgrees(swept: Zone, whole: Zone, key: string, rpm: nat, now: int, at: int)
    requires Agree(swept, whole, now) && now <= at
    ensures HitZone(swept, key, rpm, at).1 == HitZone(whole, key, rpm, at).1
    ensures Agree(HitZone(swept, key, rpm, at).0, HitZone(whole, key, rpm, at).0, at)
  {
    if key in whole && key !in swept {
      PrunedAway(whole[key].stamps, at - WINDOW);
    }
    HitSees(KeyOf(whole, key), rpm, now, at);
    assert Hit(KeyOf(swept, key), rpm, at) == Hit(KeyOf(whole, key), rpm, at);
    hide Hit;
  }

  lemma SweepAgrees(swept: Zone, whole: Zone, idle: int, now: int, at: int)
    requires Agree(swept, whole, now) && now <= at && idle >= WINDOW
    ensures Agree(SweepZone(swept, idle, at), whole, at)
  {
  }

  /** A sweep is unobservable: over a kept zone that never has to evict, any sequence of hits gets
      the same answers with the sweeps as without them. */
  lemma {:induction false} SweepsAreUnobservable(swept: Zone, whole: Zone, ops: seq<Op>, start: int)
    requires Agree(swept, whole, start) && Timely(ops, start)
    requires |whole| <= MAX_KEYS && StaysUnderMax(whole, Hits(ops))
    ensures RunZone(swept, ops).1 == RunZone(whole, Hits(ops)).1
    ensures StaysUnderMax(swept, ops)
    ensures Agree(RunZone(swept, ops).0, RunZone(whole, Hits(ops)).0, LastAt(ops, start))
    ensures |RunZone(whole, Hits(ops)).0| <= MAX_KEYS
  {
    hide HitZone, SweepZone, Agree;
    if ops != [] {
      var init, last := ops[..|ops| - 1], ops[|ops| - 1];
      var now := LastAt(init, start);
      match last
      case Allow(key, rpm, at) =>
        assert Hits(ops)[..|Hits(ops)| - 1] == Hits(init);
        SweepsAreUnobservable(swept, whole, init, start);
        var a, b := RunZone(swept, init).0, RunZone(whole, Hits(init)).0;
        HitAgrees(a, b, key, rpm, now, at);
        SweptIsSmaller(a, b, key, now);
        HitZoneSize(b, key, rpm, at);
      case Sweep(idle, at) =>
        assert Hits(ops) == Hits(init);
        SweepsAreUnobservable(swept, whole, init, start);
        SweepAgrees(RunZone(swept, init).0, RunZone(whole, Hits(init)).0, idle, now, at);
    }
  }

  /** The hits on `key`, with the rate each found. */
  function HitsOf(ops: seq<Op>, key: string): seq<Arrival> {
    if ops == [] then []
    else
      var last := ops[|ops| - 1];
      HitsOf(ops[..|ops| - 1], key) + if last.Allow? && last.key == key then [Arrival(last.at, last.rpm)] else []
  }

  /** In a zone that neither sweeps nor evicts, a key's hits are a run of that key alone: what is proved
      of one key holds for it among all the others. */
  lemma {:induction false} KeysAreIndependent(zone: Zone, ops: seq<Op>, key: string)
    requires key !in zone && forall i | 0 <= i < |ops| :: ops[i].Allow?
    ensures KeyOf(RunZone(zone, ops).0, key) == RunKey(HitsOf(ops, key)).0
    ensures |RunZone(zone, ops).1| == |ops| && |RunKey(HitsOf(ops, key)).1| == |HitsOf(ops, key)|
    ensures ops != [] && ops[|ops| - 1].key == key ==>
              && HitsOf(ops, key) != []
              && RunZone(zone, ops).1[|ops| - 1].allowed == RunKey(HitsOf(ops, key)).1[|HitsOf(ops, key)| - 1]
  {
    hide Hit;
    if ops != [] {
      var init, last := ops[..|ops| - 1], ops[|ops| - 1];
      KeysAreIndependent(zone, init, key);
      if last.key == key {
        assert HitsOf(ops, key)[..|HitsOf(ops, key)| - 1] == HitsOf(init, key);
      } else {
        assert HitsOf(ops, key) == HitsOf(init, key);
      }
    }
  }

  lemma SweptIsSmaller(swept: Zone, whole: Zone, key: string, now: int)
    requires Agree(swept, whole, now)
    ensures |swept| <= |whole| && (key in whole && key !in swept ==> |swept| < |whole|)
  {
    assert swept.Keys <= whole.Keys;
    SubsetSize(swept.Keys, whole.Keys);
    assert |swept.Keys| == |swept| && |whole.Keys| == |whole|;
    if key in whole && key !in swept {
      SubsetSize(swept.Keys, whole.Keys - {key});
    }
  }

}
