/** The reconnecting event source behind every live panel (`connectStream` in
    apps/noite/src/lib/feeds.ts). A source that was closed or died delivers nothing more. */
module StreamSource {
  import opened Numbers
  import opened Options

  const RETRY_BASE_MS: nat := 1000
  const RETRY_CAP_MS: nat := RETRY_BASE_MS * 30

  datatype Status = Connecting | Open | Retrying | Closed

  /** `live` holds the sources the browser still runs, `timers` the armed reopen timers with their
      delays, both by number. */
  datatype Stream = Stream(source: Option<nat>, live: set<nat>, made: nat,
                           pending: nat, timers: map<nat, nat>, attempts: nat, disposed: bool, hidden: bool)

  datatype Event =
    | Opened(id: nat)                 // the source's `open`
    | Dropped(id: nat)                // its `error`, still retrying by itself
    | Died(id: nat, jitter: nat)      // its `error` with `readyState` CLOSED
    | TimerFired(seen: nat)
    | Visibility(hidden: bool)
    | Dispose

  /** The state an event leads to and the status it reports, if any. */
  type Effect = (Stream, Option<Status>)

  function Power2(n: nat): (p: nat)
    ensures p >= 1
  {
    if n == 0 then 1 else 2 * Power2(n - 1)
  }

  function Delay(attempts: nat, jitter: nat, base: nat, cap: nat): nat {
    Min(cap, Min(cap, base * Power2(attempts)) + jitter)
  }

  function OpenSource(s: Stream): Effect {
    if s.disposed || s.source.Some? then (s, None)
    else if s.hidden then (s, Some(Closed))
    else (s.(source := Some(s.made), live := s.live + {s.made}, made := s.made + 1), Some(Connecting))
  }

  function CloseSource(s: Stream): Stream {
    s.(pending := s.pending + 1, source := None, live := if s.source.Some? then s.live - {s.source.value} else s.live)
  }

  function Unopened(hidden: bool): Stream {
    Stream(None, {}, 0, 0, map[], 0, false, hidden)
  }

  function Start(hidden: bool): Effect {
    OpenSource(Unopened(hidden))
  }

  predicate Enabled(s: Stream, e: Event, base: nat) {
    match e
    case Opened(id) => id in s.live
    case Dropped(id) => id in s.live
    case Died(id, jitter) => id in s.live && (jitter < base || jitter == 0)
    case TimerFired(seen) => seen in s.timers
    case Visibility(_) => true
    case Dispose => true
  }

  function Do(s: Stream, e: Event, base: nat, cap: nat): Effect {
    match e
    case Opened(_) => (s.(attempts := 0), Some(Open))
    case Dropped(_) => (s, Some(Retrying))
    case Died(id, jitter) =>
      (s.(live := s.live - {id},
          source := if s.source == Some(id) then None else s.source,
          attempts := s.attempts + 1,
          pending := s.pending + 1,
          timers := s.timers[s.pending + 1 := Delay(s.attempts, jitter, base, cap)]), Some(Retrying))
    case TimerFired(seen) =>
      var fired := s.(timers := s.timers - {seen});
      if seen == s.pending then OpenSource(fired) else (fired, None)
    case Visibility(hidden) =>
      if s.disposed then (s.(hidden := hidden), None)
      else if hidden then (CloseSource(s.(hidden := true)), Some(Closed))
      else OpenSource(s.(hidden := false))
    case Dispose => (CloseSource(s.(disposed := true)), None)
  }

  /** At most one live source, the one in hand, and none when disposed or hidden; a stream that should
      be connected has a live source or an armed timer that will reopen one; delays are capped. */
  predicate Inv(s: Stream, base: nat, cap: nat) {
    && s.live == (if s.source.Some? then {s.source.value} else {})
    && (s.source.Some? ==> s.source.value == s.made - 1)
    && (s.disposed || s.hidden ==> s.source.None?)
    && (!s.disposed && !s.hidden ==> s.source.Some? || s.pending in s.timers)
    && (forall g | g in s.timers :: g <= s.pending && Min(cap, base) <= s.timers[g] <= cap)
  }

  lemma DelayIsBounded(attempts: nat, jitter: nat, base: nat, cap: nat)
    ensures Min(cap, base) <= Min(cap, base * Power2(attempts)) <= Delay(attempts, jitter, base, cap) <= cap
  {
    assert base * Power2(attempts) >= base * 1;
  }

  /** While a stream keeps dying its delays never shrink, whatever the jitter. */
  lemma BackoffNeverShrinks(attempts: nat, jitter: nat, next: nat, base: nat, cap: nat)
    requires jitter < base || jitter == 0
    ensures Delay(attempts, jitter, base, cap) <= Delay(attempts + 1, next, base, cap)
  {
    var p := Power2(attempts);
    assert Power2(attempts + 1) == 2 * p;
    hide Power2;
    Doubles(base, p);
  }

  lemma Doubles(base: nat, p: nat)
    requires p >= 1
    ensures base * (2 * p) == base * p + base * p && base <= base * p
  {
  }

  /** With the page's own tuning a delay lies between one and thirty seconds, and from the sixth failure in a
      row on it is thirty. */
  lemma {:induction false} DefaultDelays(attempts: nat, jitter: nat)
    ensures RETRY_BASE_MS <= Delay(attempts, jitter, RETRY_BASE_MS, RETRY_CAP_MS) <= RETRY_CAP_MS
    ensures attempts >= 5 ==> Delay(attempts, jitter, RETRY_BASE_MS, RETRY_CAP_MS) == RETRY_CAP_MS
  {
    DelayIsBounded(attempts, jitter, RETRY_BASE_MS, RETRY_CAP_MS);
    if attempts >= 5 { Power2Grows(attempts); }
  }

  lemma {:induction false} Power2Grows(n: nat)
    requires n >= 5
    ensures Power2(n) >= 32
  {
    if n > 5 { Power2Grows(n - 1); } else { assert Power2(2) == 4; }
  }

  lemma StartIsInv(hidden: bool, base: nat, cap: nat)
    ensures var (s, status) := Start(hidden);
            && Inv(s, base, cap) && !s.disposed && s.hidden == hidden
            && (if hidden then s.made == 0 && status == Some(Closed) else s.made == 1 && status == Some(Connecting))
  {
  }

  lemma EventKeepsInv(s: Stream, e: Event, base: nat, cap: nat)
    requires Inv(s, base, cap) && Enabled(s, e, base)
    ensures Inv(Do(s, e, base, cap).0, base, cap)
    ensures s.disposed ==> Do(s, e, base, cap).0.disposed && Do(s, e, base, cap).0.made == s.made
    ensures s.made <= Do(s, e, base, cap).0.made <= s.made + 1
  {
    hide Delay, Min;
    if e.Died? { DelayIsBounded(s.attempts, e.jitter, base, cap); }
  }

  function Run(hidden: bool, events: seq<Event>, base: nat, cap: nat): Option<Stream> {
    if events == [] then Some(Start(hidden).0)
    else
      var before := Run(hidden, events[..|events| - 1], base, cap);
      if before.Some? && Enabled(before.value, events[|events| - 1], base)
      then Some(Do(before.value, events[|events| - 1], base, cap).0)
      else None
  }

  lemma {:induction false} RunKeepsInv(hidden: bool, events: seq<Event>, base: nat, cap: nat)
    requires Run(hidden, events, base, cap).Some?
    ensures Inv(Run(hidden, events, base, cap).value, base, cap)
  {
    hide Inv, Do, Enabled, Start;
    if events == [] {
      StartIsInv(hidden, base, cap);
    } else {
      RunKeepsInv(hidden, events[..|events| - 1], base, cap);
      EventKeepsInv(Run(hidden, events[..|events| - 1], base, cap).value, events[|events| - 1], base, cap);
    }
  }

  /** Sources that died since the last one opened. */
  function Deaths(events: seq<Event>): nat {
    if events == [] then 0
    else
      var e := events[|events| - 1];
      if e.Opened? then 0 else Deaths(events[..|events| - 1]) + if e.Died? then 1 else 0
  }

  lemma {:induction false} AttemptsAreDeaths(hidden: bool, events: seq<Event>, base: nat, cap: nat)
    requires Run(hidden, events, base, cap).Some?
    ensures Run(hidden, events, base, cap).value.attempts == Deaths(events)
  {
    hide Delay;
    if events != [] { AttemptsAreDeaths(hidden, events[..|events| - 1], base, cap); }
  }

  /** The wait after a death: the base, doubled for each death since a source last opened, capped, with the
      jitter on top, capped again. Only the newest timer will reopen. */
  lemma DeathArmsBackoff(hidden: bool, events: seq<Event>, id: nat, jitter: nat, base: nat, cap: nat)
    requires Run(hidden, events + [Died(id, jitter)], base, cap).Some?
    ensures var s := Run(hidden, events + [Died(id, jitter)], base, cap).value;
            var doubled := base * Power2(Deaths(events));
            var backoff := (if doubled < cap then doubled else cap) + jitter;
            && s.source.None? && s.pending in s.timers
            && s.timers[s.pending] == (if backoff < cap then backoff else cap)
  {
    assert (events + [Died(id, jitter)])[..|events|] == events;
    AttemptsAreDeaths(hidden, events, base, cap);
    RunKeepsInv(hidden, events, base, cap);
    hide Power2;
  }

  /** The last status reported, from the first `open()` on. */
  function Reported(hidden: bool, events: seq<Event>, base: nat, cap: nat): Option<Status>
    requires Run(hidden, events, base, cap).Some?
  {
    if events == [] then Start(hidden).1
    else
      var init, e := events[..|events| - 1], events[|events| - 1];
      var report := Do(Run(hidden, init, base, cap).value, e, base, cap).1;
      if report.Some? then report else Reported(hidden, init, base, cap)
  }

  /** The last report is true: closed exactly when the page is hidden, retrying whenever there is no source,
      open or connecting only with one, and open only with no death since. */
  lemma {:induction false} ReportIsTrue(hidden: bool, events: seq<Event>, base: nat, cap: nat)
    requires Run(hidden, events, base, cap).Some? && !Run(hidden, events, base, cap).value.disposed
    ensures var s, r := Run(hidden, events, base, cap).value, Reported(hidden, events, base, cap);
            && r.Some? && (r.value == Closed <==> s.hidden)
            && (!s.hidden && s.source.None? ==> r.value == Retrying)
            && (r.value == Open ==> s.source.Some? && s.attempts == 0)
            && (r.value == Connecting ==> s.source.Some?)
  {
    hide Delay;
    if events != [] {
      RunKeepsInv(hidden, events[..|events| - 1], base, cap);
      ReportIsTrue(hidden, events[..|events| - 1], base, cap);
    }
  }

  /** Each report of a source's own events. */
  lemma SourceReports(s: Stream, id: nat, jitter: nat, base: nat, cap: nat)
    ensures Do(s, Opened(id), base, cap).1 == Some(Open)
    ensures Do(s, Dropped(id), base, cap) == (s, Some(Retrying))
    ensures Do(s, Died(id, jitter), base, cap).1 == Some(Retrying)
  {
  }

  lemma RunSnoc(hidden: bool, events: seq<Event>, e: Event, base: nat, cap: nat)
    requires Run(hidden, events, base, cap).Some? && Enabled(Run(hidden, events, base, cap).value, e, base)
    ensures Run(hidden, events + [e], base, cap) == Some(Do(Run(hidden, events, base, cap).value, e, base, cap).0)
  {
    hide Do, Enabled;
    assert (events + [e])[..|events|] == events;
  }

  /** Such a run: a source opens and dies, and its timer makes another. */
  lemma DeadSourceIsReplaced(base: nat, cap: nat) returns (events: seq<Event>)
    ensures events == [Opened(0), Died(0, 0), TimerFired(1)] && Run(false, events, base, cap).Some?
    ensures var s := Run(false, events, base, cap).value; s.source == Some(1) && s.live == {1} && s.made == 2
  {
    hide Delay;
    assert Run(false, [], base, cap) == Some(Start(false).0);
    RunSnoc(false, [], Opened(0), base, cap);
    assert [] + [Opened(0)] == [Opened(0)];
    RunSnoc(false, [Opened(0)], Died(0, 0), base, cap);
    RunSnoc(false, [Opened(0)] + [Died(0, 0)], TimerFired(1), base, cap);
    events := [Opened(0)] + [Died(0, 0)] + [TimerFired(1)];
  }

  lemma NeverTwoSources(hidden: bool, events: seq<Event>, base: nat, cap: nat)
    requires Run(hidden, events, base, cap).Some?
    ensures |Run(hidden, events, base, cap).value.live| <= 1
  {
    hide Run;
    RunKeepsInv(hidden, events, base, cap);
  }

  /** From its disposal on a stream has no live source and opens none. */
  lemma {:induction false} NothingAfterDispose(hidden: bool, events: seq<Event>, later: seq<Event>, base: nat, cap: nat)
    requires Run(hidden, events + [Dispose] + later, base, cap).Some?
    ensures Run(hidden, events + [Dispose], base, cap).Some?
    ensures var was, s := Run(hidden, events + [Dispose], base, cap).value, Run(hidden, events + [Dispose] + later, base, cap).value;
            s.disposed && s.live == {} && s.made == was.made
    decreases |later|
  {
    hide Inv, Enabled;
    var all := events + [Dispose] + later;
    if later == [] {
      assert all == events + [Dispose];
      RunKeepsInv(hidden, all, base, cap);
      DisposedIsDead(Run(hidden, all, base, cap).value, base, cap);
    } else {
      var n := |later| - 1;
      assert all[..|all| - 1] == events + [Dispose] + later[..n];
      NothingAfterDispose(hidden, events, later[..n], base, cap);
      RunKeepsInv(hidden, all[..|all| - 1], base, cap);
      RunKeepsInv(hidden, all, base, cap);
      EventKeepsInv(Run(hidden, all[..|all| - 1], base, cap).value, all[|all| - 1], base, cap);
      DisposedIsDead(Run(hidden, all, base, cap).value, base, cap);
    }
  }

  lemma DisposedIsDead(s: Stream, base: nat, cap: nat)
    requires Inv(s, base, cap)
    ensures s.disposed || s.hidden ==> s.live == {}
  {
  }

  // ---- the code ----

  /** The captured variables of one `connectStream` call. */
  class Connection {
    var source: Option<nat>
    var live: set<nat>          // the browser's side
    var made: nat
    var pending: nat
    var timers: map<nat, nat>
    var attempts: nat
    var disposed: bool
    var hidden: bool            // document.hidden

    function Snapshot(): Stream
      reads this
    {
      Stream(source, live, made, pending, timers, attempts, disposed, hidden)
    }

    /** The call up to its first `open()`. */
    constructor (documentHidden: bool)
      ensures Snapshot() == Unopened(documentHidden)
    {
      source, live, made, pending, timers, attempts := None, {}, 0, 0, map[], 0;
      disposed, hidden := false, documentHidden;
    }

    method OpenIfIdle() returns (status: Option<Status>)
      modifies this
      ensures (Snapshot(), status) == OpenSource(old(Snapshot()))
      ensures status == if disposed || old(source).Some? then None else if hidden then Some(Closed) else Some(Connecting)
      ensures source.Some? <==> old(source).Some? || (!disposed && !hidden)
    {
      if disposed || source.Some? { return None; }
      if hidden { return Some(Closed); }
      source, live, made := Some(made), live + {made}, made + 1;
      return Some(Connecting);
    }

    method Close()
      modifies this
      ensures Snapshot() == CloseSource(old(Snapshot()))
    {
      pending := pending + 1;
      if source.Some? { live := live - {source.value}; }
      source := None;
    }

    method OnOpen(id: nat) returns (status: Option<Status>)
      modifies this
      ensures forall base, cap :: (Snapshot(), status) == Do(old(Snapshot()), Opened(id), base, cap)
      ensures status == Some(Open) && attempts == 0
    {
      attempts := 0;
      return Some(Open);
    }

    /** The error listener; a dead source arms the next generation's timer. */
    method OnError(id: nat, dead: bool, jitter: nat, base: nat, cap: nat) returns (status: Option<Status>)
      modifies this
      ensures (Snapshot(), status) == Do(old(Snapshot()), if dead then Died(id, jitter) else Dropped(id), base, cap)
      ensures status == Some(Retrying) && attempts == if dead then old(attempts) + 1 else old(attempts)
    {
      status := Some(Retrying);
      if dead {
        live := live - {id};
        if source == Some(id) { source := None; }
        var backoff := Min(cap, base * Power2(attempts));
        attempts := attempts + 1;
        pending := pending + 1;
        timers := timers[pending := Min(cap, backoff + jitter)];
      }
    }

    method OnTimer(seen: nat) returns (status: Option<Status>)
      modifies this
      ensures forall base, cap :: (Snapshot(), status) == Do(old(Snapshot()), TimerFired(seen), base, cap)
    {
      timers := timers - {seen};
      status := None;
      if seen == pending { status := OpenIfIdle(); }
    }

    /** The listener a disposal removes. */
    method OnVisibility(documentHidden: bool) returns (status: Option<Status>)
      modifies this
      ensures forall base, cap :: (Snapshot(), status) == Do(old(Snapshot()), Visibility(documentHidden), base, cap)
    {
      hidden := documentHidden;
      if disposed { return None; }
      if hidden {
        Close();
        return Some(Closed);
      }
      status := OpenIfIdle();
    }

    method DisposeNow()
      modifies this
      ensures disposed
      ensures forall base, cap :: (Snapshot(), None) == Do(old(Snapshot()), Dispose, base, cap)
    {
      disposed := true;
      Close();
    }
  }
}
