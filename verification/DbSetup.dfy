/** The single-flight database setup of one binding (apps/noite/src/lib/db.ts). Times are
    milliseconds; what a pass does is left open, only when it settles and how. */
module DbSetup {
  import opened Options

  const SETUP_TIMEOUT_MS: nat := 15000
  const SHARED_SETUP_WAIT_MS: nat := 5000

  datatype Outcome = Pending | Settled(ok: bool, at: int)

  /** How a pass stands to the table: stored in it, dropped on its own failure, or replaced by a
      waiter that had waited out its bound. */
  datatype Fate = Stored | Dropped | Replaced

  /** `outcome` is the pass promise; `noticed` says when the continuation that flips `settled` ran. */
  datatype Pass = Pass(start: int, outcome: Outcome, noticed: Option<int>, fate: Fate)

  datatype Table = Table(passes: seq<Pass>, current: Option<nat>)

  /** A caller in the race between its pass and its own wait. */
  datatype Waiter = Waiter(pass: nat, since: int, wait: nat, lifetime: bool)

  /** The promise a caller is given, or the error thrown at one that may not replace. */
  datatype Answer = Shares(pass: nat, since: int) | FailsFast

  datatype State = State(now: int, table: Table, waiters: map<nat, Waiter>, answers: map<nat, Answer>)

  datatype Event =
    | Tick(to: int)
    | Settle(pass: nat, ok: bool)
    | Notice(pass: nat)
    | Arrive(caller: nat, wait: nat, lifetime: bool)
    | Join(caller: nat)      // the pass won the race
    | Expire(caller: nat)    // the wait won the race; a pass that settles past it may still win

  function Start(t: Table, now: int): Table {
    Table(t.passes + [Pass(now, Pending, None, Stored)], Some(|t.passes|))
  }

  /** The stored pass a caller must wait for, or `None` when it gets a promise at once. */
  function WaitsOn(t: Table): Option<nat> {
    if t.current.Some? && t.current.value < |t.passes| && t.passes[t.current.value].noticed.None?
    then t.current else None
  }

  function Entered(t: Table, now: int): Table {
    if t.current.None? then Start(t, now) else t
  }

  /** `setupPasses.delete` by the waiter that still sees the pass it waited on. */
  function Unstored(t: Table): Table {
    if t.current.Some? && t.current.value < |t.passes|
    then Table(t.passes[t.current.value := t.passes[t.current.value].(fate := Replaced)], None)
    else Table(t.passes, None)
  }

  /** What the table holds once an expired waiter has acted. */
  function AfterExpiry(t: Table, w: Waiter, now: int): Table {
    if (t.current.Some? && t.current.value != w.pass) || !w.lifetime then t else Start(Unstored(t), now)
  }

  function ExpiryAnswer(t: Table, w: Waiter): Answer {
    if t.current.Some? && t.current.value != w.pass then Shares(t.current.value, w.since)
    else if !w.lifetime then FailsFast
    else Shares(|t.passes|, w.since)
  }

  function AfterNotice(t: Table, p: nat, now: int): Table
    requires p < |t.passes| && t.passes[p].outcome.Settled?
  {
    var noticed := t.passes[p].(noticed := Some(now));
    if !noticed.outcome.ok && t.current == Some(p)
    then Table(t.passes[p := noticed.(fate := Dropped)], None)
    else t.(passes := t.passes[p := noticed])
  }

  function AfterSettle(t: Table, p: nat, ok: bool, now: int): Table
    requires p < |t.passes|
  {
    t.(passes := t.passes[p := t.passes[p].(outcome := Settled(ok, now))])
  }

  /** The rules of the clock, the timers and the race; `least` bounds every wait from below and
      `bound` is the timeout of a pass, which fires on time. */
  predicate Enabled(s: State, e: Event, least: nat, bound: nat) {
    var passes := s.table.passes;
    match e
    case Tick(to) => s.now <= to && forall i | 0 <= i < |passes| && passes[i].outcome.Pending? :: to <= passes[i].start + bound
    case Settle(p, _) => p < |passes| && passes[p].outcome.Pending?
    case Notice(p) => p < |passes| && passes[p].outcome.Settled? && passes[p].noticed.None?
    case Arrive(c, wait, _) => c !in s.waiters && c !in s.answers && least <= wait
    case Join(c) => c in s.waiters && s.waiters[c].pass < |passes| && passes[s.waiters[c].pass].outcome.Settled?
    case Expire(c) =>
      && c in s.waiters && s.waiters[c].pass < |passes| && s.waiters[c].since + s.waiters[c].wait <= s.now
      && var outcome := passes[s.waiters[c].pass].outcome;
      outcome.Settled? ==> s.waiters[c].since + s.waiters[c].wait <= outcome.at
  }

  function Do(s: State, e: Event, least: nat, bound: nat): State
    requires Enabled(s, e, least, bound)
  {
    match e
    case Tick(to) => s.(now := to)
    case Settle(p, ok) => s.(table := AfterSettle(s.table, p, ok, s.now))
    case Notice(p) => s.(table := AfterNotice(s.table, p, s.now))
    case Arrive(c, wait, lifetime) =>
      var t := Entered(s.table, s.now);
      if s.table.current.Some? && WaitsOn(s.table).Some?
      then s.(waiters := s.waiters[c := Waiter(s.table.current.value, s.now, wait, lifetime)])
      else s.(table := t, answers := s.answers[c := Shares(t.current.value, s.now)])
    case Join(c) =>
      s.(waiters := s.waiters - {c}, answers := s.answers[c := Shares(s.waiters[c].pass, s.waiters[c].since)])
    case Expire(c) =>
      s.(table := AfterExpiry(s.table, s.waiters[c], s.now), waiters := s.waiters - {c},
         answers := s.answers[c := ExpiryAnswer(s.table, s.waiters[c])])
  }

  const Boot := State(0, Table([], None), map[], map[])

  /** The state after a run, `None` when some event was not possible. */
  function Run(events: seq<Event>, least: nat, bound: nat): Option<State> {
    if events == [] then Some(Boot)
    else
      var before := Run(events[..|events| - 1], least, bound);
      if before.Some? && Enabled(before.value, events[|events| - 1], least, bound)
      then Some(Do(before.value, events[|events| - 1], least, bound))
      else None
  }

  // ---- what every run keeps ----

  /** Only the newest pass can be in the table. */
  predicate OnlyNewestIsStored(t: Table) {
    && (t.current.Some? ==> t.current.value == |t.passes| - 1)
    && forall i | 0 <= i < |t.passes| :: t.passes[i].fate == Stored <==> t.current == Some(i)
  }

  /** Passes start in order, and a replaced one is at least `least` older than any later one. */
  predicate StartsApart(passes: seq<Pass>, least: nat) {
    && (forall i, j | 0 <= i < j < |passes| :: passes[i].start <= passes[j].start)
    && (forall i, j | 0 <= i < j < |passes| && passes[i].fate == Replaced :: passes[i].start + least <= passes[j].start)
  }

  /** A pass's promise, its notice, its fate and the clock fit together. */
  predicate PassOk(p: Pass, now: int, least: nat, bound: nat) {
    && p.start <= now
    && (p.outcome.Pending? ==> now <= p.start + bound)
    && (p.outcome.Settled? ==> p.start <= p.outcome.at <= now)
    && (p.noticed.Some? ==> p.outcome.Settled? && p.outcome.at <= p.noticed.value <= now)
    && (p.noticed.Some? && !p.outcome.ok ==> p.fate != Stored)
    && (p.fate == Dropped ==> p.noticed.Some? && !p.outcome.ok)
    && (p.fate == Replaced ==> p.start + least <= now)
    && (p.fate == Replaced && p.outcome.Settled? ==> p.start + least <= p.outcome.at)
  }

  predicate TableOk(t: Table, now: int, least: nat, bound: nat) {
    && OnlyNewestIsStored(t)
    && StartsApart(t.passes, least)
    && forall i | 0 <= i < |t.passes| :: PassOk(t.passes[i], now, least, bound)
  }

  predicate WaiterOk(t: Table, now: int, w: Waiter, least: nat) {
    && least <= w.wait
    && w.pass < |t.passes|
    && t.passes[w.pass].start <= w.since <= now
    && (t.passes[w.pass].noticed.Some? ==> w.since <= t.passes[w.pass].noticed.value)
  }

  /** A caller is never given a failure that was noticed before it arrived. */
  predicate AnswerOk(t: Table, now: int, a: Answer) {
    a.Shares? ==>
      && a.pass < |t.passes| && a.since <= now
      && var p := t.passes[a.pass];
      p.noticed.Some? && p.outcome.Settled? && !p.outcome.ok ==> a.since <= p.noticed.value
  }

  ghost predicate Inv(s: State, least: nat, bound: nat) {
    && TableOk(s.table, s.now, least, bound)
    && (forall c | c in s.waiters :: WaiterOk(s.table, s.now, s.waiters[c], least))
    && (forall c | c in s.answers :: AnswerOk(s.table, s.now, s.answers[c]))
  }

  /** How a table may change while a waiter waits or an answer stands. */
  predicate Later(t: Table, t': Table, now: int) {
    && |t.passes| <= |t'.passes|
    && forall i | 0 <= i < |t.passes| ::
         && t'.passes[i].start == t.passes[i].start
         && (t'.passes[i].noticed == t.passes[i].noticed || t'.passes[i].noticed == Some(now))
         && (t.passes[i].noticed.Some? ==> t'.passes[i] == t.passes[i].(fate := t'.passes[i].fate))
  }

  lemma StartKeeps(t: Table, now: int, least: nat, bound: nat)
    requires TableOk(t, now, least, bound) && t.current.None?
    ensures TableOk(Start(t, now), now, least, bound) && Later(t, Start(t, now), now)
  {
  }

  lemma ReplacedPassIsOk(p: Pass, w: Waiter, now: int, least: nat, bound: nat)
    requires PassOk(p, now, least, bound) && least <= w.wait && p.start <= w.since && w.since + w.wait <= now
    requires p.outcome.Settled? ==> w.since + w.wait <= p.outcome.at
    requires p.fate != Dropped
    ensures PassOk(p.(fate := Replaced), now, least, bound)
  {
  }

  lemma UnstoredKeeps(t: Table, w: Waiter, now: int, least: nat, bound: nat)
    requires TableOk(t, now, least, bound) && WaiterOk(t, now, w, least)
    requires t.current.Some? ==> t.current.value == w.pass
    requires w.since + w.wait <= now
    requires t.passes[w.pass].outcome.Settled? ==> w.since + w.wait <= t.passes[w.pass].outcome.at
    ensures TableOk(Unstored(t), now, least, bound) && Later(t, Unstored(t), now)
  {
    hide PassOk;
    if t.current.Some? {
      assert PassOk(t.passes[w.pass], now, least, bound);
      ReplacedPassIsOk(t.passes[w.pass], w, now, least, bound);
      assert Unstored(t).passes == t.passes[w.pass := t.passes[w.pass].(fate := Replaced)];
    }
  }

  lemma SettleKeeps(t: Table, p: nat, ok: bool, now: int, least: nat, bound: nat)
    requires TableOk(t, now, least, bound) && p < |t.passes| && t.passes[p].outcome.Pending?
    ensures TableOk(AfterSettle(t, p, ok, now), now, least, bound) && Later(t, AfterSettle(t, p, ok, now), now)
  {
  }

  lemma NoticeKeeps(t: Table, p: nat, now: int, least: nat, bound: nat)
    requires TableOk(t, now, least, bound)
    requires p < |t.passes| && t.passes[p].outcome.Settled? && t.passes[p].noticed.None?
    ensures TableOk(AfterNotice(t, p, now), now, least, bound) && Later(t, AfterNotice(t, p, now), now)
  {
  }

  lemma LaterKeeps(s: State, t': Table, least: nat, bound: nat)
    requires Inv(s, least, bound) && Later(s.table, t', s.now)
    ensures forall c | c in s.waiters :: WaiterOk(t', s.now, s.waiters[c], least)
    ensures forall c | c in s.answers :: AnswerOk(t', s.now, s.answers[c])
  {
    hide TableOk;
  }

  lemma TickKeeps(s: State, to: int, least: nat, bound: nat)
    requires Inv(s, least, bound) && Enabled(s, Tick(to), least, bound)
    ensures Inv(s.(now := to), least, bound)
  {
  }

  /** A caller may always share what the table holds. */
  lemma CurrentIsShareable(t: Table, now: int, since: int, least: nat, bound: nat)
    requires TableOk(t, now, least, bound) && t.current.Some? && since <= now
    ensures t.current.value < |t.passes| && AnswerOk(t, now, Shares(t.current.value, since))
  {
    assert PassOk(t.passes[t.current.value], now, least, bound);
  }

  lemma StartKeepsInv(s: State, least: nat, bound: nat)
    requires Inv(s, least, bound) && s.table.current.None?
    ensures Inv(s.(table := Start(s.table, s.now)), least, bound)
  {
    StartKeeps(s.table, s.now, least, bound);
    LaterKeeps(s, Start(s.table, s.now), least, bound);
  }

  lemma ArriveKeeps(s: State, e: Event, least: nat, bound: nat)
    requires Inv(s, least, bound) && e.Arrive? && Enabled(s, e, least, bound)
    ensures Inv(Do(s, e, least, bound), least, bound)
  {
    hide StartsApart, AnswerOk, PassOk;
    if s.table.current.None? {
      hide TableOk;
      StartKeepsInv(s, least, bound);
      CurrentIsShareable(Start(s.table, s.now), s.now, s.now, least, bound);
    } else {
      CurrentIsShareable(s.table, s.now, s.now, least, bound);
      assert PassOk(s.table.passes[s.table.current.value], s.now, least, bound);
      StoredStartedEarlier(s.table, s.now, least, bound);
    }
  }

  lemma StoredStartedEarlier(t: Table, now: int, least: nat, bound: nat)
    requires TableOk(t, now, least, bound) && t.current.Some?
    ensures t.current.value < |t.passes| && t.passes[t.current.value].start <= now
  {
    assert PassOk(t.passes[t.current.value], now, least, bound);
  }

  lemma ExpireKeeps(s: State, e: Event, least: nat, bound: nat)
    requires Inv(s, least, bound) && e.Expire? && Enabled(s, e, least, bound)
    ensures Inv(Do(s, e, least, bound), least, bound)
  {
    hide StartsApart, PassOk, AnswerOk, Later, TableOk;
    var w := s.waiters[e.caller];
    assert WaiterOk(s.table, s.now, w, least);
    if s.table.current.Some? && s.table.current.value != w.pass {
      CurrentIsShareable(s.table, s.now, w.since, least, bound);
    } else if w.lifetime {
      UnstoredKeeps(s.table, w, s.now, least, bound);
      LaterKeeps(s, Unstored(s.table), least, bound);
      StartKeepsInv(s.(table := Unstored(s.table)), least, bound);
      CurrentIsShareable(Start(Unstored(s.table), s.now), s.now, w.since, least, bound);
    } else {
      assert AnswerOk(s.table, s.now, FailsFast) by { FailingIsOk(s.table, s.now); }
    }
  }

  lemma FailingIsOk(t: Table, now: int)
    ensures AnswerOk(t, now, FailsFast)
  {
  }

  lemma EventKeepsInv(s: State, e: Event, least: nat, bound: nat)
    requires Inv(s, least, bound) && Enabled(s, e, least, bound)
    ensures Inv(Do(s, e, least, bound), least, bound)
  {
    hide TableOk, Later, AfterNotice, AfterSettle, AfterExpiry;
    match e
    case Tick(to) => TickKeeps(s, to, least, bound);
    case Settle(p, ok) =>
      SettleKeeps(s.table, p, ok, s.now, least, bound);
      LaterKeeps(s, AfterSettle(s.table, p, ok, s.now), least, bound);
    case Notice(p) =>
      NoticeKeeps(s.table, p, s.now, least, bound);
      LaterKeeps(s, AfterNotice(s.table, p, s.now), least, bound);
    case Arrive(_, _, _) => ArriveKeeps(s, e, least, bound);
    case Join(c) => assert WaiterOk(s.table, s.now, s.waiters[c], least);
    case Expire(_) => ExpireKeeps(s, e, least, bound);
  }

  lemma {:induction false} RunKeepsInv(events: seq<Event>, least: nat, bound: nat)
    requires Run(events, least, bound).Some?
    ensures Inv(Run(events, least, bound).value, least, bound)
  {
    hide Inv, Enabled, Do;
    if events == [] {
      BootIsInv(least, bound);
    } else {
      RunKeepsInv(events[..|events| - 1], least, bound);
      EventKeepsInv(Run(events[..|events| - 1], least, bound).value, events[|events| - 1], least, bound);
    }
  }

  lemma BootIsInv(least: nat, bound: nat)
    ensures Inv(Boot, least, bound)
  {
  }

  // ---- the bound on unsettled passes ----

  function Unsettled(passes: seq<Pass>): set<nat> {
    set i: nat | i < |passes| && passes[i].outcome.Pending?
  }

  lemma UnsettledAreApart(events: seq<Event>, least: nat, bound: nat, i: nat, j: nat)
    requires Run(events, least, bound).Some? && i < j < |Run(events, least, bound).value.table.passes|
    requires Run(events, least, bound).value.table.passes[i].outcome.Pending?
    ensures var passes := Run(events, least, bound).value.table.passes;
            passes[i].start + least <= passes[j].start
  {
    hide Run, Inv;
    RunKeepsInv(events, least, bound);
    PairIsApart(Run(events, least, bound).value, least, bound, i, j);
  }

  lemma PairIsApart(s: State, least: nat, bound: nat, i: nat, j: nat)
    requires Inv(s, least, bound) && i < j < |s.table.passes| && s.table.passes[i].outcome.Pending?
    ensures s.table.passes[i].start + least <= s.table.passes[j].start
  {
    assert PassOk(s.table.passes[i], s.now, least, bound);
    assert s.table.passes[i].fate == Replaced;
  }

  /** The unsettled among the first `k` passes are spread at least `least` apart over the last `bound`. */
  lemma {:induction false} Spread(s: State, least: nat, bound: nat, k: nat) returns (last: nat)
    requires Inv(s, least, bound) && k <= |s.table.passes|
    ensures var u := Unsettled(s.table.passes[..k]);
            u != {} ==> last in u && s.now - bound + (|u| - 1) * least <= s.table.passes[last].start
  {
    hide Inv, PassOk;
    last := 0;
    if k > 0 {
      var before := Spread(s, least, bound, k - 1);
      var passes := s.table.passes;
      var u0, u := Unsettled(passes[..k - 1]), Unsettled(passes[..k]);
      if passes[k - 1].outcome.Pending? {
        assert u == u0 + {k - 1};
        last := k - 1;
        if u0 == {} {
          assert |u| == 1;
          StartIsRecent(s, least, bound, k - 1);
        } else {
          PairIsApart(s, least, bound, before, k - 1);
          assert |u| - 1 == |u0|;
          Distribute(|u0|, least);
        }
      } else {
        assert u == u0;
        last := before;
      }
    }
  }

  lemma StartIsRecent(s: State, least: nat, bound: nat, i: nat)
    requires Inv(s, least, bound) && i < |s.table.passes| && s.table.passes[i].outcome.Pending?
    ensures s.now - bound <= s.table.passes[i].start <= s.now
  {
    assert PassOk(s.table.passes[i], s.now, least, bound);
  }

  lemma Distribute(n: nat, least: nat)
    ensures n * least == (n - 1) * least + least
  {
  }

  lemma UnsettledAreFew(events: seq<Event>, least: nat, bound: nat)
    requires least > 0 && Run(events, least, bound).Some?
    ensures |Unsettled(Run(events, least, bound).value.table.passes)| <= bound / least + 1
  {
    hide Run;
    RunKeepsInv(events, least, bound);
    var s := Run(events, least, bound).value;
    var passes := s.table.passes;
    assert passes[..|passes|] == passes;
    var last := Spread(s, least, bound, |passes|);
    var u := Unsettled(passes);
    if u != {} {
      StartIsRecent(s, least, bound, last);
      Quotient(|u| - 1, least, bound);
    }
  }

  lemma Quotient(n: nat, least: nat, bound: nat)
    requires least > 0
    ensures n > bound / least ==> n * least > bound
  {
    if n > bound / least { assert n * least >= (bound / least + 1) * least; }
  }

  /** With the source's own bounds at most four passes are ever unsettled together. */
  lemma AtMostFour(events: seq<Event>)
    requires Run(events, SHARED_SETUP_WAIT_MS, SETUP_TIMEOUT_MS).Some?
    ensures |Unsettled(Run(events, SHARED_SETUP_WAIT_MS, SETUP_TIMEOUT_MS).value.table.passes)| <= 4
  {
    UnsettledAreFew(events, SHARED_SETUP_WAIT_MS, SETUP_TIMEOUT_MS);
  }

  /** `k + 1` passes wedged one wait apart, nobody waiting. */
  predicate Wedged(s: State, k: nat, least: nat) {
    && s.now == k * least && |s.table.passes| == k + 1 && s.table.current == Some(k) && s.waiters == map[]
    && (forall c | c in s.answers :: c <= k)
    && forall i | 0 <= i <= k :: s.table.passes[i].outcome.Pending? && s.table.passes[i].noticed.None?
                                 && s.table.passes[i].start >= 0
  }

  lemma WedgeOneMore(s: State, k: nat, least: nat, bound: nat) returns (after: State)
    requires Wedged(s, k, least) && (k + 1) * least <= bound
    ensures Wedged(after, k + 1, least)
    ensures var s1 := s.(waiters := map[k + 1 := Waiter(k, s.now, least, true)]);
            var s2 := s1.(now := (k + 1) * least);
            && Enabled(s, Arrive(k + 1, least, true), least, bound) && Do(s, Arrive(k + 1, least, true), least, bound) == s1
            && Enabled(s1, Tick((k + 1) * least), least, bound) && Do(s1, Tick((k + 1) * least), least, bound) == s2
            && Enabled(s2, Expire(k + 1), least, bound) && Do(s2, Expire(k + 1), least, bound) == after
  {
    var s1 := s.(waiters := map[k + 1 := Waiter(k, s.now, least, true)]);
    var s2 := s1.(now := (k + 1) * least);
    after := Do(s2, Expire(k + 1), least, bound);
    assert (k + 1) * least == k * least + least;
  }

  /** The bound is reached: with waits of exactly `least`, every waiter expiring, `k + 1` passes can be
      unsettled together for every `k` with `k * least <= bound`. */
  lemma {:induction false} BoundIsReached(k: nat, least: nat, bound: nat) returns (events: seq<Event>)
    requires k * least <= bound
    ensures Run(events, least, bound).Some? && Wedged(Run(events, least, bound).value, k, least)
    ensures |Unsettled(Run(events, least, bound).value.table.passes)| == k + 1
  {
    hide Wedged, Enabled, Do;
    if k == 0 {
      events := [Arrive(0, least, true)];
      assert events[..0] == [];
      FirstArrival(least, bound);
    } else {
      assert k * least == (k - 1) * least + least;
      var before := BoundIsReached(k - 1, least, bound);
      var s := Run(before, least, bound).value;
      var after := WedgeOneMore(s, k - 1, least, bound);
      var e1, e2, e3 := Arrive(k, least, true), Tick(k * least), Expire(k);
      RunSnoc(before, e1, least, bound);
      RunSnoc(before + [e1], e2, least, bound);
      RunSnoc(before + [e1] + [e2], e3, least, bound);
      events := before + [e1] + [e2] + [e3];
    }
    WedgedIsUnsettled(Run(events, least, bound).value, k, least);
  }

  lemma FirstArrival(least: nat, bound: nat)
    ensures Enabled(Boot, Arrive(0, least, true), least, bound)
    ensures Wedged(Do(Boot, Arrive(0, least, true), least, bound), 0, least)
  {
  }

  lemma RunSnoc(events: seq<Event>, e: Event, least: nat, bound: nat)
    requires Run(events, least, bound).Some? && Enabled(Run(events, least, bound).value, e, least, bound)
    ensures Run(events + [e], least, bound) == Some(Do(Run(events, least, bound).value, e, least, bound))
  {
    hide Enabled, Do;
    assert (events + [e])[..|events|] == events;
  }

  lemma WedgedIsUnsettled(s: State, k: nat, least: nat)
    requires Wedged(s, k, least)
    ensures |Unsettled(s.table.passes)| == k + 1
  {
    assert Unsettled(s.table.passes) == UpTo(k + 1);
  }

  function UpTo(n: nat): (u: set<nat>)
    ensures |u| == n && forall i: nat :: i in u <==> i < n
  {
    if n == 0 then {} else UpTo(n - 1) + {n - 1}
  }

  // ---- replacement ----

  /** An expired waiter takes pass `p` out of the table. */
  predicate Replaces(s: State, e: Event, p: nat) {
    && e.Expire? && e.caller in s.waiters && s.waiters[e.caller].lifetime
    && s.table.current == Some(p) && s.waiters[e.caller].pass == p
  }

  function Replacements(events: seq<Event>, p: nat, least: nat, bound: nat): nat {
    if events == [] then 0
    else
      var init, e := events[..|events| - 1], events[|events| - 1];
      var before := Run(init, least, bound);
      Replacements(init, p, least, bound) + if before.Some? && Replaces(before.value, e, p) then 1 else 0
  }

  /** A stored pass leaves the table in two ways only: its own failure is noticed, which stores
      nothing, or a waiter with a lifetime has waited on it for its whole bound, which stores a new
      pass at once. So a superseded pass's late failure never removes its replacement. */
  lemma StoredPassLeaves(s: State, e: Event, least: nat, bound: nat)
    requires Inv(s, least, bound) && Enabled(s, e, least, bound) && s.table.current.Some?
    ensures var p, t' := s.table.current.value, Do(s, e, least, bound).table;
            if e == Notice(p) && !s.table.passes[p].outcome.ok then
              t'.current.None? && |t'.passes| == |s.table.passes| && t'.passes[p].fate == Dropped
            else if Replaces(s, e, p) then
              && t'.current == Some(|s.table.passes|) && |t'.passes| == |s.table.passes| + 1
              && t'.passes[p].fate == Replaced
              && s.table.passes[p].start + least <= s.now
            else
              t'.current == Some(p) && t'.passes[p].fate == Stored && |t'.passes| == |s.table.passes|
  {
    hide AnswerOk, StartsApart;
    var p := s.table.current.value;
    assert PassOk(s.table.passes[p], s.now, least, bound);
    if e.Expire? { assert WaiterOk(s.table, s.now, s.waiters[e.caller], least); }
  }

  /** A pass out of the table never comes back. */
  lemma FateIsFinal(s: State, e: Event, least: nat, bound: nat, p: nat)
    requires Inv(s, least, bound) && Enabled(s, e, least, bound)
    requires p < |s.table.passes| && s.table.passes[p].fate != Stored
    ensures p < |Do(s, e, least, bound).table.passes|
    ensures Do(s, e, least, bound).table.passes[p].fate == s.table.passes[p].fate && !Replaces(s, e, p)
  {
    hide AnswerOk, StartsApart, PassOk, WaiterOk;
  }

  lemma NewPassIsStored(s: State, e: Event, least: nat, bound: nat, p: nat)
    requires Inv(s, least, bound) && Enabled(s, e, least, bound)
    requires |s.table.passes| <= p < |Do(s, e, least, bound).table.passes|
    ensures Do(s, e, least, bound).table.passes[p].fate == Stored
  {
    hide AnswerOk, StartsApart, PassOk, WaiterOk;
  }

  /** However many waiters expire on it, a pass is replaced once at most; it is replaced exactly when
      its fate says so. */
  lemma {:induction false} ReplacedAtMostOnce(events: seq<Event>, p: nat, least: nat, bound: nat)
    requires Run(events, least, bound).Some?
    ensures var passes := Run(events, least, bound).value.table.passes;
            Replacements(events, p, least, bound) == if p < |passes| && passes[p].fate == Replaced then 1 else 0
  {
    hide Inv, Enabled, Do, Replaces;
    if events != [] {
      var init, e := events[..|events| - 1], events[|events| - 1];
      var s := Run(init, least, bound).value;
      ReplacedAtMostOnce(init, p, least, bound);
      RunKeepsInv(init, least, bound);
      OneReplacement(s, e, least, bound, p);
    }
  }

  lemma OneReplacement(s: State, e: Event, least: nat, bound: nat, p: nat)
    requires Inv(s, least, bound) && Enabled(s, e, least, bound)
    ensures var after := Do(s, e, least, bound).table.passes;
            (if p < |s.table.passes| && s.table.passes[p].fate == Replaced then 1 else 0)
            + (if Replaces(s, e, p) then 1 else 0)
            == if p < |after| && after[p].fate == Replaced then 1 else 0
  {
    hide AnswerOk, StartsApart, PassOk, WaiterOk, Do, Enabled;
    if p < |s.table.passes| {
      if s.table.passes[p].fate == Stored {
        assert s.table.current == Some(p);
        StoredPassLeaves(s, e, least, bound);
      } else { FateIsFinal(s, e, least, bound, p); }
    } else if p < |Do(s, e, least, bound).table.passes| {
      NewPassIsStored(s, e, least, bound, p);
    }
  }

  /** A pass that settles within the least wait is never replaced. */
  lemma PromptPassIsNotReplaced(events: seq<Event>, least: nat, bound: nat, i: nat)
    requires Run(events, least, bound).Some? && i < |Run(events, least, bound).value.table.passes|
    requires var p := Run(events, least, bound).value.table.passes[i]; p.outcome.Settled? && p.outcome.at < p.start + least
    ensures Run(events, least, bound).value.table.passes[i].fate != Replaced
  {
    hide Run;
    RunKeepsInv(events, least, bound);
    var s := Run(events, least, bound).value;
    assert PassOk(s.table.passes[i], s.now, least, bound);
  }

  /** No caller is given a failure that was noticed before it arrived. */
  lemma FailuresAreRetried(events: seq<Event>, least: nat, bound: nat, c: nat)
    requires Run(events, least, bound).Some? && c in Run(events, least, bound).value.answers
    requires Run(events, least, bound).value.answers[c].Shares?
    ensures var s := Run(events, least, bound).value;
            && s.answers[c].pass < |s.table.passes|
            && var p := s.table.passes[s.answers[c].pass];
            p.noticed.Some? && p.outcome.Settled? && !p.outcome.ok ==> s.answers[c].since <= p.noticed.value
  {
    hide Run, TableOk;
    RunKeepsInv(events, least, bound);
    var s := Run(events, least, bound).value;
    assert AnswerOk(s.table, s.now, s.answers[c]);
  }

  // ---- what each caller is given ----

  /** The state before event `i`. */
  function Before(events: seq<Event>, i: nat, least: nat, bound: nat): State
    requires i <= |events| && Run(events[..i], least, bound).Some?
  {
    Run(events[..i], least, bound).value
  }

  lemma {:induction false} PrefixRuns(events: seq<Event>, i: nat, least: nat, bound: nat)
    requires i <= |events| && Run(events, least, bound).Some?
    ensures Run(events[..i], least, bound).Some?
    ensures i < |events| ==> Enabled(Before(events, i, least, bound), events[i], least, bound)
    ensures i < |events| ==> Run(events[..i + 1], least, bound)
                             == Some(Do(Before(events, i, least, bound), events[i], least, bound))
    decreases |events| - i
  {
    hide Enabled, Do;
    if i == |events| {
      assert events[..i] == events;
    } else {
      PrefixRuns(events, i + 1, least, bound);
      assert events[..i + 1][..i] == events[..i];
    }
  }

  /** No caller both waits and is answered. */
  lemma {:induction false} WaitingOrAnswered(events: seq<Event>, least: nat, bound: nat)
    requires Run(events, least, bound).Some?
    ensures Run(events, least, bound).value.waiters.Keys !! Run(events, least, bound).value.answers.Keys
  {
    if events != [] { WaitingOrAnswered(events[..|events| - 1], least, bound); }
  }

  /** Event `i` is the arrival of `c`, which found pass `p` stored and not seen to settle. */
  predicate Waited(events: seq<Event>, i: nat, c: nat, p: nat, wait: nat, lifetime: bool, least: nat, bound: nat) {
    && i < |events| && events[i] == Arrive(c, wait, lifetime) && Run(events[..i], least, bound).Some?
    && var t := Before(events, i, least, bound).table;
    t.current == Some(p) && p < |t.passes| && t.passes[p].noticed.None?
  }

  /** Event `i` is the arrival of `c`, which got a promise at once. */
  predicate Served(events: seq<Event>, i: nat, c: nat, p: nat, least: nat, bound: nat) {
    && i < |events| && events[i].Arrive? && events[i].caller == c && Run(events[..i], least, bound).Some?
    && var t := Before(events, i, least, bound).table;
    if t.current.None? then p == |t.passes|
    else t.current == Some(p) && p < |t.passes| && t.passes[p].noticed.Some?
  }

  /** Event `j` ends the wait of `c` on `p` that began at `since`: its pass had settled, or its own wait had
      run out with the pass not settled before. */
  predicate WonByPass(events: seq<Event>, j: nat, c: nat, p: nat, least: nat, bound: nat) {
    && j < |events| && events[j] == Join(c) && Run(events[..j], least, bound).Some?
    && var t := Before(events, j, least, bound).table;
    p < |t.passes| && t.passes[p].outcome.Settled?
  }

  predicate WonByWait(events: seq<Event>, j: nat, c: nat, p: nat, until: int, least: nat, bound: nat) {
    && j < |events| && events[j] == Expire(c) && Run(events[..j], least, bound).Some?
    && var s := Before(events, j, least, bound);
    && until <= s.now && p < |s.table.passes|
    && (s.table.passes[p].outcome.Settled? ==> until <= s.table.passes[p].outcome.at)
  }

  /** How one caller came to wait. */
  ghost predicate WaitsSince(events: seq<Event>, c: nat, w: Waiter, least: nat, bound: nat) {
    exists i: nat :: Waited(events, i, c, w.pass, w.wait, w.lifetime, least, bound)
                     && w.since == Before(events, i, least, bound).now
  }

  lemma EarlierStays(events: seq<Event>, e: Event, i: nat, least: nat, bound: nat)
    requires i < |events|
    ensures (events + [e])[..i] == events[..i] && (events + [e])[i] == events[i]
  {
  }

  lemma {:induction false} WaiterIsItsArrival(events: seq<Event>, c: nat, least: nat, bound: nat)
    requires Run(events, least, bound).Some? && c in Run(events, least, bound).value.waiters
    ensures WaitsSince(events, c, Run(events, least, bound).value.waiters[c], least, bound)
  {
    var init, e := events[..|events| - 1], events[|events| - 1];
    var s, w := Run(init, least, bound).value, Run(events, least, bound).value.waiters[c];
    assert events == init + [e] && events[..|init|] == init;
    if e.Arrive? && e.caller == c {
      assert Waited(events, |init|, c, w.pass, w.wait, w.lifetime, least, bound);
    } else {
      assert c in s.waiters && s.waiters[c] == w;
      WaiterIsItsArrival(init, c, least, bound);
      var i: nat :| Waited(init, i, c, w.pass, w.wait, w.lifetime, least, bound) && w.since == Before(init, i, least, bound).now;
      EarlierStays(init, e, i, least, bound);
      assert Waited(events, i, c, w.pass, w.wait, w.lifetime, least, bound);
    }
  }

  /** The stored pass when a wait runs out, if it is another one. */
  predicate Superseded(t: Table, p: nat) {
    t.current.Some? && t.current.value != p
  }

  ghost predicate GotFailure(events: seq<Event>, c: nat, least: nat, bound: nat) {
    exists i: nat, j: nat, p: nat, wait: nat ::
      && i < j && Waited(events, i, c, p, wait, false, least, bound)
      && WonByWait(events, j, c, p, Before(events, i, least, bound).now + wait, least, bound)
      && !Superseded(Before(events, j, least, bound).table, p)
  }

  /** Event `j` answers `c`; what the answer is, in terms of its arrival. */
  ghost predicate Told(events: seq<Event>, j: nat, c: nat, a: Answer, least: nat, bound: nat) {
    (exists p: nat :: Served(events, j, c, p, least, bound) && a == Shares(p, Before(events, j, least, bound).now))
    || exists i: nat, p: nat, wait: nat, lifetime: bool ::
         && i < j && Waited(events, i, c, p, wait, lifetime, least, bound)
         && var since := Before(events, i, least, bound).now;
         || (WonByPass(events, j, c, p, least, bound) && a == Shares(p, since))
         || (WonByWait(events, j, c, p, since + wait, least, bound)
             && var t := Before(events, j, least, bound).table;
             a == if Superseded(t, p) then Shares(t.current.value, since)
                  else if !lifetime then FailsFast else Shares(|t.passes|, since))
  }

  lemma {:induction false} AnswerStays(events: seq<Event>, j: nat, c: nat, least: nat, bound: nat)
    requires Run(events, least, bound).Some? && j <= |events|
    requires Run(events[..j], least, bound).Some? && c in Before(events, j, least, bound).answers
    ensures c in Run(events, least, bound).value.answers
    ensures Run(events, least, bound).value.answers[c] == Before(events, j, least, bound).answers[c]
    decreases |events|
  {
    if j == |events| {
      assert events[..j] == events;
    } else {
      var init := events[..|events| - 1];
      assert init[..j] == events[..j];
      AnswerStays(init, j, c, least, bound);
      WaitingOrAnswered(init, least, bound);
    }
  }

  /** One event leaves a waiter as it is or answers it. */
  lemma WaitStep(s: State, e: Event, c: nat, least: nat, bound: nat)
    requires Enabled(s, e, least, bound) && s.waiters.Keys !! s.answers.Keys
    ensures var after := Do(s, e, least, bound);
            && (c in s.waiters ==> if c in after.waiters then after.waiters[c] == s.waiters[c] else c in after.answers)
            && (c in s.answers ==> c !in after.waiters && c in after.answers && after.answers[c] == s.answers[c])
  {
    hide Entered, AfterNotice, AfterSettle, AfterExpiry, ExpiryAnswer;
  }

  /** The arrival of a caller that has to wait. */
  lemma ArrivalStep(s: State, c: nat, p: nat, wait: nat, lifetime: bool, least: nat, bound: nat)
    requires Enabled(s, Arrive(c, wait, lifetime), least, bound)
    requires s.table.current == Some(p) && p < |s.table.passes| && s.table.passes[p].noticed.None?
    ensures var after := Do(s, Arrive(c, wait, lifetime), least, bound);
            c in after.waiters && after.waiters[c] == Waiter(p, s.now, wait, lifetime) && c !in after.answers
  {
  }

  /** Until it is answered a caller waits as it arrived; it never arrives twice. */
  lemma {:induction false} AfterArrival(events: seq<Event>, i: nat, c: nat, p: nat, wait: nat, lifetime: bool,
                                        k: nat, least: nat, bound: nat)
    requires Run(events, least, bound).Some? && Waited(events, i, c, p, wait, lifetime, least, bound) && i < k <= |events|
    ensures Run(events[..k], least, bound).Some?
    ensures var s := Before(events, k, least, bound);
            if c in s.waiters then s.waiters[c] == Waiter(p, Before(events, i, least, bound).now, wait, lifetime)
            else c in s.answers
    decreases k
  {
    hide Run, Do, Enabled;
    PrefixRuns(events, k - 1, least, bound);
    var s := Before(events, k - 1, least, bound);
    if i < k - 1 {
      AfterArrival(events, i, c, p, wait, lifetime, k - 1, least, bound);
      WaitingOrAnswered(events[..k - 1], least, bound);
      WaitStep(s, events[k - 1], c, least, bound);
    } else {
      ArrivalStep(s, c, p, wait, lifetime, least, bound);
    }
  }

  lemma ExpiryFails(s: State, c: nat, p: nat, since: int, wait: nat, least: nat, bound: nat)
    requires Enabled(s, Expire(c), least, bound) && s.waiters[c] == Waiter(p, since, wait, false) && !Superseded(s.table, p)
    ensures var after := Do(s, Expire(c), least, bound); c in after.answers && after.answers[c] == FailsFast
  {
  }

  /** A failure given fast has its story, and that story gives it. */
  lemma FailureIsGiven(events: seq<Event>, i: nat, j: nat, c: nat, p: nat, wait: nat, least: nat, bound: nat)
    requires Run(events, least, bound).Some? && i < j && Waited(events, i, c, p, wait, false, least, bound)
    requires WonByWait(events, j, c, p, Before(events, i, least, bound).now + wait, least, bound)
    requires !Superseded(Before(events, j, least, bound).table, p)
    ensures c in Run(events, least, bound).value.answers && Run(events, least, bound).value.answers[c] == FailsFast
  {
    hide Run, Do, Enabled;
    AfterArrival(events, i, c, p, wait, false, j, least, bound);
    PrefixRuns(events, j, least, bound);
    WaitingOrAnswered(events[..j], least, bound);
    CallerWaits(Before(events, j, least, bound), c, least, bound);
    ExpiryFails(Before(events, j, least, bound), c, p, Before(events, i, least, bound).now, wait, least, bound);
    AnswerStays(events, j + 1, c, least, bound);
  }

  lemma CallerWaits(s: State, c: nat, least: nat, bound: nat)
    requires Enabled(s, Expire(c), least, bound) || Enabled(s, Join(c), least, bound)
    ensures c in s.waiters
  {
  }

  /** Every answer has its story. */
  lemma {:induction false} AnswerHasStory(events: seq<Event>, c: nat, least: nat, bound: nat) returns (j: nat)
    requires Run(events, least, bound).Some? && c in Run(events, least, bound).value.answers
    ensures Told(events, j, c, Run(events, least, bound).value.answers[c], least, bound)
  {
    var init, e := events[..|events| - 1], events[|events| - 1];
    var s, a := Run(init, least, bound).value, Run(events, least, bound).value.answers[c];
    assert events == init + [e] && events[..|init|] == init;
    if c in s.answers {
      WaitingOrAnswered(init, least, bound);
      j := AnswerHasStory(init, c, least, bound);
      ToldStays(init, e, j, c, a, least, bound);
    } else {
      j := |init|;
      LastAnswer(init, e, c, a, least, bound);
    }
  }

  lemma ToldStays(events: seq<Event>, e: Event, j: nat, c: nat, a: Answer, least: nat, bound: nat)
    requires Told(events, j, c, a, least, bound)
    ensures Told(events + [e], j, c, a, least, bound)
  {
    hide Run;
    var all := events + [e];
    if p: nat :| Served(events, j, c, p, least, bound) && a == Shares(p, Before(events, j, least, bound).now) {
      EarlierStays(events, e, j, least, bound);
      assert Served(all, j, c, p, least, bound);
    } else {
      var i: nat, p: nat, wait: nat, lifetime: bool :|
         && i < j && Waited(events, i, c, p, wait, lifetime, least, bound)
         && var since := Before(events, i, least, bound).now;
         || (WonByPass(events, j, c, p, least, bound) && a == Shares(p, since))
         || (WonByWait(events, j, c, p, since + wait, least, bound)
             && var t := Before(events, j, least, bound).table;
             a == if Superseded(t, p) then Shares(t.current.value, since)
                  else if !lifetime then FailsFast else Shares(|t.passes|, since));
      EarlierStays(events, e, i, least, bound);
      EarlierStays(events, e, j, least, bound);
      assert Waited(all, i, c, p, wait, lifetime, least, bound);
      assert WonByPass(events, j, c, p, least, bound) ==> WonByPass(all, j, c, p, least, bound);
    }
  }

  /** The event that answers `c` is its last one. */
  lemma LastAnswer(init: seq<Event>, e: Event, c: nat, a: Answer, least: nat, bound: nat)
    requires Run(init, least, bound).Some? && Enabled(Run(init, least, bound).value, e, least, bound)
    requires var s, after := Run(init, least, bound).value, Do(Run(init, least, bound).value, e, least, bound);
             c !in s.answers && c in after.answers && after.answers[c] == a
    ensures Told(init + [e], |init|, c, a, least, bound)
  {
    var all, j := init + [e], |init|;
    var s := Run(init, least, bound).value;
    assert all[..j] == init && all[j] == e;
    if e.Arrive? {
      RunKeepsInv(init, least, bound);
      assert Served(all, j, c, a.pass, least, bound);
    } else {
      var w := s.waiters[c];
      WaiterIsItsArrival(init, c, least, bound);
      var i: nat :| Waited(init, i, c, w.pass, w.wait, w.lifetime, least, bound) && w.since == Before(init, i, least, bound).now;
      EarlierStays(init, e, i, least, bound);
      hide Run;
      assert Waited(all, i, c, w.pass, w.wait, w.lifetime, least, bound);
      if e.Join? {
        assert WonByPass(all, j, c, w.pass, least, bound);
      } else {
        assert WonByWait(all, j, c, w.pass, w.since + w.wait, least, bound);
      }
    }
  }

  /** An answered caller is failed fast exactly when it arrived without a lifetime, its own wait ran out
      before its pass settled, and the table then held its own pass or none. */
  lemma FailsFastExactly(events: seq<Event>, c: nat, least: nat, bound: nat)
    requires Run(events, least, bound).Some? && c in Run(events, least, bound).value.answers
    ensures Run(events, least, bound).value.answers[c] == FailsFast <==> GotFailure(events, c, least, bound)
  {
    var a := Run(events, least, bound).value.answers[c];
    if a == FailsFast {
      var j := AnswerHasStory(events, c, least, bound);
      hide Run, Waited, WonByWait, WonByPass, Served;
    }
    if GotFailure(events, c, least, bound) {
      hide Run;
      var i: nat, j: nat, p: nat, wait: nat :|
        && i < j && Waited(events, i, c, p, wait, false, least, bound)
        && WonByWait(events, j, c, p, Before(events, i, least, bound).now + wait, least, bound)
        && !Superseded(Before(events, j, least, bound).table, p);
      FailureIsGiven(events, i, j, c, p, wait, least, bound);
    }
  }

  /** A caller that finds nothing stored, or a pass seen to settle, is given a promise at once: that pass, or
      the one it starts. */
  lemma ServedAtOnce(events: seq<Event>, i: nat, c: nat, p: nat, least: nat, bound: nat)
    requires Run(events, least, bound).Some? && Served(events, i, c, p, least, bound)
    ensures c in Run(events, least, bound).value.answers
    ensures Run(events, least, bound).value.answers[c] == Shares(p, Before(events, i, least, bound).now)
  {
    PrefixRuns(events, i, least, bound);
    hide Run;
    AnswerStays(events, i + 1, c, least, bound);
  }

  /** The pass was not over when the wait ran out. */
  predicate Late(s: State, p: nat, until: int) {
    until <= s.now && p < |s.table.passes|
    && (s.table.passes[p].outcome.Settled? ==> until <= s.table.passes[p].outcome.at)
  }

  lemma LateStays(s: State, e: Event, p: nat, until: int, least: nat, bound: nat)
    requires Enabled(s, e, least, bound) && Late(s, p, until)
    ensures Late(Do(s, e, least, bound), p, until)
  {
  }

  lemma {:induction false} PromptOrLate(events: seq<Event>, i: nat, c: nat, p: nat, wait: nat, lifetime: bool,
                                        k: nat, least: nat, bound: nat)
    requires Run(events, least, bound).Some? && Waited(events, i, c, p, wait, lifetime, least, bound) && i < k <= |events|
    ensures Run(events[..k], least, bound).Some?
    ensures var s, since := Before(events, k, least, bound), Before(events, i, least, bound).now;
            c in s.answers ==> s.answers[c] == Shares(p, since) || Late(s, p, since + wait)
    decreases k
  {
    hide Run, Do, Enabled, Late;
    PrefixRuns(events, k - 1, least, bound);
    var s, since := Before(events, k - 1, least, bound), Before(events, i, least, bound).now;
    WaitingOrAnswered(events[..k - 1], least, bound);
    if i < k - 1 {
      PromptOrLate(events, i, c, p, wait, lifetime, k - 1, least, bound);
      AfterArrival(events, i, c, p, wait, lifetime, k - 1, least, bound);
      PromptStep(s, events[k - 1], c, p, since, wait, least, bound);
    } else {
      ArrivalStep(s, c, p, wait, lifetime, least, bound);
    }
  }

  lemma PromptStep(s: State, e: Event, c: nat, p: nat, since: int, wait: nat, least: nat, bound: nat)
    requires Enabled(s, e, least, bound) && s.waiters.Keys !! s.answers.Keys
    requires if c in s.waiters then s.waiters[c].pass == p && s.waiters[c].since == since && s.waiters[c].wait == wait
             else c in s.answers && (s.answers[c] == Shares(p, since) || Late(s, p, since + wait))
    ensures var after := Do(s, e, least, bound);
            c in after.answers ==> after.answers[c] == Shares(p, since) || Late(after, p, since + wait)
  {
    if e == Expire(c) { assert Late(s, p, since + wait); }
    if Late(s, p, since + wait) { LateStays(s, e, p, since + wait, least, bound); }
    hide Late, Entered, AfterNotice, AfterSettle, AfterExpiry, ExpiryAnswer;
  }

  /** A caller whose pass settled before its wait was over shares that very pass. */
  lemma PromptPassIsShared(events: seq<Event>, i: nat, c: nat, p: nat, wait: nat, lifetime: bool, least: nat, bound: nat)
    requires Run(events, least, bound).Some? && Waited(events, i, c, p, wait, lifetime, least, bound)
    requires var s := Run(events, least, bound).value;
             && c in s.answers && p < |s.table.passes| && s.table.passes[p].outcome.Settled?
             && s.table.passes[p].outcome.at < Before(events, i, least, bound).now + wait
    ensures Run(events, least, bound).value.answers[c] == Shares(p, Before(events, i, least, bound).now)
  {
    assert events[..|events|] == events;
    hide Run;
    PromptOrLate(events, i, c, p, wait, lifetime, |events|, least, bound);
  }

  /** Such a run: the second caller waits, the pass settles in time, and both share it. */
  lemma SecondCallerShares(least: nat, bound: nat, wait: nat) returns (events: seq<Event>)
    requires 0 < least <= wait
    ensures events == [Arrive(0, wait, true), Arrive(1, wait, true), Settle(0, true), Join(1)]
    ensures Run(events, least, bound).Some?
    ensures Run(events, least, bound).value.answers == map[0 := Shares(0, 0), 1 := Shares(0, 0)]
  {
    var e0, e1, e2, e3 := Arrive(0, wait, true), Arrive(1, wait, true), Settle(0, true), Join(1);
    assert Run([], least, bound) == Some(Boot);
    RunSnoc([], e0, least, bound);
    assert [] + [e0] == [e0];
    RunSnoc([e0], e1, least, bound);
    RunSnoc([e0] + [e1], e2, least, bound);
    RunSnoc([e0] + [e1] + [e2], e3, least, bound);
    events := [e0] + [e1] + [e2] + [e3];
  }

  // ---- a herd of waiters ----

  /** Waiters on `p`, all expired, all with a lifetime. */
  predicate Herd(s: State, p: nat, callers: seq<nat>) {
    && p < |s.table.passes|
    && (forall i, j | 0 <= i < j < |callers| :: callers[i] != callers[j])
    && forall i | 0 <= i < |callers| ::
         && callers[i] in s.waiters && s.waiters[callers[i]].lifetime && s.waiters[callers[i]].pass == p
         && s.waiters[callers[i]].since + s.waiters[callers[i]].wait <= s.now
         && (s.table.passes[p].outcome.Settled? ==>
               s.waiters[callers[i]].since + s.waiters[callers[i]].wait <= s.table.passes[p].outcome.at)
  }

  /** The herd expires one by one, in the given order. */
  function ExpireAll(s: State, p: nat, callers: seq<nat>, least: nat, bound: nat): State
    requires Herd(s, p, callers)
    decreases |callers|
  {
    if callers == [] then s else ExpireAll(Do(s, Expire(callers[0]), least, bound), p, callers[1..], least, bound)
  }

  lemma {:induction false} LateHerdShares(s: State, p: nat, callers: seq<nat>, least: nat, bound: nat)
    requires Herd(s, p, callers) && s.table.current.Some? && s.table.current.value != p
    ensures var after := ExpireAll(s, p, callers, least, bound);
            && after.table == s.table
            && (forall i | 0 <= i < |callers| :: callers[i] in after.answers
                  && after.answers[callers[i]] == Shares(s.table.current.value, s.waiters[callers[i]].since))
            && forall c | c in s.answers && c !in callers :: c in after.answers && after.answers[c] == s.answers[c]
    decreases |callers|
  {
    if callers != [] {
      var s1 := Do(s, Expire(callers[0]), least, bound);
      LateHerdShares(s1, p, callers[1..], least, bound);
      assert callers[0] !in callers[1..];
      assert forall i | 1 <= i < |callers| :: callers[i] == callers[1..][i - 1];
    }
  }

  /** However many waiters expire on the stored pass, they start one replacement and all share it. */
  lemma HerdSharesOneReplacement(s: State, p: nat, callers: seq<nat>, least: nat, bound: nat)
    requires Herd(s, p, callers) && s.table.current == Some(p) && callers != []
    ensures var after := ExpireAll(s, p, callers, least, bound);
            && |after.table.passes| == |s.table.passes| + 1 && after.table.current == Some(|s.table.passes|)
            && forall i | 0 <= i < |callers| :: callers[i] in after.answers
                 && after.answers[callers[i]] == Shares(|s.table.passes|, s.waiters[callers[i]].since)
  {
    var s1 := Do(s, Expire(callers[0]), least, bound);
    LateHerdShares(s1, p, callers[1..], least, bound);
    assert callers[0] !in callers[1..];
    assert forall i | 1 <= i < |callers| :: callers[i] == callers[1..][i - 1];
  }

  // ---- the code ----

  /** The `setupPasses` entry of one binding and the passes it ever held. */
  class SetupPasses {
    var passes: seq<Pass>
    var entry: Option<nat>

    ghost predicate Valid()
      reads this
    {
      OnlyNewestIsStored(Snapshot())
    }

    function Snapshot(): Table
      reads this
    {
      Table(passes, entry)
    }

    constructor ()
      ensures Valid() && Snapshot() == Boot.table
    {
      passes, entry := [], None;
    }

    method StartSetupPass(now: int) returns (pass: nat)
      requires Valid() && entry.None?
      modifies this
      ensures Valid() && Snapshot() == Start(old(Snapshot()), now) && pass == old(|passes|)
    {
      pass := |passes|;
      passes := passes + [Pass(now, Pending, None, Stored)];
      entry := Some(pass);
    }

    /** `runDbSetupOnce` up to its race: the pass to wait on, or the answer. */
    method RunOnce(now: int) returns (waitsOn: Option<nat>, answer: Answer)
      requires Valid()
      modifies this
      ensures Valid() && waitsOn == WaitsOn(old(Snapshot())) && Snapshot() == Entered(old(Snapshot()), now)
      ensures waitsOn.None? ==> entry.Some? && answer == Shares(entry.value, now)
    {
      answer := FailsFast;
      if entry.None? {
        var pass := StartSetupPass(now);
        return None, Shares(pass, now);
      }
      if passes[entry.value].noticed.Some? { return None, Shares(entry.value, now); }
      return entry, answer;
    }

    /** `runDbSetupOnce` past a race its pass won: the caller is given the pass it waited on. */
    method PassWon(w: Waiter) returns (answer: Answer)
      requires Valid() && w.pass < |passes| && passes[w.pass].outcome.Settled?
      ensures Valid() && answer.Shares? && answer.pass == w.pass && answer.since == w.since
    {
      return Shares(w.pass, w.since);
    }

    /** `runDbSetupOnce` past a race its own wait won. */
    method Expired(w: Waiter, now: int) returns (answer: Answer)
      requires Valid() && w.pass < |passes|
      modifies this
      ensures Valid() && answer == ExpiryAnswer(old(Snapshot()), w) && Snapshot() == AfterExpiry(old(Snapshot()), w, now)
    {
      if entry.Some? && entry.value != w.pass { return Shares(entry.value, w.since); }
      if !w.lifetime { return FailsFast; }
      if entry.Some? {
        passes := passes[w.pass := passes[w.pass].(fate := Replaced)];
        entry := None;
      }
      var pass := StartSetupPass(now);
      return Shares(pass, w.since);
    }

    /** The continuation of a pass: a failure leaves the table only while the table still holds it. */
    method OnSettled(p: nat, now: int)
      requires Valid() && p < |passes| && passes[p].outcome.Settled?
      modifies this
      ensures Valid() && Snapshot() == AfterNotice(old(Snapshot()), p, now)
    {
      if !passes[p].outcome.ok {
        if entry == Some(p) {
          entry := None;
          passes := passes[p := passes[p].(fate := Dropped)];
        }
      }
      passes := passes[p := passes[p].(noticed := Some(now))];
    }
  }
}
