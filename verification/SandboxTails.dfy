/** What can happen while a stop that has deleted its lease has yet to delete its alarm: a start finds
    no lease, mints one, arms and reserves. Two runs from empty storage show what the stop then takes
    away from it. */
module SandboxTails {
  import opened Options
  import opened Receipts
  import opened Admission
  import opened SandboxWorld
  import opened SandboxProtocol
  import opened SandboxAlarms
  import opened SandboxRuns

  /** A world of one cell. */
  function Solo(id: string, c: Cell, st: State, sent: map<nat, Call>, flying: set<nat>, replies: map<nat, Answer>,
      minted: set<string>): World
  {
    World(1, st, map[id := c], sent, flying, replies, minted)
  }

  // ---- the two admission operations ----

  const Noon := StopClock(0, 0, 0, 0)

  function Fenced(key: Key): State {
    State(Store(map[], [Receipt(key, 0)], None, false), map[key := 0], 0)
  }

  function Held(key: Key, id: string, g: string): State {
    var st := Fenced(key);
    st.(store := st.store.(entries := map[id := Entry(g, Reserved, None, None)]))
  }

  lemma StopOfNothing(id: string, g: string)
    requires ValidId(id) && ValidId(g)
    ensures var op := DoStopped(id, g, Noon);
            && CanRun(Empty, op) && PlanOf(Empty, op).answer == Released && |PlanOf(Empty, op).writes| == 1
            && Exec(Empty, op, 1) == Fenced(Key(id, g))
  {
    RecordOfNothing(Key(id, g));
    hide Record;
    var op := DoStopped(id, g, Noon);
    assert PlanOf(Empty, op).writes == [PutReceipts([Receipt(Key(id, g), 0)], Key(id, g), 0)];
  }

  lemma RecordOfNothing(key: Key)
    ensures Record([], key, 0, 0) == [Receipt(key, 0)]
  {
    assert Completions([], 0) == [];
    var rs := [Receipt(key, 0)];
    assert rs[..0] == [];
    assert ByCompletedAt(rs) == rs;
  }

  lemma ReserveOfOther(id: string, past: string, g: string)
    requires ValidId(id) && ValidId(g) && past != g
    ensures var st, op := Fenced(Key(id, past)), DoReserve(id, g, 1, 0);
            && CanRun(st, op) && PlanOf(st, op).answer == Admitted && |PlanOf(st, op).writes| == 1
            && Exec(st, op, 1) == Held(Key(id, past), id, g)
  {
    var st, op := Fenced(Key(id, past)), DoReserve(id, g, 1, 0);
    assert !HasCompletion(st.store.receipts, Key(id, g), 0) by {
      OneReceipt(Key(id, past));
      hide Completions;
    }
    hide HasCompletion;
    assert |st.store.entries| == 0;
    assert Reserve(st.store, id, g, 1, 0).writes == [PutEntries(Held(Key(id, past), id, g).store.entries)];
  }

  lemma OneReceipt(key: Key)
    ensures Completions([Receipt(key, 0)], 0) == [Receipt(key, 0)]
  {
    var rs := [Receipt(key, 0)];
    assert rs[..0] == [];
    assert Recent(rs, 0 - RETENTION_MS) == rs;
    assert ByCompletedAt(rs) == rs;
  }

  // ---- controller events in a world of one cell ----

  function With(w: World, id: string, c: Cell): World {
    w.(cells := map[id := c])
  }

  predicate JustMoves(e: Event) {
    e.Of? && !e.act.Mint? && !e.act.SendReserve? && !e.act.SendStopped? && !e.act.BeginConfirm?
  }

  lemma SoloMoves(w: World, id: string, c: Cell, e: Event)
    requires w.cells == map[id := c] && JustMoves(e) && e.id == id && CellMay(w, c, e.act)
    ensures Enabled(w, e) && Do(w, e) == With(w, id, CellDo(c, e.act))
  {
    hide CellDo, PlanOf, Exec, CanRun, Runs, InRetention, ValidId;
    assert SetCell(w, id, CellDo(c, e.act)) == With(w, id, CellDo(c, e.act));
  }

  lemma SoloMints(w: World, id: string, c: Cell, g: string)
    requires w.cells == map[id := c] && CellMay(w, c, Mint(g))
    ensures var e := Of(id, Mint(g));
            Enabled(w, e) && Do(w, e) == With(w, id, CellDo(c, e.act)).(minted := w.minted + {g})
  {
    assert w.cells[id := CellDo(c, Mint(g))] == map[id := CellDo(c, Mint(g))];
  }

  lemma SoloSends(w: World, id: string, c: Cell, a: Act, n: nat, call: Call)
    requires w.cells == map[id := c] && CellMay(w, c, a) && SendsCall(id, c, a, n, call)
    ensures Enabled(w, Of(id, a)) && Do(w, Of(id, a)) == Send(With(w, id, CellDo(c, a)), n, call)
  {
    hide CellDo, PlanOf, Exec, CanRun, Runs, InRetention, ValidId;
    assert SetCell(w, id, CellDo(c, a)) == With(w, id, CellDo(c, a));
  }

  lemma Moves(start: World, past: seq<Event>, w: World, id: string, c: Cell, e: Event)
    requires Leads(start, past, w) && w.cells == map[id := c] && JustMoves(e) && e.id == id && CellMay(w, c, e.act)
    ensures Leads(start, past + [e], With(w, id, CellDo(c, e.act)))
  {
    SoloMoves(w, id, c, e);
    hide *;
    Next(start, past, w, e);
  }

  lemma Mints(start: World, past: seq<Event>, w: World, id: string, c: Cell, g: string)
    requires Leads(start, past, w) && w.cells == map[id := c] && CellMay(w, c, Mint(g))
    ensures Leads(start, past + [Of(id, Mint(g))], With(w, id, CellDo(c, Mint(g))).(minted := w.minted + {g}))
  {
    SoloMints(w, id, c, g);
    hide *;
    Next(start, past, w, Of(id, Mint(g)));
  }

  lemma Sends(start: World, past: seq<Event>, w: World, id: string, c: Cell, a: Act, n: nat, call: Call)
    requires Leads(start, past, w) && w.cells == map[id := c] && CellMay(w, c, a) && SendsCall(id, c, a, n, call)
    ensures Leads(start, past + [Of(id, a)], Send(With(w, id, CellDo(c, a)), n, call))
  {
    SoloSends(w, id, c, a, n, call);
    hide *;
    Next(start, past, w, Of(id, a));
  }

  // ---- to the tail of a stop ----

  /** A first start was minted and lost; its stop is under way. */
  function StopCalled(id: string, g: string): World {
    Solo(id, Cell(Some(Lease(g, LeasePhase.Stopped)), false, Idle, AwaitingRelease(g, 0), {}, true, NotFired), Empty,
      map[0 := Call(StoppedCall, id, g)], {0}, map[], {g})
  }

  function TailCell(lease: Option<Lease>, start: StartOp): Cell {
    EmptyCell.(lease := lease, start := start, stop := Unarming, scheduled := true)
  }

  /** The stop has deleted its lease. */
  function TailBegun(id: string, g: string): World {
    Solo(id, TailCell(None, Idle), Fenced(Key(id, g)),
      map[0 := Call(StoppedCall, id, g)], {}, map[0 := Released], {g})
  }

  /** The second start's lease is armed and its reserve admitted; the stop has yet to delete its alarm. */
  function HeldInTail(id: string, g: string, h: string): World {
    Solo(id, TailCell(Some(Lease(h, Pending)), Asking),
      Held(Key(id, g), id, h), map[0 := Call(StoppedCall, id, g), 1 := Call(ReserveCall, id, h)], {},
      map[0 := Released, 1 := Admitted], {g, h})
  }

  lemma ToStopCalled(id: string, g: string) returns (events: seq<Event>)
    requires ValidId(id) && ValidId(g)
    ensures Leads(Init(1, {id}), events, StopCalled(id, g))
  {
    var w0, c0 := Init(1, {id}), EmptyCell;
    assert w0.cells == map[id := c0];
    assert Leads(w0, [], w0);
    hide Leads, Enabled, Do;
    Moves(w0, [], w0, id, c0, Of(id, BeginStart));
    var e1, c1 := [] + [Of(id, BeginStart)], c0.(start := Minting);
    var w1 := With(w0, id, c1);
    Mints(w0, e1, w1, id, c1, g);
    var e2, c2 := e1 + [Of(id, Mint(g))], c1.(lease := Some(Lease(g, Pending)), start := Arming(g));
    var w2 := With(w1, id, c2).(minted := {} + {g});
    Moves(w0, e2, w2, id, c2, Of(id, EndStart));
    events := ToStopCalledFrom(w0, e2 + [Of(id, EndStart)], With(w2, id, c2.(start := Idle)), id, g);
  }

  lemma ToStopCalledFrom(w0: World, e0: seq<Event>, w: World, id: string, g: string) returns (events: seq<Event>)
    requires Leads(w0, e0, w)
    requires w == Solo(id, EmptyCell.(lease := Some(Lease(g, Pending))), Empty, map[], {}, map[], {} + {g})
    ensures Leads(w0, events, StopCalled(id, g))
  {
    hide Leads;
    var c0 := w.cells[id];
    Moves(w0, e0, w, id, c0, Of(id, BeginStop));
    var e1, c1 := e0 + [Of(id, BeginStop)], c0.(stop := Marking(g));
    Moves(w0, e1, With(w, id, c1), id, c1, Of(id, MarkStopped));
    var e2, c2 := e1 + [Of(id, MarkStopped)], c1.(lease := Some(Lease(g, LeasePhase.Stopped)), stop := Marked(g));
    Moves(w0, e2, With(w, id, c2), id, c2, Of(id, ArmStop));
    var e3, c3 := e2 + [Of(id, ArmStop)], c2.(stop := Releasing(g), scheduled := true);
    Sends(w0, e3, With(w, id, c3), id, c3, SendStopped(0), 0, Call(StoppedCall, id, g));
    events := e3 + [Of(id, SendStopped(0))];
    var c4, call := c3.(stop := AwaitingRelease(g, 0)), Call(StoppedCall, id, g);
    var end := Send(With(w, id, c4), 0, call);
    assert end.sent == StopCalled(id, g).sent && end.flying == {0} && end.minted == {g};
  }

  lemma ToTail(w0: World, e0: seq<Event>, id: string, g: string) returns (events: seq<Event>)
    requires ValidId(id) && ValidId(g) && Leads(w0, e0, StopCalled(id, g))
    ensures Leads(w0, events, TailBegun(id, g))
  {
    hide Leads, Record;
    var w, op := StopCalled(id, g), DoStopped(id, g, Noon);
    StopOfNothing(id, g);
    var deliver := Deliver(0, op, 1);
    var w1 := w.(admission := Fenced(Key(id, g)), flying := {}, replies := map[0 := Released]);
    DeliversTo(w0, e0, w, deliver, w1);
    hide Exec, PlanOf;
    var c0, e1 := w.cells[id], e0 + [deliver];
    Moves(w0, e1, w1, id, c0, Of(id, StopAnswered));
    var e2, c1 := e1 + [Of(id, StopAnswered)], c0.(stop := Deleting(g));
    Moves(w0, e2, With(w1, id, c1), id, c1, Of(id, DeleteLease));
    events := e2 + [Of(id, DeleteLease)];
  }

  lemma ToHeld(w0: World, e0: seq<Event>, id: string, g: string, h: string) returns (events: seq<Event>)
    requires ValidId(id) && ValidId(h) && h != g && Leads(w0, e0, TailBegun(id, g))
    ensures Leads(w0, events, HeldInTail(id, g, h))
  {
    hide Leads;
    var w, c0 := TailBegun(id, g), TailCell(None, Idle);
    Moves(w0, e0, w, id, c0, Of(id, BeginStart));
    var e1, c1 := e0 + [Of(id, BeginStart)], c0.(start := Minting);
    var w1 := With(w, id, c1);
    Mints(w0, e1, w1, id, c1, h);
    var e2, c2 := e1 + [Of(id, Mint(h))], c1.(lease := Some(Lease(h, Pending)), start := Arming(h));
    var w2 := With(w1, id, c2).(minted := {g} + {h});
    Moves(w0, e2, w2, id, c2, Of(id, ArmStart));
    events := ToHeldFrom(w0, e2 + [Of(id, ArmStart)], With(w2, id, c2.(start := Sending(h), scheduled := true)), id, g, h);
  }

  lemma ToHeldFrom(w0: World, e0: seq<Event>, w: World, id: string, g: string, h: string) returns (events: seq<Event>)
    requires ValidId(id) && ValidId(h) && h != g && Leads(w0, e0, w)
    requires w == TailBegun(id, g).(cells := map[id := TailCell(Some(Lease(h, Pending)), Sending(h))], minted := {g} + {h})
    ensures Leads(w0, events, HeldInTail(id, g, h))
  {
    hide Leads;
    var c, call := TailCell(Some(Lease(h, Pending)), Sending(h)), Call(ReserveCall, id, h);
    Sends(w0, e0, w, id, c, SendReserve(1), 1, call);
    var e1, w1 := e0 + [Of(id, SendReserve(1))], Send(With(w, id, c.(start := Asking)), 1, call);
    var deliver := Deliver(1, DoReserve(id, h, 1, 0), 1);
    hide *;
    ReserveArrives(w, w1, id, g, h);
    DeliversTo(w0, e1, w1, deliver, HeldInTail(id, g, h));
    events := e1 + [deliver];
  }

  lemma ReserveArrives(w: World, w1: World, id: string, g: string, h: string)
    requires ValidId(id) && ValidId(h) && h != g
    requires w == TailBegun(id, g).(cells := map[id := TailCell(Some(Lease(h, Pending)), Sending(h))], minted := {g} + {h})
    requires w1 == Send(With(w, id, TailCell(Some(Lease(h, Pending)), Asking)), 1, Call(ReserveCall, id, h))
    ensures var e, next := Deliver(1, DoReserve(id, h, 1, 0), 1), HeldInTail(id, g, h);
            && Enabled(w1, e) && |PlanOf(w1.admission, e.op).writes| == 1
            && next == w1.(admission := Exec(w1.admission, e.op, 1), flying := w1.flying - {1},
                           replies := w1.replies[1 := PlanOf(w1.admission, e.op).answer])
  {
    hide Record, HasCompletion, Exec, PlanOf;
    ReserveOfOther(id, g, h);
  }

  lemma ToHeldFromStart(id: string, g: string, h: string) returns (events: seq<Event>)
    requires ValidId(id) && ValidId(g) && ValidId(h) && h != g
    ensures Leads(Init(1, {id}), events, HeldInTail(id, g, h))
  {
    hide Leads;
    events := ToStopCalled(id, g);
    events := ToTail(Init(1, {id}), events, id, g);
    events := ToHeld(Init(1, {id}), events, id, g, h);
  }

  lemma RunOf(id: string, events: seq<Event>, end: World) returns (worlds: seq<World>)
    requires ValidId(id) && Leads(Init(1, {id}), events, end)
    ensures Run(worlds, events) && worlds[|events|] == end
  {
    hide Leads, Run;
    worlds := LeadsFromInit(1, {id}, events, end);
  }

  lemma HeldIsExposed(id: string, g: string, h: string)
    ensures Exposed(HeldInTail(id, g, h), id)
  {
    assert AskedAs(HeldInTail(id, g, h), 1, id, h);
  }

  /** The end of the tail takes the alarm of the second start: its entry is held with no alarm set. */
  lemma TailTakesTheAlarm(id: string, g: string, h: string) returns (worlds: seq<World>, events: seq<Event>)
    requires ValidId(id) && ValidId(g) && ValidId(h) && h != g
    ensures Run(worlds, events) && |events| > 0
    ensures Unarms(worlds[|events| - 1], events[|events| - 1], id)
    ensures var w := worlds[|events|]; id in w.admission.store.entries && id in w.cells && !Armed(w.cells[id])
  {
    hide Leads, Enabled, Do, Run, Exposed;
    var w, c := HeldInTail(id, g, h), TailCell(Some(Lease(h, Pending)), Asking);
    var past := ToHeldFromStart(id, g, h);
    var before := RunOf(id, past, w);
    var e := Of(id, DeleteAlarm);
    SoloMoves(w, id, c, e);
    HeldIsExposed(id, g, h);
    var next := With(w, id, c.(stop := NotStopping, scheduled := false));
    OneMore(before, past, e, next);
    worlds, events := before + [next], past + [e];
  }

  /** A third start that joins that tail goes on with the second one's lease in place, and mints over
      it: the entry it leaves is nobody's. */
  lemma JoinedTailOrphans(id: string, g: string, h: string, k: string) returns (worlds: seq<World>, events: seq<Event>)
    requires ValidId(id) && ValidId(g) && ValidId(h) && ValidId(k) && g != h && k != g && k != h
    ensures Run(worlds, events) && |events| > 2
    ensures Strands(worlds[|events| - 3], events[|events| - 3], id)
    ensures Overwrites(worlds[|events| - 1], events[|events| - 1], id)
    ensures !NoOrphan(worlds[|events|], id)
  {
    var w, c := HeldInTail(id, g, h), TailCell(Some(Lease(h, Pending)), Asking);
    var past := ToHeldFromStart(id, g, h);
    var w0 := Init(1, {id});
    hide Leads, Enabled, Do, Run;
    Moves(w0, past, w, id, c, Of(id, EndStart));
    var e1, c1 := past + [Of(id, EndStart)], c.(start := Idle);
    Moves(w0, e1, With(w, id, c1), id, c1, Of(id, BeginStart));
    var e2, c2 := e1 + [Of(id, BeginStart)], c1.(start := Clearing(false));
    var joined := With(w, id, c2);
    var before := RunOf(id, e2, joined);
    worlds, events := OverTheLease(before, e2, joined, id, h, k);
  }

  lemma OverTheLease(before: seq<World>, past: seq<Event>, w: World, id: string, h: string, k: string)
      returns (worlds: seq<World>, events: seq<Event>)
    requires Run(before, past) && before[|past|] == w && ValidId(k) && k !in w.minted && k != h
    requires w.cells == map[id := TailCell(Some(Lease(h, Pending)), Clearing(false))]
    requires id in w.admission.store.entries && w.admission.store.entries[id].generation == h
    ensures Run(worlds, events) && |events| > 2
    ensures Strands(worlds[|events| - 3], events[|events| - 3], id)
    ensures Overwrites(worlds[|events| - 1], events[|events| - 1], id)
    ensures !NoOrphan(worlds[|events|], id)
  {
    hide Enabled, Do, Run;
    var c := w.cells[id];
    var c1 := c.(scheduled := false, stop := NotStopping, start := Clearing(true));
    var c2 := c1.(start := Minting);
    var c3 := c2.(lease := Some(Lease(k, Pending)), start := Arming(k));
    var w1, w2, w3 := With(w, id, c1), With(w, id, c2), With(w, id, c3).(minted := w.minted + {k});
    SoloMoves(w, id, c, Of(id, DeleteAlarm));
    OneMore(before, past, Of(id, DeleteAlarm), w1);
    SoloMoves(w1, id, c1, Of(id, Cleared));
    OneMore(before + [w1], past + [Of(id, DeleteAlarm)], Of(id, Cleared), w2);
    SoloMints(w2, id, c2, k);
    worlds, events := before + [w1] + [w2] + [w3], past + [Of(id, DeleteAlarm)] + [Of(id, Cleared)] + [Of(id, Mint(k))];
    OneMore(before + [w1] + [w2], past + [Of(id, DeleteAlarm)] + [Of(id, Cleared)], Of(id, Mint(k)), w3);
    assert !Holds(w3, id, h);
  }
}
