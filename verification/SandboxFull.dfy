/** The protocol at work: for every cap, a run that fills the fleet, and what one stop then gives back. */
module SandboxFull {
  import opened Options
  import opened Receipts
  import opened Admission
  import opened SandboxWorld
  import opened SandboxProtocol
  import opened SandboxRuns
  import AdmissionFencing
  import AdmissionVerdicts
  import KeepSet

  /** A cell that runs with generation `g`, and the entry behind it. */
  function Runner(g: string): Cell {
    Cell(Some(Lease(g, LeasePhase.Running)), true, Idle, NotStopping, {}, true, NotFired)
  }

  function Held(done: set<string>): Entries {
    map id | id in done :: Entry(id, Phase.Running, Some(0), None)
  }

  /** Of the cells `all`, those in `done` run, each with its own name for a generation, and the others have
      yet to start; calls are numbered below `n`. */
  predicate Filled(w: World, all: set<string>, done: set<string>, n: nat) {
    && done <= all && w.cells.Keys == all
    && (forall id | id in all :: w.cells[id] == if id in done then Runner(id) else EmptyCell)
    && w.admission == State(Store(Held(done), [], None, false), map[], 0)
    && w.minted == done && (forall k | k in w.sent :: k < n)
  }

  // ---- one start ----

  lemma ReserveHere(entries: Entries, id: string, cap: nat)
    requires ValidId(id) && id !in entries && |entries| < cap
    ensures var st, op := State(Store(entries, [], None, false), map[], 0), DoReserve(id, id, cap, 0);
            && CanRun(st, op) && PlanOf(st, op).answer == Admitted && |PlanOf(st, op).writes| == 1
            && Exec(st, op, 1) == State(Store(entries[id := Entry(id, Reserved, None, None)], [], None, false), map[], 0)
  {
    assert Completions([], 0) == [];
    hide Completions;
  }

  lemma StartedHere(entries: Entries, id: string, cap: nat)
    requires ValidId(id) && id in entries && entries[id] == Entry(id, Reserved, None, None) && |entries| <= cap
    ensures var st, op := State(Store(entries, [], None, false), map[], 0), DoStarted(id, id, cap, 0);
            && CanRun(st, op) && PlanOf(st, op).answer == Admitted && |PlanOf(st, op).writes| == 1
            && Exec(st, op, 1)
               == State(Store(entries[id := Entry(id, Phase.Running, Some(0), None)], [], None, false), map[], 0)
  {
    KeepSet.RankBound(entries.Keys, id);
    assert |entries.Keys| == |entries|;
  }

  /** A start up to its reserve. */
  lemma ToReserve(w0: World, e0: seq<Event>, w: World, id: string, n: nat) returns (events: seq<Event>)
    requires Leads(w0, e0, w) && id in w.cells && w.cells[id] == EmptyCell && id !in w.minted && ValidId(id) && n !in w.sent
    ensures var c := EmptyCell.(lease := Some(Lease(id, Pending)), start := Asking, scheduled := true);
            Leads(w0, events, Send(SetCell(w, id, c), n, Call(ReserveCall, id, id)).(minted := w.minted + {id}))
  {
    hide Leads;
    Acts(w0, e0, w, id, BeginStart);
    var c1 := EmptyCell.(start := Minting);
    var w1, e1 := SetCell(w, id, c1), e0 + [Of(id, BeginStart)];
    Acts(w0, e1, w1, id, Mint(id));
    var c2 := c1.(lease := Some(Lease(id, Pending)), start := Arming(id));
    var w2, e2 := SetCell(w1, id, c2).(minted := w.minted + {id}), e1 + [Of(id, Mint(id))];
    Acts(w0, e2, w2, id, ArmStart);
    var c3 := c2.(start := Sending(id), scheduled := true);
    var w3, e3 := SetCell(w2, id, c3), e2 + [Of(id, ArmStart)];
    Acts(w0, e3, w3, id, SendReserve(n));
    events := e3 + [Of(id, SendReserve(n))];
    assert w3.cells[id := c3.(start := Asking)] == w.cells[id := c3.(start := Asking)];
  }

  /** From an admitted reserve to the call that confirms the start. */
  lemma ToConfirm(w0: World, e0: seq<Event>, w: World, id: string, n: nat) returns (events: seq<Event>)
    requires Leads(w0, e0, w) && id in w.cells && n !in w.sent
    requires w.cells[id] == EmptyCell.(lease := Some(Lease(id, Pending)), start := Asking, scheduled := true)
    ensures Leads(w0, events, Send(SetCell(w, id, EmptyCell.(lease := Some(Lease(id, Pending)), running := true,
                                                              scheduled := true, confirms := {n})),
                                   n, Call(StartedCall, id, id)))
  {
    hide Leads;
    var c0 := w.cells[id];
    Acts(w0, e0, w, id, EndStart);
    var c1 := c0.(start := Idle);
    var w1, e1 := SetCell(w, id, c1), e0 + [Of(id, EndStart)];
    Acts(w0, e1, w1, id, Container(true));
    var c2 := c1.(running := true);
    var w2, e2 := SetCell(w1, id, c2), e1 + [Of(id, Container(true))];
    Acts(w0, e2, w2, id, BeginConfirm(n));
    events := e2 + [Of(id, BeginConfirm(n))];
    assert {} + {n} == {n};
    assert w2.cells[id := c2.(confirms := {n})] == w.cells[id := c2.(confirms := {n})];
  }

  function Answered(w: World, n: nat, entries: Entries): World {
    w.(admission := State(Store(entries, [], None, false), map[], 0),
       flying := w.flying - {n}, replies := w.replies[n := Admitted])
  }

  lemma ReserveDelivered(w0: World, e0: seq<Event>, w: World, id: string, n: nat, entries: Entries)
    requires Leads(w0, e0, w) && n in w.flying && n in w.sent && w.sent[n] == Call(ReserveCall, id, id)
    requires ValidId(id) && id !in entries && |entries| < w.cap
    requires w.admission == State(Store(entries, [], None, false), map[], 0)
    ensures Leads(w0, e0 + [Deliver(n, DoReserve(id, id, w.cap, 0), 1)],
                  Answered(w, n, entries[id := Entry(id, Reserved, None, None)]))
  {
    hide Leads, Exec, PlanOf;
    ReserveHere(entries, id, w.cap);
    DeliversTo(w0, e0, w, Deliver(n, DoReserve(id, id, w.cap, 0), 1),
               Answered(w, n, entries[id := Entry(id, Reserved, None, None)]));
  }

  lemma StartedDelivered(w0: World, e0: seq<Event>, w: World, id: string, n: nat, entries: Entries)
    requires Leads(w0, e0, w) && n in w.flying && n in w.sent && w.sent[n] == Call(StartedCall, id, id)
    requires ValidId(id) && id in entries && entries[id] == Entry(id, Reserved, None, None) && |entries| <= w.cap
    requires w.admission == State(Store(entries, [], None, false), map[], 0)
    ensures Leads(w0, e0 + [Deliver(n, DoStarted(id, id, w.cap, 0), 1)],
                  Answered(w, n, entries[id := Entry(id, Phase.Running, Some(0), None)]))
  {
    hide Leads, Exec, PlanOf;
    StartedHere(entries, id, w.cap);
    DeliversTo(w0, e0, w, Deliver(n, DoStarted(id, id, w.cap, 0), 1),
               Answered(w, n, entries[id := Entry(id, Phase.Running, Some(0), None)]));
  }

  lemma HeldHas(done: set<string>)
    ensures Held(done).Keys == done && |Held(done)| == |done|
  {
    assert Held(done).Keys == done;
    assert |Held(done)| == |Held(done).Keys|;
  }

  const Reserving := EmptyCell.(start := Asking, scheduled := true)

  /** The reserve of cell `id` has been admitted. */
  function AfterReserve(w: World, done: set<string>, n: nat, id: string): World {
    Answered(Send(SetCell(w, id, Reserving.(lease := Some(Lease(id, Pending)))), n, Call(ReserveCall, id, id))
               .(minted := w.minted + {id}),
             n, Held(done)[id := Entry(id, Reserved, None, None)])
  }

  /** Its start has been confirmed; the lease has yet to be written back. */
  function AfterStarted(w: World, done: set<string>, n: nat, id: string): World {
    Answered(Send(SetCell(AfterReserve(w, done, n, id), id, Confirming(id, n + 1)), n + 1, Call(StartedCall, id, id)),
             n + 1, Held(done)[id := Entry(id, Phase.Running, Some(0), None)])
  }

  function Confirming(id: string, n: nat): Cell {
    EmptyCell.(lease := Some(Lease(id, Pending)), running := true, scheduled := true, confirms := {n})
  }

  lemma ToAfterReserve(w0: World, e0: seq<Event>, w: World, all: set<string>, done: set<string>, n: nat, id: string)
      returns (events: seq<Event>)
    requires Leads(w0, e0, w) && Filled(w, all, done, n) && |done| < w.cap && id in all - done && ValidId(id)
    ensures Leads(w0, events, AfterReserve(w, done, n, id))
  {
    hide Leads;
    HeldHas(done);
    events := ToReserve(w0, e0, w, id, n);
    var call := Call(ReserveCall, id, id);
    var w1 := Send(SetCell(w, id, Reserving.(lease := Some(Lease(id, Pending)))), n, call).(minted := w.minted + {id});
    ReserveDelivered(w0, events, w1, id, n, Held(done));
    events := events + [Deliver(n, DoReserve(id, id, w.cap, 0), 1)];
  }

  lemma ReservedFacts(w: World, all: set<string>, done: set<string>, n: nat, id: string)
    requires Filled(w, all, done, n) && id in all - done
    ensures var w2, reserved := AfterReserve(w, done, n, id), Held(done)[id := Entry(id, Reserved, None, None)];
            && id in w2.cells && w2.cells[id] == Reserving.(lease := Some(Lease(id, Pending)))
            && n + 1 !in w2.sent && w2.cap == w.cap
            && w2.admission == State(Store(reserved, [], None, false), map[], 0)
  {
    hide Held;
  }

  lemma ReservedEntries(done: set<string>, id: string)
    requires id !in done
    ensures var reserved := Held(done)[id := Entry(id, Reserved, None, None)];
            && |reserved| == |done| + 1
            && reserved[id := Entry(id, Phase.Running, Some(0), None)]
               == Held(done)[id := Entry(id, Phase.Running, Some(0), None)]
  {
    HeldHas(done);
  }

  lemma ToAfterStarted(w0: World, e0: seq<Event>, w: World, all: set<string>, done: set<string>, n: nat, id: string)
      returns (events: seq<Event>)
    requires Filled(w, all, done, n) && |done| < w.cap && id in all - done && ValidId(id)
    requires Leads(w0, e0, AfterReserve(w, done, n, id))
    ensures Leads(w0, events, AfterStarted(w, done, n, id))
  {
    hide Leads, AfterReserve, Filled, ValidId, Held;
    ReservedFacts(w, all, done, n, id);
    ReservedEntries(done, id);
    var reserved, call := Held(done)[id := Entry(id, Reserved, None, None)], Call(StartedCall, id, id);
    var w2 := AfterReserve(w, done, n, id);
    events := ToConfirm(w0, e0, w2, id, n + 1);
    var w3 := Send(SetCell(w2, id, Confirming(id, n + 1)), n + 1, call);
    StartedDelivered(w0, events, w3, id, n + 1, reserved);
    events := events + [Deliver(n + 1, DoStarted(id, id, w.cap, 0), 1)];
  }

  lemma WrittenBack(w: World, all: set<string>, done: set<string>, n: nat, id: string) returns (end: World)
    requires Filled(w, all, done, n) && id in all - done
    ensures var w4 := AfterStarted(w, done, n, id);
            && id in w4.cells && CellMay(w4, w4.cells[id], PutRunning(n + 1, id))
            && end == Moved(w4, id, w4.cells[id], PutRunning(n + 1, id)) == SetCell(w4, id, Runner(id))
    ensures Filled(end, all, done + {id}, n + 2) && end.cap == w.cap
  {
    var w4 := AfterStarted(w, done, n, id);
    assert {n + 1} - {n + 1} == {};
    assert CellDo(Confirming(id, n + 1), PutRunning(n + 1, id)) == Runner(id);
    assert Held(done)[id := Entry(id, Phase.Running, Some(0), None)] == Held(done + {id});
    end := SetCell(w4, id, Runner(id));
  }

  /** A whole start, from an idle cell to a running lease. */
  lemma StartOne(w0: World, e0: seq<Event>, w: World, all: set<string>, done: set<string>, n: nat, id: string)
      returns (events: seq<Event>, end: World)
    requires Leads(w0, e0, w) && Filled(w, all, done, n) && |done| < w.cap && id in all - done && ValidId(id)
    ensures Leads(w0, events, end) && Filled(end, all, done + {id}, n + 2) && end.cap == w.cap
  {
    hide *;
    events := ToAfterReserve(w0, e0, w, all, done, n, id);
    events := ToAfterStarted(w0, events, w, all, done, n, id);
    end := WrittenBack(w, all, done, n, id);
    Acts(w0, events, AfterStarted(w, done, n, id), id, PutRunning(n + 1, id));
    events := events + [Of(id, PutRunning(n + 1, id))];
  }

  lemma {:induction false} FillUp(all: set<string>, done: set<string>, cap: nat)
      returns (events: seq<Event>, end: World, n: nat)
    requires done <= all && |done| <= cap && forall id | id in all :: ValidId(id)
    ensures Leads(Init(cap, all), events, end) && Filled(end, all, done, n) && end.cap == cap
    decreases |done|
  {
    if done == {} {
      events, end, n := [], Init(cap, all), 0;
      assert Held({}) == map[];
    } else {
      var id :| id in done;
      hide Leads, Filled;
      events, end, n := FillUp(all, done - {id}, cap);
      events, end := StartOne(Init(cap, all), events, end, all, done - {id}, n, id);
      n := n + 2;
      assert done - {id} + {id} == done;
    }
  }

  /** The cap is reached: whatever cells there are, for any of them as many as the cap some run ends with
      exactly these running, each with its unstopped running entry, and no room is left. */
  lemma FleetFills(all: set<string>, ids: set<string>) returns (worlds: seq<World>, events: seq<Event>)
    requires ids <= all && forall id | id in all :: 1 <= |id| <= 128
    ensures Run(worlds, events) && worlds[0] == Init(|ids|, all)
    ensures var w := worlds[|events|];
            && RunningCells(w) == ids && w.cap == |ids| == |w.admission.store.entries|
            && forall id | id in ids ::
                 && id in w.admission.store.entries && w.admission.store.entries[id].phase == Phase.Running
                 && w.admission.store.entries[id].stoppedAt.None?
                 && w.cells[id].lease == Some(Lease(w.admission.store.entries[id].generation, LeasePhase.Running))
  {
    hide Leads;
    var end, n;
    events, end, n := FillUp(all, ids, |ids|);
    HeldHas(ids);
    worlds := LeadsFromInit(|ids|, all, events, end);
    hide Run;
    assert RunningCells(end) == ids;
  }

  // ---- one stop ----

  lemma StopHere(entries: Entries, id: string, rest: Entries)
    requires ValidId(id) && id in entries && entries[id] == Entry(id, Phase.Running, Some(0), None)
    requires rest == entries - {id}
    ensures var st, op := State(Store(entries, [], None, false), map[], 0), DoStopped(id, id, StopClock(0, 0, 0, 0));
            && CanRun(st, op) && PlanOf(st, op).answer == Released && |PlanOf(st, op).writes| == 4
            && Exec(st, op, 4) == FirstReleased(id, rest)
  {
    var st, op := State(Store(entries, [], None, false), map[], 0), DoStopped(id, id, StopClock(0, 0, 0, 0));
    FirstReceipt(Key(id, id));
    hide Record;
    var marked := entries[id := Entry(id, Phase.Running, Some(0), Some(0))];
    assert marked - {id} == rest;
    assert PlanOf(st, op).writes == [PutEntries(marked), SetAlarm(60_000),
                                     PutReceipts([Receipt(Key(id, id), 0)], Key(id, id), 0), PutEntries(rest)];
  }

  lemma FirstReceipt(key: Key)
    ensures Record([], key, 0, 0) == [Receipt(key, 0)]
  {
    assert Completions([], 0) == [];
    var rs := [Receipt(key, 0)];
    assert rs[..0] == [];
    assert ByCompletedAt(rs) == rs;
  }

  /** The admission cell after its first stop. */
  function FirstReleased(id: string, rest: Entries): State {
    State(Store(rest, [Receipt(Key(id, id), 0)], Some(60_000), false), map[Key(id, id) := 0], 0)
  }

  /** The stop of a runner up to its release. */
  lemma ToRelease(w0: World, e0: seq<Event>, w: World, id: string, n: nat) returns (events: seq<Event>)
    requires Leads(w0, e0, w) && id in w.cells && w.cells[id] == Runner(id) && n !in w.sent
    ensures Leads(w0, events, Send(SetCell(w, id, EmptyCell.(lease := Some(Lease(id, LeasePhase.Stopped)),
                                                              stop := AwaitingRelease(id, n), scheduled := true)),
                                   n, Call(StoppedCall, id, id)))
  {
    hide Leads;
    Acts(w0, e0, w, id, Container(false));
    var c1 := Runner(id).(running := false);
    var w1, e1 := SetCell(w, id, c1), e0 + [Of(id, Container(false))];
    Acts(w0, e1, w1, id, BeginStop);
    var c2 := c1.(stop := Marking(id));
    var w2, e2 := SetCell(w1, id, c2), e1 + [Of(id, BeginStop)];
    Acts(w0, e2, w2, id, MarkStopped);
    var c3 := c2.(lease := Some(Lease(id, LeasePhase.Stopped)), stop := Marked(id));
    var w3, e3 := SetCell(w2, id, c3), e2 + [Of(id, MarkStopped)];
    events := ToReleaseFrom(w0, e3, w3, id, n);
    assert SetCell(w3, id, c3).cells == SetCell(w, id, c3).cells;
    assert forall c :: SetCell(w3, id, c).cells == SetCell(w, id, c).cells;
  }

  lemma ToReleaseFrom(w0: World, e0: seq<Event>, w: World, id: string, n: nat) returns (events: seq<Event>)
    requires Leads(w0, e0, w) && id in w.cells && n !in w.sent
    requires w.cells[id] == Runner(id).(running := false, lease := Some(Lease(id, LeasePhase.Stopped)), stop := Marked(id))
    ensures Leads(w0, events, Send(SetCell(w, id, EmptyCell.(lease := Some(Lease(id, LeasePhase.Stopped)),
                                                              stop := AwaitingRelease(id, n), scheduled := true)),
                                   n, Call(StoppedCall, id, id)))
  {
    hide Leads;
    Acts(w0, e0, w, id, ArmStop);
    var c1 := w.cells[id].(stop := Releasing(id));
    var w1, e1 := SetCell(w, id, c1), e0 + [Of(id, ArmStop)];
    Acts(w0, e1, w1, id, SendStopped(n));
    events := e1 + [Of(id, SendStopped(n))];
    var c2 := c1.(stop := AwaitingRelease(id, n));
    assert w1.cells[id := c2] == w.cells[id := c2];
  }

  /** The rest of the stop once its release has answered. */
  lemma ToStoppedEnd(w0: World, e0: seq<Event>, w: World, id: string, n: nat) returns (events: seq<Event>)
    requires Leads(w0, e0, w) && id in w.cells && n in w.replies
    requires w.cells[id] == EmptyCell.(lease := Some(Lease(id, LeasePhase.Stopped)),
                                       stop := AwaitingRelease(id, n), scheduled := true)
    ensures Leads(w0, events, SetCell(w, id, EmptyCell))
  {
    hide Leads;
    Acts(w0, e0, w, id, StopAnswered);
    var c1 := w.cells[id].(stop := Deleting(id));
    var w1, e1 := SetCell(w, id, c1), e0 + [Of(id, StopAnswered)];
    Acts(w0, e1, w1, id, DeleteLease);
    var c2 := c1.(lease := None, stop := Unarming);
    var w2, e2 := SetCell(w1, id, c2), e1 + [Of(id, DeleteLease)];
    Acts(w0, e2, w2, id, DeleteAlarm);
    events := e2 + [Of(id, DeleteAlarm)];
    assert w2.cells[id := EmptyCell] == w.cells[id := EmptyCell];
  }

  lemma ReleaseDelivered(w0: World, e0: seq<Event>, w: World, id: string, n: nat, entries: Entries, rest: Entries)
    requires Leads(w0, e0, w) && n in w.flying && n in w.sent && w.sent[n] == Call(StoppedCall, id, id)
    requires ValidId(id) && id in entries && entries[id] == Entry(id, Phase.Running, Some(0), None) && rest == entries - {id}
    requires w.admission == State(Store(entries, [], None, false), map[], 0)
    ensures Leads(w0, e0 + [Deliver(n, DoStopped(id, id, StopClock(0, 0, 0, 0)), 4)],
                  w.(admission := FirstReleased(id, rest), flying := w.flying - {n}, replies := w.replies[n := Released]))
  {
    hide Leads, Exec, PlanOf;
    StopHere(entries, id, rest);
    DeliversTo(w0, e0, w, Deliver(n, DoStopped(id, id, StopClock(0, 0, 0, 0)), 4),
               w.(admission := FirstReleased(id, rest), flying := w.flying - {n}, replies := w.replies[n := Released]));
  }

  /** A stop gives back what its start took: from a full fleet a run ends with one cell as it began, its
      entry gone and its receipt on record, and every other runner and entry as it was. */
  lemma StopGivesBack(all: set<string>, ids: set<string>, id: string) returns (worlds: seq<World>, events: seq<Event>)
    requires ids <= all && id in ids && forall k | k in all :: 1 <= |k| <= 128
    ensures Run(worlds, events) && worlds[0] == Init(|ids|, all)
    ensures var w := worlds[|events|];
            && w.cells.Keys == all && id in w.cells && w.cells[id] == EmptyCell && RunningCells(w) == ids - {id}
            && w.admission == FirstReleased(id, Held(ids - {id}))
            && (forall other, at: nat | other in all - ids ::
                  PlanOf(w.admission, DoReserve(other, other, |ids|, at)).answer == Admitted)
  {
    hide Leads;
    var w0 := Init(|ids|, all);
    var w, n;
    events, w, n := FillUp(all, ids, |ids|);
    events := ToRelease(w0, events, w, id, n);
    var c := EmptyCell.(lease := Some(Lease(id, LeasePhase.Stopped)), stop := AwaitingRelease(id, n), scheduled := true);
    var w1 := Send(SetCell(w, id, c), n, Call(StoppedCall, id, id));
    assert Held(ids) - {id} == Held(ids - {id});
    ReleaseDelivered(w0, events, w1, id, n, Held(ids), Held(ids - {id}));
    events := events + [Deliver(n, DoStopped(id, id, StopClock(0, 0, 0, 0)), 4)];
    var rest := FirstReleased(id, Held(ids - {id}));
    var w2 := w1.(admission := rest, flying := w1.flying - {n}, replies := w1.replies[n := Released]);
    events := ToStoppedEnd(w0, events, w2, id, n);
    var end := SetCell(w2, id, EmptyCell);
    worlds := LeadsFromInit(|ids|, all, events, end);
    hide Run;
    assert RunningCells(end) == ids - {id};
    forall other, at: nat | other in all - ids
      ensures PlanOf(end.admission, DoReserve(other, other, |ids|, at)).answer == Admitted
    {
      RoomAgain(ids, id, other, at);
    }
  }

  lemma RoomAgain(ids: set<string>, id: string, other: string, at: nat)
    requires id in ids && other !in ids && ValidId(other)
    ensures PlanOf(FirstReleased(id, Held(ids - {id})), DoReserve(other, other, |ids|, at)).answer == Admitted
  {
    HeldHas(ids - {id});
    OthersAreFree(Key(id, id), Key(other, other), at);
    hide HasCompletion, Held;
  }

  lemma OthersAreFree(key: Key, other: Key, at: nat)
    requires key != other
    ensures !HasCompletion([Receipt(key, 0)], other, at)
  {
    var rs := [Receipt(key, 0)];
    assert Stored(rs);
    hide HasCompletion, Stored;
    AdmissionVerdicts.CompletionIsRecent(rs, other, at);
  }
}
