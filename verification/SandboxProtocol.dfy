/** What every run of controllers and admission keeps: the fleet-wide cap whatever its cells do, and for
    each cell no orphaned reservation, as long as its own starts mint over no lease. */
module SandboxProtocol {
  import Collections
  import opened Options
  import opened Receipts
  import opened Admission
  import opened SandboxWorld
  import AdmissionRuns
  import KeepSet
  import AdmissionFencing

  predicate Holds(w: World, id: string, g: string) {
    id in w.cells && w.cells[id].lease.Some? && w.cells[id].lease.value.generation == g
  }

  /** The cell no longer runs `g`: its lease is stopped, gone, or another generation's. */
  predicate Retired(w: World, key: Key) {
    Holds(w, key.id, key.generation) ==> w.cells[key.id].lease.value.phase == LeasePhase.Stopped
  }

  predicate Absent(w: World, key: Key) {
    key.id in w.admission.store.entries ==> w.admission.store.entries[key.id].generation != key.generation
  }

  // ---- what holds whatever the cells do ----

  /** Calls are numbered, name known cells, and carry minted generations. */
  predicate CallsKnown(w: World) {
    && w.flying <= w.sent.Keys && w.replies.Keys <= w.sent.Keys
    && forall n | n in w.sent :: w.sent[n].id in w.cells && w.sent[n].generation in w.minted
  }

  /** Every generation a cell names was minted. */
  predicate Named(minted: set<string>, c: Cell) {
    && (c.lease.Some? ==> c.lease.value.generation in minted)
    && (c.start.Arming? || c.start.Sending? ==> c.start.generation in minted)
    && (!c.stop.NotStopping? && !c.stop.Unarming? ==> c.stop.generation in minted)
  }

  predicate CellsKnown(w: World) {
    && (forall id | id in w.cells :: ValidId(id) && Named(w.minted, w.cells[id]))
    && (forall g | g in w.minted :: ValidId(g))
  }

  predicate StoreKnown(w: World) {
    && (forall id | id in w.admission.store.entries ::
          id in w.cells && w.admission.store.entries[id].generation in w.minted)
    && (forall key | key in w.admission.history :: key.generation in w.minted)
    && |w.admission.store.entries| <= w.cap
  }

  ghost predicate Base(w: World) {
    AdmissionRuns.Inv(w.admission) && CallsKnown(w) && CellsKnown(w) && StoreKnown(w)
  }

  lemma MintedGrow(w: World, id: string, c: Cell, a: Act)
    requires CellMay(w, c, a)
    ensures Moved(w, id, c, a).minted == w.minted + if a.Mint? then {a.generation} else {}
  {
    hide CellDo;
  }

  lemma NamesFollow(w: World, c: Cell, a: Act)
    requires CellMay(w, c, a) && Named(w.minted, c) && CallsKnown(w)
    ensures Named(w.minted + if a.Mint? then {a.generation} else {}, CellDo(c, a))
  {
  }

  lemma ControllerKeepsCalls(w: World, id: string, c: Cell, a: Act)
    requires CellMay(w, c, a) && Named(w.minted, c) && CallsKnown(w) && id in w.cells
    ensures CallsKnown(Moved(w, id, c, a))
  {
    hide CellDo;
  }

  /** What a controller's step leaves alone. */
  lemma ControllerDoes(w: World, e: Event)
    requires Enabled(w, e) && e.Of?
    ensures e.id in w.cells && CellMay(w, w.cells[e.id], e.act)
    ensures Do(w, e) == Moved(w, e.id, w.cells[e.id], e.act)
    ensures Do(w, e).cells == w.cells[e.id := CellDo(w.cells[e.id], e.act)]
    ensures Do(w, e).admission == w.admission && Do(w, e).replies == w.replies && Do(w, e).cap == w.cap
  {
    hide CellDo, CellMay;
  }

  lemma ControllerKeepsCells(w: World, e: Event)
    requires CallsKnown(w) && CellsKnown(w) && Enabled(w, e) && e.Of?
    ensures CellsKnown(Do(w, e)) && w.minted <= Do(w, e).minted
  {
    ControllerDoes(w, e);
    hide Enabled, Do, CallsKnown, CellMay, CellDo, Moved, Named;
    var c := w.cells[e.id];
    MintedGrow(w, e.id, c, e.act);
    NamesFollow(w, c, e.act);
    if e.act.Mint? { FreshIsValid(w, c, e.act); }
    NamesGrow(w, Do(w, e).minted);
  }

  lemma ControllerKeepsBase(w: World, e: Event)
    requires Base(w) && Enabled(w, e) && e.Of?
    ensures Base(Do(w, e))
  {
    ControllerDoes(w, e);
    ControllerKeepsCells(w, e);
    assert Named(w.minted, w.cells[e.id]);
    hide AdmissionRuns.Inv, Enabled, Do, CallsKnown, CellsKnown, CellMay, CellDo, Moved, Named;
    ControllerKeepsCalls(w, e.id, w.cells[e.id], e.act);
  }

  lemma FreshIsValid(w: World, c: Cell, a: Act)
    requires CellMay(w, c, a) && a.Mint?
    ensures a.generation !in w.minted && ValidId(a.generation)
  {
  }

  lemma NamesGrow(w: World, minted: set<string>)
    requires CellsKnown(w) && w.minted <= minted
    ensures forall id | id in w.cells :: Named(minted, w.cells[id])
  {
  }

  predicate IsAdmissionEvent(e: Event) {
    e.Deliver? || e.AdmissionAlarm?
  }

  /** What an admission event changes of the world. */
  lemma AdmissionDoes(w: World, e: Event)
    requires Enabled(w, e) && IsAdmissionEvent(e)
    ensures CanRun(w.admission, e.op) && e.puts <= |PlanOf(w.admission, e.op).writes|
    ensures var after := Do(w, e);
            && after.admission == Exec(w.admission, e.op, e.puts)
            && after.cells == w.cells && after.sent == w.sent && after.minted == w.minted && after.cap == w.cap
            && after.flying <= w.flying
            && (forall n | n in after.replies && !(e.Deliver? && n == e.call) ::
                  n in w.replies && after.replies[n] == w.replies[n])
            && (e.Deliver? && e.call in after.replies
                && (e.call !in w.replies || after.replies[e.call] != w.replies[e.call]) ==>
                  && e.puts == |PlanOf(w.admission, e.op).writes|
                  && after.replies[e.call] == PlanOf(w.admission, e.op).answer)
            && (after.replies.Keys <= w.replies.Keys + (if e.Deliver? then {e.call} else {}))
            && (e.Deliver? ==> e.call in w.flying && e.call in w.sent && Runs(e.op, w.sent[e.call], w.cap)
                               && InRetention(w, e.op))
            && (e.AdmissionAlarm? ==> e.op.DoFire? || e.op.DoAlarm?)
  {
    hide PlanOf, Exec;
  }

  lemma EntryIsKnown(w: World, e: Event, id: string)
    requires Base(w) && Enabled(w, e) && IsAdmissionEvent(e) && id in Do(w, e).admission.store.entries
    ensures id in w.cells && Do(w, e).admission.store.entries[id].generation in w.minted
  {
    AdmissionDoes(w, e);
    hide Do, Enabled, Exec, PlanOf, CanRun, HasCompletion, InRetention;
    if id in w.admission.store.entries {
      AdmissionFencing.EntryFate(w.admission, e.op, e.puts, id);
    } else {
      AdmissionFencing.EntryOrigin(w.admission, e.op, e.puts, id);
    }
  }

  lemma ReceiptIsKnown(w: World, e: Event, key: Key)
    requires Base(w) && Enabled(w, e) && IsAdmissionEvent(e) && key in Do(w, e).admission.history
    ensures key.generation in w.minted
  {
    AdmissionDoes(w, e);
    hide Do, Enabled, Exec, PlanOf, CanRun, HasCompletion, InRetention;
    if key !in w.admission.history {
      AdmissionFencing.ReceiptOrigin(w.admission, e.op, e.puts, key);
    }
  }

  lemma CapIsKept(w: World, e: Event)
    requires Base(w) && Enabled(w, e) && IsAdmissionEvent(e)
    ensures AdmissionRuns.Inv(Do(w, e).admission) && |Do(w, e).admission.store.entries| <= w.cap
  {
    AdmissionDoes(w, e);
    hide Do, Enabled, Exec, PlanOf, CanRun, InRetention;
    AdmissionRuns.StepKeepsInv(w.admission, e.op, e.puts);
    AdmissionFencing.OneStepCount(w.admission, e.op, e.puts);
  }

  lemma AdmissionKeepsBase(w: World, e: Event)
    requires Base(w) && Enabled(w, e) && IsAdmissionEvent(e)
    ensures Base(Do(w, e))
  {
    AdmissionDoes(w, e);
    CapIsKept(w, e);
    hide Do, Enabled, Exec, PlanOf, CanRun, AdmissionRuns.Inv, Named;
    forall id | id in Do(w, e).admission.store.entries
      ensures id in w.cells && Do(w, e).admission.store.entries[id].generation in w.minted
    {
      EntryIsKnown(w, e, id);
    }
    forall key | key in Do(w, e).admission.history ensures key.generation in w.minted {
      ReceiptIsKnown(w, e, key);
    }
  }

  lemma InitBase(w: World)
    requires exists ids :: w == Init(w.cap, ids)
    requires forall id | id in w.cells :: ValidId(id)
    ensures Base(w)
  {
  }

  lemma {:induction false} RunKeepsBase(worlds: seq<World>, events: seq<Event>, i: nat)
    requires Run(worlds, events) && i < |worlds|
    ensures Base(worlds[i]) && worlds[i].cap == worlds[0].cap && worlds[i].cells.Keys == worlds[0].cells.Keys
  {
    hide Base, Enabled, Do;
    if i == 0 {
      InitBase(worlds[0]);
    } else {
      var w, e := worlds[i - 1], events[i - 1];
      RunKeepsBase(worlds, events, i - 1);
      if e.Of? {
        ControllerDoes(w, e);
        ControllerKeepsBase(w, e);
      } else {
        AdmissionDoes(w, e);
        AdmissionKeepsBase(w, e);
      }
    }
  }

  // ---- what one cell keeps ----

  /** A stop is only ever sent, and a receipt only ever recorded, for a retired generation. */
  predicate StopsRetired(w: World, id: string) {
    && (forall n | n in w.sent && w.sent[n].id == id && w.sent[n].kind == StoppedCall :: Retired(w, KeyOf(w.sent[n])))
    && (forall key | key in w.admission.history && key.id == id :: Retired(w, key))
  }

  /** A reserve in flight belongs to the cell's lease, or is already fenced. */
  predicate ReservesFenced(w: World, id: string) {
    forall n | n in w.flying && n in w.sent && w.sent[n].id == id && w.sent[n].kind == ReserveCall ::
      Holds(w, id, w.sent[n].generation) || KeyOf(w.sent[n]) in w.admission.history
  }

  /** A stop that answered has its receipt on record and its entry gone; a confirmed start still has
      its entry. */
  predicate ReplyTrue(w: World, n: nat)
    requires n in w.replies && n in w.sent
  {
    var call := w.sent[n];
    && (call.kind == StoppedCall ==> KeyOf(call) in w.admission.history && Absent(w, KeyOf(call)))
    && (call.kind == StartedCall && w.replies[n] == Admitted && !Retired(w, KeyOf(call)) ==>
          Live(w.admission.store.entries, call.id, call.generation))
  }

  predicate RepliesTrue(w: World, id: string) {
    forall n | n in w.replies && n in w.sent && w.sent[n].id == id :: ReplyTrue(w, n)
  }

  /** The cell's admission entry, if there is one, carries the generation of its lease; a marked one, a
      stopped lease. */
  predicate NoOrphan(w: World, id: string) {
    id in w.admission.store.entries ==>
      && Holds(w, id, w.admission.store.entries[id].generation)
      && (w.admission.store.entries[id].stoppedAt.Some? ==> w.cells[id].lease.value.phase == LeasePhase.Stopped)
  }

  /** What ties the cell's calls, replies and entry to its lease. */
  predicate Tied(w: World, id: string) {
    StopsRetired(w, id) && ReservesFenced(w, id) && RepliesTrue(w, id) && NoOrphan(w, id)
  }

  predicate StartFits(w: World, id: string, c: Cell) {
    && (c.start.Clearing? ==> !c.running)
    && (c.start.Arming? || c.start.Sending? ==>
          Holds(w, id, c.start.generation) || Key(id, c.start.generation) in w.admission.history)
  }

  predicate LeaseIs(c: Cell, g: string, phase: LeasePhase) {
    c.lease == Some(Lease(g, phase))
  }

  predicate StopFits(w: World, id: string, c: Cell) {
    match c.stop
    case NotStopping => true
    case Marking(g) => c.lease.Some? && c.lease.value.generation == g
    case Marked(g) => LeaseIs(c, g, LeasePhase.Stopped)
    case Releasing(g) => LeaseIs(c, g, LeasePhase.Stopped)
    case AwaitingRelease(g, n) => LeaseIs(c, g, LeasePhase.Stopped) && n in w.sent && w.sent[n] == Call(StoppedCall, id, g)
    case Deleting(g) => LeaseIs(c, g, LeasePhase.Stopped) && Key(id, g) in w.admission.history && Absent(w, Key(id, g))
    case Unarming => true
  }

  predicate ConfirmsFit(w: World, id: string, c: Cell) {
    c.confirms != {} ==>
      && c.stop == NotStopping && c.lease.Some? && c.lease.value.phase != LeasePhase.Stopped
      && forall n | n in c.confirms :: n in w.sent && w.sent[n] == Call(StartedCall, id, c.lease.value.generation)
  }

  /** A running lease has its entry, unstopped. */
  predicate RunningAdmitted(w: World, id: string, c: Cell) {
    c.lease.Some? && c.lease.value.phase == LeasePhase.Running ==>
      Live(w.admission.store.entries, id, c.lease.value.generation)
  }

  predicate CellFits(w: World, id: string, c: Cell) {
    StartFits(w, id, c) && StopFits(w, id, c) && ConfirmsFit(w, id, c) && RunningAdmitted(w, id, c)
  }

  predicate Fits(w: World, id: string) {
    id in w.cells && Tied(w, id) && CellFits(w, id, w.cells[id])
  }

  ghost predicate Inv(w: World, id: string) {
    Base(w) && Fits(w, id)
  }

  /** A start of cell `id` mints over the cell's lease. */
  predicate Overwrites(w: World, e: Event, id: string) {
    e.Of? && e.id == id && e.act.Mint? && id in w.cells && w.cells[id].lease.Some?
  }

  // ---- events of other cells ----

  /** Nothing of cell `id`, of its calls and of the records changes. */
  predicate Untouched(w: World, after: World, id: string) {
    && id in w.cells && id in after.cells && after.cells[id] == w.cells[id]
    && after.admission == w.admission && after.replies == w.replies
    && (forall n | n in w.sent :: n in after.sent && after.sent[n] == w.sent[n])
    && (forall n | n in after.sent && n !in w.sent :: after.sent[n].id != id)
    && (forall n | n in after.flying && n in w.sent :: n in w.flying)
  }

  lemma OthersTouchNothing(w: World, e: Event, id: string)
    requires Enabled(w, e) && e.Of? && e.id != id && id in w.cells && CallsKnown(w)
    ensures Untouched(w, Do(w, e), id)
  {
    hide CellDo;
  }

  lemma UntouchedStays(w: World, after: World, id: string)
    requires Untouched(w, after, id) && CallsKnown(w) && Fits(w, id)
    ensures Fits(after, id)
  {
    assert forall g :: Holds(after, id, g) == Holds(w, id, g);
    assert forall g :: Retired(after, Key(id, g)) == Retired(w, Key(id, g));
    hide Holds, Retired;
    assert StopsRetired(after, id);
    assert ReservesFenced(after, id);
    forall n | n in after.replies && n in after.sent && after.sent[n].id == id ensures ReplyTrue(after, n) {
      assert ReplyTrue(w, n);
    }
  }

  // ---- events of its own that leave the lease as it is ----

  lemma TiedByLease(w: World, after: World, id: string)
    requires Tied(w, id) && id in w.cells && id in after.cells && after == w.(cells := after.cells)
    requires after.cells[id].lease == w.cells[id].lease
    ensures Tied(after, id)
  {
    assert forall g :: Holds(after, id, g) == Holds(w, id, g);
    assert forall g :: Retired(after, Key(id, g)) == Retired(w, Key(id, g));
    assert NoOrphan(after, id);
    hide Holds, Retired, NoOrphan;
    assert StopsRetired(after, id);
    assert ReservesFenced(after, id);
    forall n | n in after.replies && n in after.sent && after.sent[n].id == id ensures ReplyTrue(after, n) {
      assert ReplyTrue(w, n);
    }
  }

  /** A call may be sent for a generation of the cell: a stop only for a retired one, a reserve only
      while the lease is the generation's or the fence is up. */
  predicate MaySend(w: World, call: Call) {
    && call.id in w.cells
    && (call.kind == StoppedCall ==> Retired(w, KeyOf(call)))
    && (call.kind == ReserveCall ==> Holds(w, call.id, call.generation) || KeyOf(call) in w.admission.history)
  }

  lemma SendKeepsTied(w: World, n: nat, call: Call)
    requires Tied(w, call.id) && CallsKnown(w) && n !in w.sent && MaySend(w, call)
    ensures Tied(Send(w, n, call), call.id)
  {
    var after, id := Send(w, n, call), call.id;
    assert forall g :: Holds(after, id, g) == Holds(w, id, g);
    assert forall g :: Retired(after, Key(id, g)) == Retired(w, Key(id, g));
    assert NoOrphan(after, id);
    hide Holds, Retired, NoOrphan;
    assert StopsRetired(after, id);
    assert ReservesFenced(after, id);
    forall m | m in after.replies && m in after.sent && after.sent[m].id == id ensures ReplyTrue(after, m) {
      assert ReplyTrue(w, m);
    }
  }

  /** The steps that leave the lease alone and send nothing. */
  predicate Quiet(a: Act) {
    && !a.Mint? && !a.MarkStopped? && !a.DeleteLease? && !a.PutRunning?
    && !a.SendReserve? && !a.SendStopped? && !a.StopAnswered? && !a.BeginConfirm?
  }

  lemma QuietCell(w: World, id: string, c: Cell, a: Act)
    requires CellMay(w, c, a) && Quiet(a) && CellFits(w, id, c)
    ensures CellFits(w, id, CellDo(c, a)) && CellDo(c, a).lease == c.lease
  {
  }

  /** A cell is judged by calls and records, and by its own lease. */
  lemma FitsElsewhere(w: World, after: World, id: string, c: Cell)
    requires CellFits(w, id, c) && after.admission == w.admission
    requires id in w.cells && id in after.cells && after.cells[id].lease == w.cells[id].lease
    requires forall n | n in w.sent :: n in after.sent && after.sent[n] == w.sent[n]
    ensures CellFits(after, id, c)
  {
  }

  lemma QuietKeeps(w: World, e: Event)
    requires e.Of? && Inv(w, e.id) && Enabled(w, e) && Quiet(e.act)
    ensures Fits(Do(w, e), e.id)
  {
    var id, c, after := e.id, w.cells[e.id], Do(w, e);
    ControllerDoes(w, e);
    assert after == w.(cells := after.cells) by { hide CellDo, CellMay; }
    hide Do, Enabled, Base, Moved, CellDo, CellMay, Tied, CellFits;
    QuietCell(w, id, c, e.act);
    TiedByLease(w, after, id);
    FitsElsewhere(w, after, id, after.cells[id]);
  }

  /** The call `a` sends from cell `c`, under number `n`. */
  predicate SendsCall(id: string, c: Cell, a: Act, n: nat, call: Call) {
    match a
    case SendReserve(k) => k == n && c.start.Sending? && call == Call(ReserveCall, id, c.start.generation)
    case SendStopped(k) => k == n && c.stop.Releasing? && call == Call(StoppedCall, id, c.stop.generation)
    case BeginConfirm(k) => k == n && c.lease.Some? && call == Call(StartedCall, id, c.lease.value.generation)
    case _ => false
  }

  lemma SendCell(w: World, id: string, c: Cell, a: Act, n: nat, call: Call)
    requires CellMay(w, c, a) && CellFits(w, id, c) && id in w.cells && w.cells[id] == c
    requires SendsCall(id, c, a, n, call)
    ensures n !in w.sent && CellDo(c, a).lease == c.lease && MaySend(w, call)
    ensures CellFits(Send(w, n, call), id, CellDo(c, a))
  {
  }

  lemma SendKeeps(w: World, e: Event, n: nat, call: Call)
    requires e.Of? && Inv(w, e.id) && Enabled(w, e)
    requires SendsCall(e.id, w.cells[e.id], e.act, n, call)
    ensures Fits(Do(w, e), e.id)
  {
    var id, c, after := e.id, w.cells[e.id], Do(w, e);
    ControllerDoes(w, e);
    var mid := Send(w, n, call);
    assert after == mid.(cells := after.cells) by { hide CellDo, CellMay; }
    assert CallsKnown(w);
    hide Do, Enabled, Base, Moved, CellDo, CellMay, Tied, CellFits, MaySend, CallsKnown;
    SendCell(w, id, c, e.act, n, call);
    SendKeepsTied(w, n, call);
    TiedByLease(mid, after, id);
    FitsElsewhere(mid, after, id, after.cells[id]);
  }

  lemma SendsKeep(w: World, e: Event)
    requires e.Of? && Inv(w, e.id) && Enabled(w, e)
    requires e.act.SendReserve? || e.act.SendStopped? || e.act.BeginConfirm?
    ensures Fits(Do(w, e), e.id)
  {
    var call := TheCall(w, e);
    hide *;
    SendKeeps(w, e, e.act.call, call);
  }

  lemma TheCall(w: World, e: Event) returns (call: Call)
    requires e.Of? && Enabled(w, e) && (e.act.SendReserve? || e.act.SendStopped? || e.act.BeginConfirm?)
    ensures e.id in w.cells && SendsCall(e.id, w.cells[e.id], e.act, e.act.call, call)
  {
    var c := w.cells[e.id];
    call := if e.act.SendReserve? then Call(ReserveCall, e.id, c.start.generation)
            else if e.act.SendStopped? then Call(StoppedCall, e.id, c.stop.generation)
            else Call(StartedCall, e.id, c.lease.value.generation);
  }

  /** The answer to a stop moves the cell on to deleting its lease. */
  lemma AnswerCell(w: World, id: string, c: Cell)
    requires CellMay(w, c, StopAnswered) && CellFits(w, id, c) && RepliesTrue(w, id)
    ensures CellFits(w, id, CellDo(c, StopAnswered)) && CellDo(c, StopAnswered).lease == c.lease
  {
    assert ReplyTrue(w, c.stop.call);
  }

  lemma AnswerKeeps(w: World, e: Event)
    requires e.Of? && Inv(w, e.id) && Enabled(w, e) && e.act == StopAnswered
    ensures Fits(Do(w, e), e.id)
  {
    var id, c, after := e.id, w.cells[e.id], Do(w, e);
    ControllerDoes(w, e);
    assert after == w.(cells := after.cells) by { hide CellDo, CellMay; }
    assert RepliesTrue(w, id);
    hide Do, Enabled, Base, Moved, CellDo, CellMay, Tied, CellFits, RepliesTrue;
    AnswerCell(w, id, c);
    TiedByLease(w, after, id);
    FitsElsewhere(w, after, id, after.cells[id]);
  }

  // ---- events of its own that change the lease ----

  /** Calls, replies and receipts stay tied to the lease when no retired generation comes back and no
      lease goes without its receipt. */
  lemma TiedStays(w: World, after: World, id: string)
    requires Tied(w, id) && CallsKnown(w) && StoreKnown(w) && after == w.(cells := after.cells, minted := after.minted)
    requires forall g | g in w.minted && Retired(w, Key(id, g)) :: Retired(after, Key(id, g))
    requires forall g | g in w.minted && Holds(w, id, g) :: Holds(after, id, g) || Key(id, g) in w.admission.history
    requires NoOrphan(after, id)
    ensures Tied(after, id)
  {
    hide Holds, Retired, NoOrphan;
    assert StopsRetired(after, id);
    assert ReservesFenced(after, id);
    forall n | n in after.replies && n in after.sent && after.sent[n].id == id ensures ReplyTrue(after, n) {
      assert ReplyTrue(w, n);
    }
  }

  lemma MintKeeps(w: World, e: Event)
    requires e.Of? && Inv(w, e.id) && Enabled(w, e) && e.act.Mint? && !Overwrites(w, e, e.id)
    ensures Fits(Do(w, e), e.id)
  {
    var id, after := e.id, Do(w, e);
    ControllerDoes(w, e);
    assert after == w.(cells := after.cells, minted := after.minted);
    assert after.cells[id].lease == Some(Lease(e.act.generation, Pending)) && e.act.generation !in w.minted;
    assert CellFits(after, id, after.cells[id]);
    hide Do, Enabled, Moved, CellDo, CellMay, AdmissionRuns.Inv, CellFits, CellsKnown, CallsKnown;
    assert NoOrphan(after, id);
    TiedStays(w, after, id);
  }

  lemma MarkKeeps(w: World, e: Event)
    requires e.Of? && Inv(w, e.id) && Enabled(w, e) && e.act.MarkStopped?
    ensures Fits(Do(w, e), e.id)
  {
    var id, after := e.id, Do(w, e);
    ControllerDoes(w, e);
    assert after == w.(cells := after.cells);
    assert after.cells[id].lease == Some(w.cells[id].lease.value.(phase := LeasePhase.Stopped));
    assert CellFits(after, id, after.cells[id]);
    hide Do, Enabled, Moved, CellDo, CellMay, AdmissionRuns.Inv, CellFits, CellsKnown, CallsKnown;
    assert NoOrphan(after, id);
    TiedStays(w, after, id);
  }

  lemma DeleteKeeps(w: World, e: Event)
    requires e.Of? && Inv(w, e.id) && Enabled(w, e) && e.act.DeleteLease?
    ensures Fits(Do(w, e), e.id)
  {
    var id, after := e.id, Do(w, e);
    ControllerDoes(w, e);
    assert after == w.(cells := after.cells);
    assert after.cells[id].lease == None;
    assert CellFits(after, id, after.cells[id]);
    var gone := w.cells[id].stop.generation;
    assert LeaseIs(w.cells[id], gone, LeasePhase.Stopped) && Key(id, gone) in w.admission.history;
    assert Absent(w, Key(id, gone));
    hide Do, Enabled, Moved, CellDo, CellMay, AdmissionRuns.Inv, CellFits, CellsKnown, CallsKnown;
    assert NoOrphan(after, id);
    TiedStays(w, after, id);
  }

  /** The answer that lets a lease be written back came for it while its entry is live. */
  lemma RunningIsLive(w: World, id: string, c: Cell, n: nat, g: string)
    requires RepliesTrue(w, id) && ConfirmsFit(w, id, c) && CellMay(w, c, PutRunning(n, g))
    requires id in w.cells && w.cells[id] == c
    ensures Holds(w, id, g) && !Retired(w, Key(id, g)) && Live(w.admission.store.entries, id, g)
  {
    assert w.sent[n] == Call(StartedCall, id, c.lease.value.generation);
    assert ReplyTrue(w, n);
  }

  lemma RunningKeeps(w: World, e: Event)
    requires e.Of? && Inv(w, e.id) && Enabled(w, e) && e.act.PutRunning?
    ensures Fits(Do(w, e), e.id)
  {
    var id, after := e.id, Do(w, e);
    ControllerDoes(w, e);
    RunningIsLive(w, id, w.cells[id], e.act.call, e.act.generation);
    assert after == w.(cells := after.cells);
    assert after.cells[id].lease == Some(w.cells[id].lease.value.(phase := LeasePhase.Running));
    assert CellFits(after, id, after.cells[id]);
    hide Do, Enabled, Moved, CellDo, CellMay, AdmissionRuns.Inv, CellFits, CellsKnown, CallsKnown;
    assert NoOrphan(after, id);
    TiedStays(w, after, id);
  }

  // ---- admission operations ----

  /** A stop runs for a pair only when its cell sent it, so the pair is retired. */
  lemma StopIsOfRetired(w: World, e: Event, id: string)
    requires Inv(w, id) && Enabled(w, e) && e.Deliver? && e.op.DoStopped? && e.op.id == id
    ensures Retired(w, Key(id, e.op.generation))
  {
    hide AdmissionRuns.Inv, CellFits, PlanOf, Exec, CanRun;
  }

  /** A reserve of a fenced pair is refused, so it admits only the cell's own lease. */
  lemma ReserveIsOfLease(w: World, e: Event, id: string)
    requires Inv(w, id) && Enabled(w, e) && e.Deliver? && e.op.DoReserve? && e.op.id == id
    requires !HasCompletion(w.admission.store.receipts, Key(id, e.op.generation), e.op.at)
    ensures Key(id, e.op.generation) !in w.admission.history
    ensures Holds(w, id, e.op.generation)
  {
    hide HasCompletion, NoOrphan, RepliesTrue, CellFits, PlanOf, Exec;
    var key := Key(id, e.op.generation);
    if key in w.admission.history {
      RetainedIsFound(w.admission.store.receipts, w.admission.history, w.admission.now, key, e.op.at);
    }
  }

  lemma LiveStays(w: World, e: Event, id: string, g: string)
    requires Inv(w, id) && Enabled(w, e) && IsAdmissionEvent(e)
    requires Live(w.admission.store.entries, id, g) && !Retired(w, Key(id, g))
    ensures Live(Do(w, e).admission.store.entries, id, g)
  {
    AdmissionDoes(w, e);
    hide Exec, PlanOf, Do, Enabled, CanRun, CellFits, Tied, CellsKnown, CallsKnown, StoreKnown, InRetention, Runs;
    AdmissionFencing.EntryFate(w.admission, e.op, e.puts, id);
    if e.op.DoStopped? && e.op.id == id {
      StopIsOfRetired(w, e, id);
      AdmissionFencing.OtherGenerationIsUndisturbed(w.admission, e.op, e.puts);
    }
  }

  lemma AbsentStays(w: World, e: Event, key: Key)
    requires Inv(w, key.id) && Enabled(w, e) && IsAdmissionEvent(e)
    requires key in w.admission.history && Absent(w, key)
    ensures Absent(Do(w, e), key)
  {
    AdmissionDoes(w, e);
    hide Exec, PlanOf, Do, Enabled, CanRun, HasCompletion, CellFits, Tied;
    hide CellsKnown, CallsKnown, StoreKnown, InRetention, Runs;
    if key.id in w.admission.store.entries {
      AdmissionFencing.EntryFate(w.admission, e.op, e.puts, key.id);
    } else if key.id in Do(w, e).admission.store.entries {
      AdmissionFencing.EntryOrigin(w.admission, e.op, e.puts, key.id);
      ReserveIsOfLease(w, e, key.id);
    }
  }

  lemma AdmissionKeepsOrphanFree(w: World, e: Event, id: string)
    requires Inv(w, id) && Enabled(w, e) && IsAdmissionEvent(e)
    ensures NoOrphan(Do(w, e), id)
  {
    AdmissionDoes(w, e);
    assert NoOrphan(w, id);
    hide Exec, PlanOf, Do, Enabled, CanRun, HasCompletion, CellFits, Tied;
    hide CellsKnown, CallsKnown, StoreKnown, InRetention, Runs;
    var entries := w.admission.store.entries;
    if id in entries {
      AdmissionFencing.EntryFate(w.admission, e.op, e.puts, id);
      if entries[id].stoppedAt.None? && w.cells[id].lease.value.phase != LeasePhase.Stopped {
        LiveStays(w, e, id, entries[id].generation);
      }
    } else if id in Do(w, e).admission.store.entries {
      AdmissionFencing.EntryOrigin(w.admission, e.op, e.puts, id);
      ReserveIsOfLease(w, e, id);
    }
  }

  lemma ReceiptIsRetired(w: World, e: Event, key: Key)
    requires Inv(w, key.id) && Enabled(w, e) && IsAdmissionEvent(e)
    requires key in Do(w, e).admission.history
    ensures Retired(w, key)
  {
    AdmissionDoes(w, e);
    assert NoOrphan(w, key.id);
    assert StopsRetired(w, key.id);
    hide Exec, PlanOf, Do, Enabled, CanRun, CellFits, Tied, CellsKnown, CallsKnown, StoreKnown, InRetention, Runs;
    if key !in w.admission.history {
      AdmissionFencing.ReceiptOrigin(w.admission, e.op, e.puts, key);
      if e.op.DoStopped? { StopIsOfRetired(w, e, key.id); }
    }
  }

  lemma HistoryStays(w: World, e: Event)
    requires Base(w) && Enabled(w, e) && IsAdmissionEvent(e)
    ensures w.admission.history.Keys <= Do(w, e).admission.history.Keys
  {
    AdmissionDoes(w, e);
    hide Exec, PlanOf, Do, Enabled, CanRun;
    AdmissionFencing.HistoryGrows(w.admission, e.op, e.puts);
  }

  lemma AdmissionKeepsCalls(w: World, e: Event, id: string)
    requires Inv(w, id) && Enabled(w, e) && IsAdmissionEvent(e)
    ensures StopsRetired(Do(w, e), id) && ReservesFenced(Do(w, e), id)
  {
    var after := Do(w, e);
    AdmissionDoes(w, e);
    HistoryStays(w, e);
    assert forall g :: Holds(after, id, g) == Holds(w, id, g);
    assert forall key :: Retired(after, key) == Retired(w, key);
    assert StopsRetired(w, id) && ReservesFenced(w, id);
    hide Exec, PlanOf, Do, Enabled, CanRun, Inv, InRetention, Runs;
    forall key | key in after.admission.history && key.id == id ensures Retired(w, key) {
      ReceiptIsRetired(w, e, key);
    }
    hide Retired, Holds;
  }

  lemma OldReplyIsTrue(w: World, e: Event, n: nat)
    requires n in w.sent && Inv(w, w.sent[n].id) && Enabled(w, e) && IsAdmissionEvent(e)
    requires n in w.replies && n in Do(w, e).replies && w.replies[n] == Do(w, e).replies[n] && Do(w, e).sent == w.sent
    ensures ReplyTrue(Do(w, e), n)
  {
    AdmissionDoes(w, e);
    HistoryStays(w, e);
    var call := w.sent[n];
    assert ReplyTrue(w, n) by { assert RepliesTrue(w, call.id); }
    hide Exec, PlanOf, Do, Enabled, CanRun, Inv, InRetention, Runs, Absent, Live;
    if call.kind == StoppedCall { AbsentStays(w, e, KeyOf(call)); }
    else if call.kind == StartedCall && w.replies[n] == Admitted && !Retired(w, KeyOf(call)) {
      LiveStays(w, e, call.id, call.generation);
    }
  }

  lemma AdmittedIsLive(st: State, op: Op)
    requires op.DoStarted? && CanRun(st, op) && PlanOf(st, op).answer == Admitted
    ensures Live(st.store.entries, op.id, op.generation)
  {
  }

  lemma NewReplyIsTrue(w: World, e: Event)
    requires e.Deliver? && e.call in w.sent && Inv(w, w.sent[e.call].id) && Enabled(w, e)
    requires e.puts == |PlanOf(w.admission, e.op).writes| && Do(w, e).sent == w.sent && e.call in Do(w, e).replies
    requires Do(w, e).replies[e.call] == PlanOf(w.admission, e.op).answer
    ensures ReplyTrue(Do(w, e), e.call)
  {
    AdmissionDoes(w, e);
    var call := w.sent[e.call];
    assert ValidId(call.id) && ValidId(call.generation);
    hide Do, Exec, PlanOf, Enabled, CanRun, CellFits, Tied, CellsKnown, CallsKnown, StoreKnown, InRetention;
    if call.kind == StoppedCall {
      AdmissionFencing.StopReturnsFenced(w.admission, e.op);
    } else if call.kind == StartedCall && PlanOf(w.admission, e.op).answer == Admitted && !Retired(w, KeyOf(call)) {
      AdmittedIsLive(w.admission, e.op);
      LiveStays(w, e, call.id, call.generation);
    }
  }

  lemma AdmissionKeepsReplies(w: World, e: Event, id: string)
    requires Inv(w, id) && Enabled(w, e) && IsAdmissionEvent(e)
    ensures RepliesTrue(Do(w, e), id)
  {
    AdmissionDoes(w, e);
    hide Exec, PlanOf, Do, Enabled, CanRun, Inv, InRetention, Runs, ReplyTrue;
    var after := Do(w, e);
    forall n | n in after.replies && n in after.sent && after.sent[n].id == id ensures ReplyTrue(after, n) {
      if n in w.replies && w.replies[n] == after.replies[n] { OldReplyIsTrue(w, e, n); } else { NewReplyIsTrue(w, e); }
    }
  }

  lemma AdmissionKeepsCell(w: World, e: Event, id: string)
    requires Inv(w, id) && Enabled(w, e) && IsAdmissionEvent(e)
    ensures CellFits(Do(w, e), id, w.cells[id])
  {
    AdmissionDoes(w, e);
    HistoryStays(w, e);
    var c := w.cells[id];
    assert CellFits(w, id, c);
    hide Exec, PlanOf, Do, Enabled, CanRun, Inv, InRetention, Runs, Absent, Live;
    if c.stop.Deleting? { AbsentStays(w, e, Key(id, c.stop.generation)); }
    if c.lease.Some? && c.lease.value.phase == LeasePhase.Running { LiveStays(w, e, id, c.lease.value.generation); }
  }

  // ---- every event ----

  lemma OwnKeeps(w: World, e: Event)
    requires e.Of? && Inv(w, e.id) && Enabled(w, e) && !Overwrites(w, e, e.id)
    ensures Fits(Do(w, e), e.id)
  {
    hide Inv, Enabled, Do, Fits, CellMay, CellDo, Moved, Overwrites;
    match e.act
    case Mint(_) => MintKeeps(w, e);
    case MarkStopped => MarkKeeps(w, e);
    case DeleteLease => DeleteKeeps(w, e);
    case PutRunning(_, _) => RunningKeeps(w, e);
    case StopAnswered => AnswerKeeps(w, e);
    case SendReserve(_) => SendsKeep(w, e);
    case SendStopped(_) => SendsKeep(w, e);
    case BeginConfirm(_) => SendsKeep(w, e);
    case _ => QuietKeeps(w, e);
  }

  /** Every event of every party, every put, every late call and every crash keeps what is said of a
      cell, except a mint over that cell's own lease. */
  lemma EventKeepsInv(w: World, e: Event, id: string)
    requires Inv(w, id) && Enabled(w, e) && !Overwrites(w, e, id)
    ensures Inv(Do(w, e), id)
  {
    assert CallsKnown(w) && id in w.cells;
    hide Base, Enabled, Do, Fits, Overwrites, CallsKnown;
    if e.Of? {
      ControllerKeepsBase(w, e);
      if e.id == id {
        OwnKeeps(w, e);
      } else {
        OthersTouchNothing(w, e, id);
        UntouchedStays(w, Do(w, e), id);
      }
    } else {
      AdmissionDoes(w, e);
      AdmissionKeepsBase(w, e);
      AdmissionKeepsFit(w, e, id);
    }
  }

  lemma AdmissionKeepsFit(w: World, e: Event, id: string)
    requires Inv(w, id) && Enabled(w, e) && IsAdmissionEvent(e)
    ensures Fits(Do(w, e), id)
  {
    AdmissionDoes(w, e);
    AdmissionKeepsCell(w, e, id);
    assert id in w.cells;
    hide Inv, Enabled, Do, CellFits, PlanOf, Exec, CanRun, StopsRetired, ReservesFenced, RepliesTrue, NoOrphan;
    AdmissionKeepsCalls(w, e, id);
    AdmissionKeepsReplies(w, e, id);
    AdmissionKeepsOrphanFree(w, e, id);
  }

  /** One event orphans a cell's entry in exactly one case: a start of the cell mints while the entry is
      there. */
  lemma OrphansExactly(w: World, e: Event, id: string)
    requires Inv(w, id) && Enabled(w, e)
    ensures NoOrphan(Do(w, e), id) <==> !(e.Of? && e.id == id && e.act.Mint? && id in w.admission.store.entries)
  {
    if Overwrites(w, e, id) {
      ControllerDoes(w, e);
      assert Do(w, e).cells[id].lease == Some(Lease(e.act.generation, Pending)) && e.act.generation !in w.minted;
      assert StoreKnown(w);
      hide Do, Enabled, Inv, CellDo, CellMay, Moved, Overwrites;
    } else {
      assert NoOrphan(w, id);
      EventKeepsInv(w, e, id);
      assert Tied(Do(w, e), id);
      hide Do, Enabled, Inv, Base;
    }
  }

  // ---- how a mint over a lease comes about ----

  /** A stop is about to delete its alarm and to return to a start that waits for it, although another
      start has minted a lease since the stop deleted its own. */
  predicate Strands(w: World, e: Event, id: string) {
    e.Of? && e.id == id && e.act.DeleteAlarm? && id in w.cells && w.cells[id].start.Clearing? && w.cells[id].lease.Some?
  }

  /** A start that is past its stop, or needed none, finds no lease. */
  predicate StartClear(c: Cell) {
    (c.start.Clearing? && c.start.released) || c.start.Minting? ==> c.lease.None?
  }

  lemma ClearCell(w: World, id: string, c: Cell, a: Act)
    requires CellMay(w, c, a) && CellFits(w, id, c) && StartClear(c)
    ensures StartClear(CellDo(c, a)) <==> !(a.DeleteAlarm? && c.start.Clearing? && c.lease.Some?)
  {
  }

  /** A start gets past its stop with a lease in place by this one event, and by no other. */
  lemma StrandedExactly(w: World, e: Event, id: string)
    requires Inv(w, id) && Enabled(w, e) && StartClear(w.cells[id])
    ensures id in Do(w, e).cells
    ensures StartClear(Do(w, e).cells[id]) <==> !Strands(w, e, id)
  {
    if e.Of? {
      ControllerDoes(w, e);
      hide Do, Enabled, Base, Tied, CellFits, CellMay, CellDo, Moved, StartClear;
      if e.id == id { ClearCell(w, id, w.cells[id], e.act); }
    } else {
      AdmissionDoes(w, e);
      hide Do, Enabled, Base, Tied, CellFits, CellMay, CellDo, Moved, StartClear;
    }
  }

  /** A stranded start goes on with the lease in place, up to the mint if nothing ends it before. */
  lemma StrandedGoesOn(w: World, e: Event, id: string)
    requires Enabled(w, e) && Strands(w, e, id)
    ensures Enabled(Do(w, e), Of(id, Cleared)) && Do(w, e).cells[id].lease.Some?
  {
  }

  lemma ClearMintsFresh(w: World, e: Event, id: string)
    requires Enabled(w, e) && id in w.cells && StartClear(w.cells[id])
    ensures !Overwrites(w, e, id)
  {
  }

  // ---- runs ----

  /** No start of cell `id` mints over a lease before world `i`. */
  predicate NoneOverwritten(worlds: seq<World>, events: seq<Event>, i: nat, id: string)
    requires i <= |events| < |worlds|
  {
    forall j | 0 <= j < i :: !Overwrites(worlds[j], events[j], id)
  }

  /** No start of cell `id` is stranded before world `i`. */
  predicate NoneStranded(worlds: seq<World>, events: seq<Event>, i: nat, id: string)
    requires i <= |events| < |worlds|
  {
    forall j | 0 <= j < i :: !Strands(worlds[j], events[j], id)
  }

  lemma InitInv(w: World, id: string)
    requires exists ids :: w == Init(w.cap, ids)
    requires (forall k | k in w.cells :: ValidId(k)) && id in w.cells
    ensures Inv(w, id) && StartClear(w.cells[id])
  {
  }

  /** The invariant of a cell holds in every world of a run up to a mint over that cell's lease. */
  lemma {:induction false} RunKeepsInv(worlds: seq<World>, events: seq<Event>, i: nat, id: string)
    requires Run(worlds, events) && i < |worlds| && id in worlds[0].cells && NoneOverwritten(worlds, events, i, id)
    ensures Inv(worlds[i], id)
  {
    hide Inv, Enabled, Do, Overwrites;
    if i == 0 {
      InitInv(worlds[0], id);
    } else {
      RunKeepsInv(worlds, events, i - 1, id);
      EventKeepsInv(worlds[i - 1], events[i - 1], id);
    }
  }

  lemma {:induction false} RunStaysClear(worlds: seq<World>, events: seq<Event>, i: nat, id: string)
    requires Run(worlds, events) && i < |worlds| && id in worlds[0].cells && NoneStranded(worlds, events, i, id)
    ensures Inv(worlds[i], id) && id in worlds[i].cells && StartClear(worlds[i].cells[id])
    ensures NoneOverwritten(worlds, events, i, id)
  {
    hide Inv, Enabled, Do, Overwrites, Strands, StartClear;
    if i == 0 {
      InitInv(worlds[0], id);
    } else {
      var w, e := worlds[i - 1], events[i - 1];
      RunStaysClear(worlds, events, i - 1, id);
      ClearMintsFresh(w, e, id);
      EventKeepsInv(w, e, id);
      StrandedExactly(w, e, id);
    }
  }

  /** A start mints over a lease only after a stop has stranded a start of that cell. */
  lemma OverwritingWasStranded(worlds: seq<World>, events: seq<Event>, i: nat, id: string)
    requires Run(worlds, events) && i < |events| && Overwrites(worlds[i], events[i], id)
    ensures exists j :: 0 <= j < i && Strands(worlds[j], events[j], id)
  {
    RunKeepsBase(worlds, events, i);
    hide Inv, Base, Strands;
    if NoneStranded(worlds, events, i, id) {
      RunStaysClear(worlds, events, i, id);
      ClearMintsFresh(worlds[i], events[i], id);
    }
  }

  // ---- the theorems ----

  /** No orphaned reservation: in every reachable world, a cell whose starts have minted over no lease
      has no admission entry but that of its durable lease, whatever the other cells did. */
  lemma NoOrphanedReservation(worlds: seq<World>, events: seq<Event>, i: nat, id: string)
    requires Run(worlds, events) && i < |worlds| && id in worlds[i].admission.store.entries
    requires NoneOverwritten(worlds, events, i, id)
    ensures id in worlds[i].cells && worlds[i].cells[id].lease.Some?
    ensures worlds[i].cells[id].lease.value.generation == worlds[i].admission.store.entries[id].generation
  {
    hide Run, NoneOverwritten, CellFits, CallsKnown, AdmissionRuns.Inv;
    RunKeepsBase(worlds, events, i);
    RunKeepsInv(worlds, events, i, id);
    assert NoOrphan(worlds[i], id);
  }

  /** A start of a cell none of whose starts was stranded goes on past its stop only without a lease. */
  lemma ClearedHasNoLease(worlds: seq<World>, events: seq<Event>, i: nat, id: string)
    requires Run(worlds, events) && i < |worlds| && Enabled(worlds[i], Of(id, Cleared))
    requires NoneStranded(worlds, events, i, id)
    ensures worlds[i].cells[id].lease.None?
  {
    hide Run, NoneStranded, Base, Tied;
    RunKeepsBase(worlds, events, i);
    RunStaysClear(worlds, events, i, id);
    assert CellFits(worlds[i], id, worlds[i].cells[id]);
  }

  /** An admitted `started` writes back the very lease that is there, not yet stopped, in a cell whose
      starts have minted over no lease. */
  lemma WriteBackIsOwn(worlds: seq<World>, events: seq<Event>, i: nat, id: string, n: nat, g: string)
    requires Run(worlds, events) && i < |worlds| && Enabled(worlds[i], Of(id, PutRunning(n, g)))
    requires NoneOverwritten(worlds, events, i, id)
    ensures var lease := worlds[i].cells[id].lease;
            lease.Some? && lease.value.generation == g && lease.value.phase != LeasePhase.Stopped
  {
    hide Run, NoneOverwritten, Base, Tied;
    RunKeepsBase(worlds, events, i);
    RunKeepsInv(worlds, events, i, id);
    assert CellFits(worlds[i], id, worlds[i].cells[id]);
  }

  /** A reserve for the generation such a cell has just minted is refused for capacity or not at all:
      admitted when its entry is already there, else exactly when the fleet is below its cap. */
  lemma FreshReserveNeedsOnlyRoom(worlds: seq<World>, events: seq<Event>, i: nat, n: nat, op: Op)
    requires Run(worlds, events) && i < |worlds|
    requires var w := worlds[i];
             && n in w.flying && n in w.sent && w.sent[n].kind == ReserveCall && Runs(op, w.sent[n], w.cap)
             && CanRun(w.admission, op)
             && w.sent[n].id in w.cells && LeaseIs(w.cells[w.sent[n].id], w.sent[n].generation, Pending)
    requires NoneOverwritten(worlds, events, i, op.id)
    ensures var w, entries := worlds[i], worlds[i].admission.store.entries;
            PlanOf(w.admission, op).answer
            == if op.id in entries || |entries| < w.cap then Admitted else Denied(Concurrency)
  {
    hide Run, NoneOverwritten, Inv, Base, PlanOf;
    RunKeepsBase(worlds, events, i);
    RunKeepsInv(worlds, events, i, op.id);
    FreshReserve(worlds[i], n, op);
  }

  lemma FreshReserve(w: World, n: nat, op: Op)
    requires n in w.flying && n in w.sent && w.sent[n].kind == ReserveCall && Runs(op, w.sent[n], w.cap)
    requires Inv(w, op.id) && CanRun(w.admission, op) && LeaseIs(w.cells[op.id], op.generation, Pending)
    ensures PlanOf(w.admission, op).answer
            == if op.id in w.admission.store.entries || |w.admission.store.entries| < w.cap then Admitted
               else Denied(Concurrency)
  {
    var id, g, entries := op.id, op.generation, w.admission.store.entries;
    assert ValidId(id) && ValidId(g);
    assert !Retired(w, Key(id, g));
    assert Key(id, g) !in w.admission.history;
    CrowdedOutIsForgotten(w.admission.store.receipts, w.admission.history, w.admission.now, Key(id, g), op.at);
    hide HasCompletion;
    if id in entries {
      assert Live(entries, id, g);
      KeepSet.RankBound(entries.Keys, id);
      assert |entries.Keys| == |entries|;
    }
  }

  function RunningCells(w: World): (ids: set<string>)
    ensures forall id | id in ids :: id in w.cells && w.cells[id].lease.Some?
  {
    set id | id in w.cells && w.cells[id].lease.Some? && w.cells[id].lease.value.phase == LeasePhase.Running
  }

  lemma RunningIsAdmitted(worlds: seq<World>, events: seq<Event>, i: nat, id: string)
    requires Run(worlds, events) && i < |worlds| && id in RunningCells(worlds[i]) && NoneOverwritten(worlds, events, i, id)
    ensures Live(worlds[i].admission.store.entries, id, worlds[i].cells[id].lease.value.generation)
  {
    hide Run, NoneOverwritten, Base, Tied;
    RunKeepsBase(worlds, events, i);
    RunKeepsInv(worlds, events, i, id);
    assert RunningAdmitted(worlds[i], id, worlds[i].cells[id]);
  }

  /** The fleet-wide cap: the entries never pass it, in any run. Of cells whose starts have minted over
      no lease, each running lease has its unstopped entry, and so at most cap of them hold one. */
  lemma FleetWideCap(worlds: seq<World>, events: seq<Event>, i: nat, ids: set<string>)
    requires Run(worlds, events) && i < |worlds| && ids <= RunningCells(worlds[i])
    requires forall id | id in ids :: NoneOverwritten(worlds, events, i, id)
    ensures |worlds[i].admission.store.entries| <= worlds[0].cap
    ensures forall id | id in ids :: Live(worlds[i].admission.store.entries, id, worlds[i].cells[id].lease.value.generation)
    ensures |ids| <= worlds[0].cap
  {
    CapHoldsAlways(worlds, events, i);
    hide Run, NoneOverwritten;
    var entries := worlds[i].admission.store.entries;
    forall id | id in ids ensures Live(entries, id, worlds[i].cells[id].lease.value.generation) {
      RunningIsAdmitted(worlds, events, i, id);
    }
    Collections.SubsetSize(ids, entries.Keys);
    assert |entries.Keys| == |entries|;
  }

  /** The cap needs nothing of the controllers: no event of any run takes the entries past it. */
  lemma CapHoldsAlways(worlds: seq<World>, events: seq<Event>, i: nat)
    requires Run(worlds, events) && i < |worlds|
    ensures AdmissionRuns.Inv(worlds[i].admission) && worlds[i].cap == worlds[0].cap
    ensures |worlds[i].admission.store.entries| <= worlds[0].cap
  {
    hide Run, AdmissionRuns.Inv, CallsKnown, CellsKnown;
    RunKeepsBase(worlds, events, i);
  }
}
