/** Whether a cell that holds capacity is sure to be looked at again: the controller's own alarm. */
module SandboxAlarms {
  import opened Options
  import opened Receipts
  import opened Admission
  import opened SandboxWorld
  import opened SandboxProtocol
  import AdmissionRuns
  import AdmissionFencing

  /** The handler of a fired alarm has yet to look for the lease, or has found it. */
  predicate WillRearm(c: Cell) {
    c.handler == Handling || c.handler == Rearming
  }

  /** An alarm is set, or its handler is still to set it again for any lease there is. */
  predicate Armed(c: Cell) {
    c.scheduled || WillRearm(c)
  }

  predicate AskedAs(w: World, n: nat, id: string, g: string) {
    n in w.sent && w.sent[n] == Call(ReserveCall, id, g)
  }

  ghost predicate Asked(w: World, id: string, g: string) {
    exists n :: AskedAs(w, n, id, g)
  }

  /** The reserve of the cell's lease has been sent, or its start is past `#arm` and about to send it. */
  ghost predicate Exposed(w: World, id: string) {
    && id in w.cells && w.cells[id].lease.Some?
    && var g := w.cells[id].lease.value.generation;
       Asked(w, id, g) || w.cells[id].start == Sending(g)
  }

  ghost predicate ExposedArmed(w: World, id: string) {
    Exposed(w, id) ==> Armed(w.cells[id])
  }

  ghost predicate EntriesAsked(w: World) {
    forall id | id in w.admission.store.entries :: Asked(w, id, w.admission.store.entries[id].generation)
  }

  /** A stop of cell `id` deletes the alarm under a lease that a start has minted and armed since that stop deleted
      its own, and no handler is about to set it again. */
  ghost predicate Unarms(w: World, e: Event, id: string) {
    e.Of? && e.id == id && e.act.DeleteAlarm? && Exposed(w, id) && !WillRearm(w.cells[id])
  }

  // ---- one cell ----

  lemma ArmedStays(w: World, c: Cell, a: Act)
    requires CellMay(w, c, a) && Armed(c) && c.lease.Some?
    ensures Armed(CellDo(c, a)) <==> !(a.DeleteAlarm? && !WillRearm(c))
  {
  }

  /** A cell gets a lease of another generation by minting it. */
  lemma LeaseComesByMint(w: World, id: string, c: Cell, a: Act)
    requires !a.Mint? && CellMay(w, c, a)
    requires StopFits(w, id, c) && ConfirmsFit(w, id, c)
    ensures CellDo(c, a).lease.Some? ==> c.lease.Some? && CellDo(c, a).lease.value.generation == c.lease.value.generation
  {
  }

  lemma OwnCell(w: World, e: Event)
    requires e.Of? && Inv(w, e.id) && Enabled(w, e)
    ensures e.id in w.cells && CellMay(w, w.cells[e.id], e.act) && CallsKnown(w)
    ensures StopFits(w, e.id, w.cells[e.id]) && ConfirmsFit(w, e.id, w.cells[e.id])
  {
    hide AdmissionRuns.Inv, CellMay, StopFits, ConfirmsFit;
  }

  lemma SentByEvent(w: World, e: Event)
    requires Enabled(w, e)
    ensures w.sent.Keys <= Do(w, e).sent.Keys && forall n | n in w.sent :: Do(w, e).sent[n] == w.sent[n]
    ensures forall n | n in Do(w, e).sent && n !in w.sent && Do(w, e).sent[n].kind == ReserveCall ::
              && e.Of? && e.act.SendReserve? && n == e.act.call
              && Do(w, e).sent[n] == Call(ReserveCall, e.id, w.cells[e.id].start.generation)
    ensures e.Of? && e.act.SendReserve? ==> AskedAs(Do(w, e), e.act.call, e.id, w.cells[e.id].start.generation)
    ensures e.Of? ==> Do(w, e).cells == w.cells[e.id := CellDo(w.cells[e.id], e.act)]
    ensures e.Of? ==> Do(w, e).admission == w.admission
    ensures !e.Of? ==> Do(w, e).cells == w.cells
  {
    hide PlanOf, Exec, Runs, CanRun, InRetention, CellDo;
  }

  lemma AskedBefore(w: World, e: Event, id: string, g: string)
    requires Enabled(w, e) && Asked(Do(w, e), id, g)
    ensures Asked(w, id, g) || (e.Of? && e.act.SendReserve? && e.id == id && w.cells[id].start == Sending(g))
  {
    var n :| AskedAs(Do(w, e), n, id, g);
    SentByEvent(w, e);
    hide Do, Enabled;
    if n in w.sent { assert AskedAs(w, n, id, g); }
  }

  lemma AskedAfter(w: World, e: Event, id: string, g: string)
    requires Enabled(w, e) && Asked(w, id, g)
    ensures Asked(Do(w, e), id, g)
  {
    var n :| AskedAs(w, n, id, g);
    SentByEvent(w, e);
    hide Do, Enabled;
    assert AskedAs(Do(w, e), n, id, g);
  }

  lemma MintedIsNotAsked(w: World, g: string, id: string)
    requires CallsKnown(w) && g !in w.minted
    ensures !Asked(w, id, g)
  {
  }

  lemma MintIsNotExposed(w: World, e: Event)
    requires Enabled(w, e) && e.Of? && e.act.Mint? && CallsKnown(w)
    ensures !Exposed(Do(w, e), e.id)
  {
    SentByEvent(w, e);
    MintedIsNotAsked(w, e.act.generation, e.id);
    if Asked(Do(w, e), e.id, e.act.generation) { AskedBefore(w, e, e.id, e.act.generation); }
    hide Do, Enabled, CallsKnown, Asked;
  }

  /** What leads to an exposed lease in its cell. */
  lemma ExposedCell(w: World, a: Act, c: Cell, g: string)
    requires !a.Mint? && CellMay(w, c, a) && CellDo(c, a).start == Sending(g)
    ensures c.start == Sending(g) || a.ArmStart?
  {
  }

  /** A lease becomes exposed in one way only: its own start arms the alarm. */
  lemma ExposedBefore(w: World, e: Event)
    requires e.Of? && Inv(w, e.id) && Enabled(w, e) && Exposed(Do(w, e), e.id)
    ensures !e.act.Mint? && e.id in w.cells && w.cells[e.id].lease.Some?
    ensures Exposed(w, e.id) || e.act.ArmStart?
  {
    hide Inv, Enabled, Do, CellDo, CellMay, CallsKnown, StopFits, ConfirmsFit, Asked;
    OwnCell(w, e);
    SentByEvent(w, e);
    if e.act.Mint? { MintIsNotExposed(w, e); }
    var c := w.cells[e.id];
    if !e.act.Mint? { LeaseComesByMint(w, e.id, c, e.act); }
    var g := c.lease.value.generation;
    if Asked(Do(w, e), e.id, g) {
      AskedBefore(w, e, e.id, g);
    } else {
      ExposedCell(w, e.act, c, g);
    }
  }

  lemma OthersStayArmed(w: World, e: Event, id: string)
    requires Enabled(w, e) && ExposedArmed(w, id) && !(e.Of? && e.id == id)
    ensures ExposedArmed(Do(w, e), id)
  {
    SentByEvent(w, e);
    hide Enabled, Do, CellDo, Armed;
    if Exposed(Do(w, e), id) { AskedOrSending(w, e, id); }
  }

  lemma AskedOrSending(w: World, e: Event, id: string)
    requires Enabled(w, e) && Exposed(Do(w, e), id) && !(e.Of? && e.id == id)
    requires id in w.cells && Do(w, e).cells[id] == w.cells[id]
    ensures Exposed(w, id)
  {
    hide Enabled, Do, CellDo;
    var g := w.cells[id].lease.value.generation;
    if Asked(Do(w, e), id, g) { AskedBefore(w, e, id, g); }
  }

  lemma OwnStaysArmed(w: World, e: Event)
    requires e.Of? && Inv(w, e.id) && Enabled(w, e) && ExposedArmed(w, e.id) && !Unarms(w, e, e.id)
    ensures ExposedArmed(Do(w, e), e.id)
  {
    SentByEvent(w, e);
    if Exposed(Do(w, e), e.id) {
      ExposedBefore(w, e);
      OwnCell(w, e);
      hide Inv, Do, Exposed, CellMay, CellDo, Armed, Enabled;
      if e.act.ArmStart? { ArmStartArms(w.cells[e.id]); } else { ArmedStays(w, w.cells[e.id], e.act); }
    }
  }

  lemma ArmStartArms(c: Cell)
    requires c.start.Arming?
    ensures Armed(CellDo(c, ArmStart))
  {
  }

  lemma UnarmedIsExposed(w: World, e: Event, id: string)
    requires Enabled(w, e) && Unarms(w, e, id)
    ensures !ExposedArmed(Do(w, e), id)
  {
    SentByEvent(w, e);
    var g := w.cells[id].lease.value.generation;
    if Asked(w, id, g) { AskedAfter(w, e, id, g); }
    hide Do, Enabled;
    assert Exposed(Do(w, e), id);
  }

  /** One event takes the alarm from an exposed lease in exactly one case: a stop deletes it under the
      lease of a start that came in between. Every other event, a fired alarm and the death of its
      handler included, keeps it. */
  lemma EventKeepsArmed(w: World, e: Event, id: string)
    requires Inv(w, id) && Enabled(w, e) && ExposedArmed(w, id)
    ensures ExposedArmed(Do(w, e), id) <==> !Unarms(w, e, id)
  {
    hide Inv, Enabled, Do, Exposed, ExposedArmed, Armed;
    if Unarms(w, e, id) {
      UnarmedIsExposed(w, e, id);
    } else if e.Of? && e.id == id {
      OwnStaysArmed(w, e);
    } else {
      OthersStayArmed(w, e, id);
    }
  }

  /** Every entry came from a reserve its cell sent. */
  lemma EventKeepsAsked(w: World, e: Event)
    requires Base(w) && Enabled(w, e) && EntriesAsked(w)
    ensures EntriesAsked(Do(w, e))
  {
    hide Base, Enabled, Do;
    forall id | id in Do(w, e).admission.store.entries
      ensures Asked(Do(w, e), id, Do(w, e).admission.store.entries[id].generation)
    {
      EntryIsAsked(w, e, id);
    }
  }

  lemma EntryIsAsked(w: World, e: Event, id: string)
    requires Base(w) && Enabled(w, e) && EntriesAsked(w) && id in Do(w, e).admission.store.entries
    ensures Asked(Do(w, e), id, Do(w, e).admission.store.entries[id].generation)
  {
    var entries := w.admission.store.entries;
    if e.Of? {
      SentByEvent(w, e);
      hide Do, Enabled, Base;
      AskedAfter(w, e, id, entries[id].generation);
    } else {
      AdmissionDoes(w, e);
      hide Do, Exec, PlanOf, CanRun, Enabled, Runs, InRetention, CallsKnown, CellsKnown, StoreKnown;
      if id in entries {
        AdmissionFencing.EntryFate(w.admission, e.op, e.puts, id);
        AskedAfter(w, e, id, entries[id].generation);
      } else {
        AdmissionFencing.EntryOrigin(w.admission, e.op, e.puts, id);
        DeliveredIsAsked(w, e);
      }
    }
  }

  lemma DeliveredIsAsked(w: World, e: Event)
    requires Enabled(w, e) && e.Deliver? && e.op.DoReserve?
    ensures Asked(Do(w, e), e.op.id, e.op.generation)
  {
    hide PlanOf, Exec, CanRun, InRetention;
    assert AskedAs(w, e.call, e.op.id, e.op.generation);
    hide Do, Enabled;
    AskedAfter(w, e, e.op.id, e.op.generation);
  }

  // ---- the theorem ----

  /** No stop of cell `id` takes its alarm in that way before world `i`. */
  ghost predicate NoneUnarmed(worlds: seq<World>, events: seq<Event>, i: nat, id: string)
    requires i <= |events| < |worlds|
  {
    forall j | 0 <= j < i :: !Unarms(worlds[j], events[j], id)
  }

  lemma {:induction false} RunKeepsAsked(worlds: seq<World>, events: seq<Event>, i: nat)
    requires Run(worlds, events) && i < |worlds|
    ensures EntriesAsked(worlds[i])
  {
    hide Base, Enabled, Do, EntriesAsked;
    if i == 0 {
      InitAsked(worlds[0]);
    } else {
      RunKeepsAsked(worlds, events, i - 1);
      RunKeepsBase(worlds, events, i - 1);
      EventKeepsAsked(worlds[i - 1], events[i - 1]);
    }
  }

  lemma InitAsked(w: World)
    requires exists ids :: w == Init(w.cap, ids)
    ensures EntriesAsked(w) && forall id :: ExposedArmed(w, id)
  {
  }

  /** A cell whose starts mint over no lease and whose stops take no such alarm keeps one behind every
      exposed lease, whatever the other cells do. */
  lemma {:induction false} RunKeepsArmed(worlds: seq<World>, events: seq<Event>, i: nat, id: string)
    requires Run(worlds, events) && i < |worlds| && id in worlds[0].cells
    requires NoneOverwritten(worlds, events, i, id) && NoneUnarmed(worlds, events, i, id)
    ensures ExposedArmed(worlds[i], id)
  {
    hide Inv, Enabled, Do, ExposedArmed, Overwrites, Unarms;
    if i == 0 {
      InitAsked(worlds[0]);
    } else {
      RunKeepsArmed(worlds, events, i - 1, id);
      RunKeepsInv(worlds, events, i - 1, id);
      EventKeepsArmed(worlds[i - 1], events[i - 1], id);
    }
  }

  /** No capacity is held unwatched: under the same two conditions on its own starts and stops, a cell
      with an admission entry has its alarm set, or the handler of a fired one still to set it. */
  lemma HeldIsArmed(worlds: seq<World>, events: seq<Event>, i: nat, id: string)
    requires Run(worlds, events) && i < |worlds| && id in worlds[i].admission.store.entries
    requires NoneOverwritten(worlds, events, i, id) && NoneUnarmed(worlds, events, i, id)
    ensures id in worlds[i].cells && Armed(worlds[i].cells[id])
  {
    hide Run, Armed, NoneOverwritten, NoneUnarmed, Base;
    NoOrphanedReservation(worlds, events, i, id);
    RunKeepsBase(worlds, events, i);
    RunKeepsAsked(worlds, events, i);
    RunKeepsArmed(worlds, events, i, id);
    assert Exposed(worlds[i], id);
  }
}
