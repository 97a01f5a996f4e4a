/** The two parties of sandbox admission: controller cells (apps/void-sandbox/src/controller.ts) and
    the admission cell, with the calls in flight between them.

    One event is one storage put of a controller, one message, one admission operation cut at a
    crash, or a crash of a controller. A call that timed out stays in flight and may run later. */
module SandboxWorld {
  import opened Options
  import opened Receipts
  import opened Admission

  datatype LeasePhase = Pending | Running | Stopped

  datatype Lease = Lease(generation: string, phase: LeasePhase)

  /** Where the queued `beforeStart` of a cell stands. While it waits for its stop, `released` says that
      a stop has run to its end. */
  datatype StartOp =
    | Idle
    | Clearing(released: bool)
    | Minting
    | Arming(generation: string)
    | Sending(generation: string)
    | Asking

  /** Where the single-flight `stopped` of a cell stands. */
  datatype StopOp =
    | NotStopping
    | Marking(generation: string)
    | Marked(generation: string)
    | Releasing(generation: string)
    | AwaitingRelease(generation: string, call: nat)
    | Deleting(generation: string)
    | Unarming

  /** Where the handler of a fired alarm stands: before or after it looks for a lease to re-arm for. */
  datatype AlarmOp = NotFired | Handling | Rearming | Returning

  /** A controller cell: its durable lease, its container, the operations its isolate is in, and its
      alarm. `confirms` holds the `started` calls that pending `afterStart`s wait for; `scheduled` says
      that an alarm is set, and one that fires is no longer scheduled. */
  datatype Cell = Cell(
    lease: Option<Lease>,
    running: bool,
    start: StartOp,
    stop: StopOp,
    confirms: set<nat>,
    scheduled: bool,
    handler: AlarmOp)

  const EmptyCell := Cell(None, false, Idle, NotStopping, {}, false, NotFired)

  datatype CallKind = ReserveCall | StartedCall | StoppedCall

  datatype Call = Call(kind: CallKind, id: string, generation: string)

  datatype World = World(
    cap: nat,
    admission: State,
    cells: map<string, Cell>,
    sent: map<nat, Call>,        // every call ever sent, by number
    flying: set<nat>,            // those that have not run yet
    replies: map<nat, Answer>,   // the answers of those that ran to their end
    minted: set<string>)

  /** One step of a controller. */
  datatype Act =
    | BeginStart
    | Cleared
    | Mint(generation: string)
    | ArmStart
    | SendReserve(call: nat)
    | EndStart
    | BeginStop
    | MarkStopped
    | ArmStop
    | SendStopped(call: nat)
    | StopAnswered
    | DeleteLease
    | DeleteAlarm
    | EndStop
    | BeginConfirm(call: nat)
    | PutRunning(call: nat, generation: string)
    | EndConfirm(call: nat)
    | Arm
    | AlarmFires
    | AlarmReads
    | AlarmArms
    | AlarmReturns
    | Container(running: bool)
    | Crash

  datatype Event =
    | Of(id: string, act: Act)
    | Deliver(call: nat, op: Op, puts: nat)
    | AdmissionAlarm(op: Op, puts: nat)

  function Init(cap: nat, ids: set<string>): World {
    World(cap, Empty, map id | id in ids :: EmptyCell, map[], {}, map[], {})
  }

  function KeyOf(call: Call): Key {
    Key(call.id, call.generation)
  }

  /** `op` runs `call`, under the fleet's cap. */
  predicate Runs(op: Op, call: Call, cap: nat) {
    match call.kind
    case ReserveCall => op.DoReserve? && op.cap == cap && op.id == call.id && op.generation == call.generation
    case StartedCall => op.DoStarted? && op.cap == cap && op.id == call.id && op.generation == call.generation
    case StoppedCall => op.DoStopped? && op.id == call.id && op.generation == call.generation
  }

  /** A reserve runs while the receipt of its generation, if it has one, is still retained. */
  predicate InRetention(w: World, op: Op) {
    op.DoReserve? && Key(op.id, op.generation) in w.admission.history ==>
      Retained(w.admission.history, Key(op.id, op.generation), op.at)
  }

  function SetCell(w: World, id: string, c: Cell): World {
    w.(cells := w.cells[id := c])
  }

  function Send(w: World, n: nat, call: Call): World {
    w.(sent := w.sent[n := call], flying := w.flying + {n})
  }

  /** The stop that a start waits for has returned: it ran to its end, or it found a live container or
      no lease. What it left of the lease is not asked. */
  predicate StopReturned(c: Cell) {
    c.start.Clearing? && (c.start.released || (c.stop == NotStopping && (c.running || c.lease.None?)))
  }

  /** What the code, the container base class and the assumed environment allow next in cell `c`. */
  predicate CellMay(w: World, c: Cell, a: Act) {
    match a
    case BeginStart =>
      c.start == Idle && !(c.lease.Some? && c.lease.value.phase == LeasePhase.Running && c.running)
    case Cleared => StopReturned(c)
    case Mint(g) => c.start == Minting && g !in w.minted && ValidId(g)
    case ArmStart => c.start.Arming?
    case SendReserve(n) => c.start.Sending? && n !in w.sent
    case EndStart => true
    case BeginStop =>
      && c.stop == NotStopping && !c.running && c.lease.Some?
      && c.confirms == {}   // assumed: no stop overlaps an afterStart's round trip
    case MarkStopped => c.stop.Marking?
    case ArmStop => c.stop.Marked?
    case SendStopped(n) => c.stop.Releasing? && n !in w.sent
    case StopAnswered => c.stop.AwaitingRelease? && c.stop.call in w.replies
    case DeleteLease => c.stop.Deleting?
    case DeleteAlarm => c.stop == Unarming
    case EndStop => true
    case BeginConfirm(n) =>
      && c.lease.Some? && c.lease.value.phase == Pending && c.running && n !in w.sent
      && c.stop == NotStopping   // the same assumption
    case PutRunning(n, g) =>
      && n in c.confirms && n in w.replies && w.replies[n] == Admitted
      && n in w.sent && w.sent[n].generation == g
    case EndConfirm(n) => true
    case Arm => true
    case AlarmFires => c.scheduled && c.handler == NotFired
    case AlarmReads => c.handler == Handling
    case AlarmArms => c.handler == Rearming
    case AlarmReturns => c.handler == Returning
    case Container(running) => running ==> !c.start.Clearing?   // assumed: no container comes up meanwhile
    case Crash => true
  }

  predicate Enabled(w: World, e: Event) {
    match e
    case Of(id, act) => id in w.cells && CellMay(w, w.cells[id], act)
    case Deliver(n, op, puts) =>
      && n in w.flying && n in w.sent && Runs(op, w.sent[n], w.cap) && CanRun(w.admission, op)
      && puts <= |PlanOf(w.admission, op).writes| && InRetention(w, op)
    case AdmissionAlarm(op, puts) =>
      (op.DoFire? || op.DoAlarm?) && CanRun(w.admission, op) && puts <= |PlanOf(w.admission, op).writes|
  }

  /** What a controller's step makes of its cell. */
  function CellDo(c: Cell, a: Act): Cell
    requires a.BeginStop? || a.BeginConfirm? ==> c.lease.Some?
    requires a.ArmStart? ==> c.start.Arming?
    requires a.MarkStopped? || a.ArmStop? || a.SendStopped? || a.StopAnswered? ==>
               !c.stop.NotStopping? && !c.stop.Unarming?
  {
    match a
    case BeginStart => c.(running := false, start := if c.lease.Some? then Clearing(false) else Minting)
    case Cleared => c.(running := false, start := Minting)
    case Mint(g) => c.(lease := Some(Lease(g, Pending)), start := Arming(g))
    case ArmStart => c.(scheduled := true, start := Sending(c.start.generation))
    case SendReserve(_) => c.(start := Asking)
    case EndStart => c.(start := Idle)
    case BeginStop => c.(stop := Marking(c.lease.value.generation))
    case MarkStopped =>
      c.(lease := Some(Lease(c.stop.generation, LeasePhase.Stopped)), stop := Marked(c.stop.generation))
    case ArmStop => c.(scheduled := true, stop := Releasing(c.stop.generation))
    case SendStopped(n) => c.(stop := AwaitingRelease(c.stop.generation, n))
    case StopAnswered => c.(stop := Deleting(c.stop.generation))
    case DeleteLease => c.(lease := None, stop := Unarming)
    case DeleteAlarm =>
      c.(scheduled := false, stop := NotStopping, start := if c.start.Clearing? then Clearing(true) else c.start)
    case EndStop => c.(stop := NotStopping)
    case BeginConfirm(n) => c.(confirms := c.confirms + {n})
    case PutRunning(n, g) => c.(lease := Some(Lease(g, LeasePhase.Running)), confirms := c.confirms - {n})
    case EndConfirm(n) => c.(confirms := c.confirms - {n})
    case Arm => c.(scheduled := true)
    case AlarmFires => c.(scheduled := false, handler := Handling)
    case AlarmReads => c.(handler := if c.lease.Some? then Rearming else Returning)
    case AlarmArms => c.(scheduled := true, handler := Returning)
    case AlarmReturns => c.(handler := NotFired)
    case Container(running) => c.(running := running)
    case Crash =>
      // the runtime runs the handler of a fired alarm again
      c.(start := Idle, stop := NotStopping, confirms := {}, handler := if c.handler == NotFired then NotFired else Handling)
  }

  /** A controller's step, with what it adds to the world beside its cell. */
  function Moved(w: World, id: string, c: Cell, a: Act): World
    requires CellMay(w, c, a)
  {
    var next := SetCell(w, id, CellDo(c, a));
    match a
    case Mint(g) => next.(minted := w.minted + {g})
    case SendReserve(n) => Send(next, n, Call(ReserveCall, id, c.start.generation))
    case SendStopped(n) => Send(next, n, Call(StoppedCall, id, c.stop.generation))
    case BeginConfirm(n) => Send(next, n, Call(StartedCall, id, c.lease.value.generation))
    case _ => next
  }

  function Do(w: World, e: Event): World
    requires Enabled(w, e)
  {
    match e
    case Of(id, act) => Moved(w, id, w.cells[id], act)
    case Deliver(n, op, puts) =>
      var plan := PlanOf(w.admission, op);
      w.(admission := Exec(w.admission, op, puts),
         flying := w.flying - {n},
         replies := if puts == |plan.writes| then w.replies[n := plan.answer] else w.replies)
    case AdmissionAlarm(op, puts) => w.(admission := Exec(w.admission, op, puts))
  }

  /** A run from empty storage on both sides. */
  ghost predicate Run(worlds: seq<World>, events: seq<Event>) {
    && |worlds| == |events| + 1
    && (exists ids :: worlds[0] == Init(worlds[0].cap, ids))
    && (forall id | id in worlds[0].cells :: ValidId(id))
    && forall i | 0 <= i < |events| :: Enabled(worlds[i], events[i]) && worlds[i + 1] == Do(worlds[i], events[i])
  }
}
