/** The fleet's admission cell (apps/void-sandbox/src/admission.ts), as the storage writes each
    operation issues.

    The operations are queued one behind the other, so an operation is a list of writes and an
    answer. An isolate may die after any number of those writes: `Exec` commits a prefix. Every
    durable state between two writes is one of those prefixes. */
module Admission {
  import opened Options
  import opened Receipts
  import KeepSet

  const MAX_ID_LENGTH: nat := 128
  const RECONCILE_INTERVAL_MS: nat := 60_000

  datatype Phase = Reserved | Running

  datatype Entry = Entry(generation: string, phase: Phase, startedAt: Option<nat>, stoppedAt: Option<nat>)

  type Entries = map<string, Entry>

  datatype Reason = Concurrency | Unavailable

  datatype Answer = Admitted | Denied(reason: Reason) | Released | Thrown

  /** The durable state of the admission cell. `alarm` is the scheduled alarm; once it fires it is no
      longer scheduled, and `fired` says that its handler has yet to return. */
  datatype Store = Store(entries: Entries, receipts: seq<Receipt>, alarm: Option<nat>, fired: bool)

  const EmptyStore := Store(map[], [], None, false)

  datatype Write =
    | PutEntries(entries: Entries)
    | PutReceipts(receipts: seq<Receipt>, key: Key, at: nat)
    | SetAlarm(due: nat)
    | FireAlarm   // the runtime takes a due alarm off the schedule
    | AlarmDone   // the runtime sees its handler return

  datatype Plan = Plan(writes: seq<Write>, answer: Answer)

  predicate ValidId(id: string) {
    0 < |id| <= MAX_ID_LENGTH
  }

  predicate Live(entries: Entries, id: string, generation: string) {
    && id in entries
    && entries[id].generation == generation
    && entries[id].stoppedAt.None?
  }

  predicate WithinLimit(entries: Entries, id: string, cap: nat) {
    KeepSet.WithinLimit(entries.Keys, id, cap)
  }

  function Limited(entries: Entries, id: string, cap: nat): Answer {
    if WithinLimit(entries, id, cap) then Admitted else Denied(Concurrency)
  }

  function Reserve(s: Store, id: string, generation: string, cap: nat, now: nat): Plan {
    if !ValidId(id) || !ValidId(generation) then Plan([], Denied(Unavailable))
    else if id in s.entries then
      if !Live(s.entries, id, generation) then Plan([], Denied(Unavailable))
      else Plan([], Limited(s.entries, id, cap))
    else if HasCompletion(s.receipts, Key(id, generation), now) then Plan([], Denied(Unavailable))
    else if |s.entries| >= cap then Plan([], Denied(Concurrency))
    else Plan([PutEntries(s.entries[id := Entry(generation, Reserved, None, None)])], Admitted)
  }

  function Started(s: Store, id: string, generation: string, cap: nat, now: nat): Plan {
    if !ValidId(id) || !ValidId(generation) || !Live(s.entries, id, generation) then Plan([], Denied(Unavailable))
    else if !WithinLimit(s.entries, id, cap) then Plan([], Denied(Concurrency))
    else if s.entries[id].startedAt.Some? then Plan([], Admitted)
    else Plan([PutEntries(s.entries[id := s.entries[id].(phase := Running, startedAt := Some(now))])], Admitted)
  }

  function Heartbeat(s: Store, id: string, generation: string, cap: nat): Plan {
    if !ValidId(id) || !ValidId(generation) || !Live(s.entries, id, generation) then Plan([], Denied(Unavailable))
    else Plan([], Limited(s.entries, id, cap))
  }

  /** The clock readings of one stop: on arrival (before it queues), then in the order taken. */
  datatype StopClock = StopClock(arrival: nat, alarm: nat, read: nat, record: nat)

  function RecordWrite(receipts: seq<Receipt>, key: Key, read: nat, at: nat): Write {
    PutReceipts(Record(receipts, key, read, at), key, at)
  }

  function Marked(entries: Entries, id: string, at: nat): Entries
    requires id in entries
  {
    if entries[id].stoppedAt.Some? then entries else entries[id := entries[id].(stoppedAt := Some(at))]
  }

  function Stopped(s: Store, id: string, generation: string, clock: StopClock): Plan {
    var receipt := RecordWrite(s.receipts, Key(id, generation), clock.read, clock.record);
    if !ValidId(id) || !ValidId(generation) then Plan([], Thrown)
    else if id !in s.entries || s.entries[id].generation != generation then Plan([receipt], Released)
    else
      var marked := Marked(s.entries, id, clock.arrival);
      Plan(MarkWrites(s.entries, id, clock.arrival)
           + (AlarmWrites(s.alarm, clock.alarm) + [receipt, PutEntries(marked - {id})]), Released)
  }

  function MarkWrites(entries: Entries, id: string, at: nat): seq<Write>
    requires id in entries
  {
    if entries[id].stoppedAt.None? then [PutEntries(Marked(entries, id, at))] else []
  }

  /** `#ensureAlarm` */
  function AlarmWrites(alarm: Option<nat>, now: nat): seq<Write> {
    if alarm.None? then [SetAlarm(now + RECONCILE_INTERVAL_MS)] else []
  }

  /** The receipts an alarm writes for the torn stops, in the order it meets them. */
  function SweepWrites(receipts: seq<Receipt>, entries: Entries, torn: seq<string>, clock: seq<(nat, nat)>): seq<Write>
    requires |clock| == |torn| && forall id | id in torn :: id in entries
    decreases |torn|
  {
    if torn == [] then []
    else
      var first := RecordWrite(receipts, Key(torn[0], entries[torn[0]].generation), clock[0].0, clock[0].1);
      [first] + SweepWrites(first.receipts, entries, torn[1..], clock[1..])
  }

  function Sweep(s: Store, torn: seq<string>, clock: seq<(nat, nat)>): Plan
    requires |clock| == |torn| && forall id | id in torn :: id in s.entries
  {
    Plan(SweepWrites(s.receipts, s.entries, torn, clock) + (ReleaseWrites(s.entries, torn) + [AlarmDone]), Released)
  }

  function ReleaseWrites(entries: Entries, torn: seq<string>): seq<Write> {
    if torn == [] then [] else [PutEntries(entries - (set id | id in torn))]
  }

  // ---- runs ----

  /** The durable store, the last completion time of every key ever recorded, and the clock. */
  datatype State = State(store: Store, history: map<Key, nat>, now: nat)

  datatype Op =
    | DoReserve(id: string, generation: string, cap: nat, at: nat)
    | DoStarted(id: string, generation: string, cap: nat, at: nat)
    | DoHeartbeat(id: string, generation: string, cap: nat, at: nat)
    | DoStopped(id: string, generation: string, stop: StopClock)
    | DoFire(at: nat)
    | DoAlarm(torn: seq<string>, clock: seq<(nat, nat)>)

  predicate Ticks(now: nat, clock: seq<(nat, nat)>)
    decreases |clock|
  {
    clock == [] || (now <= clock[0].0 <= clock[0].1 && Ticks(clock[0].1, clock[1..]))
  }

  /** `torn` lists the entries with a stop mark, each once. */
  predicate ListsTorn(entries: Entries, torn: seq<string>) {
    && (forall id | id in torn :: id in entries && entries[id].stoppedAt.Some?)
    && (forall id | id in entries && entries[id].stoppedAt.Some? :: id in torn)
    && (forall i, j | 0 <= i < j < |torn| :: torn[i] != torn[j])
  }

  /** The clock never goes back; a due alarm fires when no handler is under way, a fired one is handled
      until a handler returns, and a handler meets every torn stop. */
  predicate CanRun(st: State, op: Op) {
    match op
    case DoReserve(_, _, _, at) => st.now <= at
    case DoStarted(_, _, _, at) => st.now <= at
    case DoHeartbeat(_, _, _, at) => st.now <= at
    case DoStopped(_, _, c) => st.now <= c.alarm <= c.read <= c.record
    case DoFire(at) => st.now <= at && st.store.alarm.Some? && st.store.alarm.value <= at && !st.store.fired
    case DoAlarm(torn, clock) =>
      st.store.fired && ListsTorn(st.store.entries, torn) && |clock| == |torn| && Ticks(st.now, clock)
  }

  function PlanOf(st: State, op: Op): Plan
    requires CanRun(st, op)
  {
    match op
    case DoReserve(id, g, cap, at) => Reserve(st.store, id, g, cap, at)
    case DoStarted(id, g, cap, at) => Started(st.store, id, g, cap, at)
    case DoHeartbeat(id, g, cap, _) => Heartbeat(st.store, id, g, cap)
    case DoStopped(id, g, c) => Stopped(st.store, id, g, c)
    case DoFire(_) => Plan([FireAlarm], Released)
    case DoAlarm(torn, clock) => Sweep(st.store, torn, clock)
  }

  function Applied(s: Store, w: Write): Store {
    match w
    case PutEntries(entries) => s.(entries := entries)
    case PutReceipts(receipts, _, _) => s.(receipts := receipts)
    case SetAlarm(due) => s.(alarm := Some(due))
    case FireAlarm => s.(alarm := None, fired := true)
    case AlarmDone => s.(fired := false)
  }

  function AppliedSome(s: Store, ws: seq<Write>, puts: nat): Store
    requires puts <= |ws|
    decreases puts
  {
    if puts == 0 then s else AppliedSome(Applied(s, ws[0]), ws[1..], puts - 1)
  }

  function Commit(st: State, w: Write): State {
    var store := Applied(st.store, w);
    if w.PutReceipts? then State(store, st.history[w.key := w.at], w.at) else st.(store := store)
  }

  /** Commit the first `puts` of `ws`. */
  function CommitSome(st: State, ws: seq<Write>, puts: nat): State
    requires puts <= |ws|
    decreases puts
  {
    if puts == 0 then st else CommitSome(Commit(st, ws[0]), ws[1..], puts - 1)
  }

  function FirstReading(op: Op, now: nat): nat {
    match op
    case DoReserve(_, _, _, at) => at
    case DoStarted(_, _, _, at) => at
    case DoHeartbeat(_, _, _, at) => at
    case DoStopped(_, _, c) => c.alarm
    case DoFire(at) => at
    case DoAlarm(_, clock) => if clock == [] then now else clock[0].0
  }

  /** Run `op` in an isolate that dies after `puts` writes (or lives, when there are no more). */
  function Exec(st: State, op: Op, puts: nat): State
    requires CanRun(st, op) && puts <= |PlanOf(st, op).writes|
  {
    CommitSome(st.(now := FirstReading(op, st.now)), PlanOf(st, op).writes, puts)
  }

  const Empty := State(EmptyStore, map[], 0)
}
