/** Whether a torn stop is sure to be finished: the alarm that stands behind it. */
module AdmissionAlarms {
  import opened Options
  import opened Receipts
  import opened Admission
  import opened AdmissionRuns
  import opened AdmissionFencing

  /** An alarm is scheduled, or one that fired has yet to be handled. */
  predicate AlarmPending(s: Store) {
    s.alarm.Some? || s.fired
  }

  predicate AnyTorn(entries: Entries) {
    exists id :: id in entries && entries[id].stoppedAt.Some?
  }

  /** Whenever an entry carries a stop mark, an alarm stands behind it. */
  predicate Watched(s: Store) {
    AnyTorn(s.entries) ==> AlarmPending(s)
  }

  /** The isolate of a stop dies right after the mark it puts, when no alarm is pending yet. */
  predicate DiesAtMark(st: State, op: Op, puts: nat) {
    && op.DoStopped? && puts == 1 && ValidId(op.id) && ValidId(op.generation)
    && Live(st.store.entries, op.id, op.generation) && !AlarmPending(st.store)
  }

  /** The alarm of a stop of its own entry, write by write. */
  lemma AlarmOfStop(st: State, op: Op, puts: nat)
    requires op.DoStopped? && CanRun(st, op) && puts <= |PlanOf(st, op).writes|
    requires ValidId(op.id) && ValidId(op.generation)
    requires op.id in st.store.entries && st.store.entries[op.id].generation == op.generation
    ensures var mark := |MarkWrites(st.store.entries, op.id, op.stop.arrival)|;
            var end := Exec(st, op, puts).store;
            && end.fired == st.store.fired
            && (puts <= mark ==> end.alarm == st.store.alarm)
            && (puts > mark ==> end.alarm == if st.store.alarm.Some? then st.store.alarm else Some(op.stop.alarm + 60_000))
  {
    hide Record;
    var c, id, g := op.stop, op.id, op.generation;
    var st0 := st.(now := c.alarm);
    var marked := Marked(st.store.entries, id, c.arrival);
    var tail := [RecordWrite(st.store.receipts, Key(id, g), c.read, c.record), PutEntries(marked - {id})];
    var alarm := AlarmWrites(st.store.alarm, c.alarm);
    var all := alarm + tail;
    if st.store.entries[id].stoppedAt.Some? {
      assert PlanOf(st, op).writes == all by { assert [] + all == all; }
      hide PlanOf, RecordWrite, Marked;
      TailAlarm(st0, alarm, tail, puts);
    } else {
      var w := PutEntries(marked);
      assert PlanOf(st, op).writes == [w] + all;
      hide PlanOf, RecordWrite, Marked;
      if puts > 0 {
        CommitCons(st0, w, all, puts);
        TailAlarm(Commit(st0, w), alarm, tail, puts - 1);
      }
    }
  }

  /** A stop of its own entry, write by write, as far as marks and alarms go. */
  lemma StopAlarm(st: State, op: Op, puts: nat)
    requires op.DoStopped? && CanRun(st, op) && puts <= |PlanOf(st, op).writes|
    requires ValidId(op.id) && ValidId(op.generation)
    requires op.id in st.store.entries && st.store.entries[op.id].generation == op.generation
    ensures var mark := |MarkWrites(st.store.entries, op.id, op.stop.arrival)|;
            var end := Exec(st, op, puts).store;
            && mark <= 1 && (mark == 1 <==> Live(st.store.entries, op.id, op.generation))
            && end.fired == st.store.fired
            && (puts <= mark ==> end.alarm == st.store.alarm)
            && (puts > mark ==> end.alarm == if st.store.alarm.Some? then st.store.alarm else Some(op.stop.alarm + 60_000))
            && (puts >= mark && puts < |PlanOf(st, op).writes| ==> end.entries == Marked(st.store.entries, op.id, op.stop.arrival))
            && (puts == 0 ==> end.entries == st.store.entries)
  {
    AlarmOfStop(st, op, puts);
    StopEffect(st, op, puts);
    hide Exec, PlanOf, CanRun;
  }

  lemma TailAlarm(st: State, alarm: seq<Write>, tail: seq<Write>, puts: nat)
    requires if st.store.alarm.Some? then alarm == [] else |alarm| == 1 && alarm[0].SetAlarm?
    requires |tail| == 2 && tail[0].PutReceipts? && tail[1].PutEntries? && puts <= |alarm| + 2
    ensures var end := CommitSome(st, alarm + tail, puts).store;
            && end.fired == st.store.fired && (puts == 0 ==> end.alarm == st.store.alarm)
            && (puts > 0 ==> end.alarm == if st.store.alarm.Some? then st.store.alarm else Some(alarm[0].due))
  {
    if alarm == [] {
      assert alarm + tail == tail;
    } else if puts > 0 {
      assert alarm == [alarm[0]];
      CommitCons(st, alarm[0], tail, puts);
    }
  }

  lemma StopKeepsWatch(st: State, op: Op, puts: nat)
    requires op.DoStopped? && CanRun(st, op) && puts <= |PlanOf(st, op).writes| && Watched(st.store)
    ensures !Watched(Exec(st, op, puts).store) <==> DiesAtMark(st, op, puts)
  {
    if ValidId(op.id) && ValidId(op.generation) && op.id in st.store.entries
       && st.store.entries[op.id].generation == op.generation {
      StopEffect(st, op, puts);
      StopAlarm(st, op, puts);
      hide Exec, PlanOf, CanRun;
      if DiesAtMark(st, op, puts) {
        assert Exec(st, op, puts).store.entries[op.id].stoppedAt.Some?;
      }
    } else {
      hide Record;
    }
  }

  /** One step takes the watch away in exactly one case: a stop whose isolate dies right after its mark
      while no alarm is pending. Every other prefix of every operation keeps it. */
  lemma WatchFailsExactly(st: State, op: Op, puts: nat)
    requires CanRun(st, op) && puts <= |PlanOf(st, op).writes| && Watched(st.store)
    requires forall k | k in st.history :: st.history[k] <= st.now
    ensures !Watched(Exec(st, op, puts).store) <==> DiesAtMark(st, op, puts)
  {
    hide Record, HasCompletion, WithinLimit;
    match op
    case DoStopped(_, _, _) => StopKeepsWatch(st, op, puts);
    case DoAlarm(_, _) =>
      AlarmEffect(st, op, puts);
      hide Exec, PlanOf;
    case DoReserve(_, _, _, _) =>
      if puts > 0 { assert AnyTorn(Exec(st, op, puts).store.entries) ==> AnyTorn(st.store.entries) by {
        forall id | id in Exec(st, op, puts).store.entries && Exec(st, op, puts).store.entries[id].stoppedAt.Some?
          ensures id in st.store.entries && st.store.entries[id].stoppedAt.Some? {}
      } }
    case DoStarted(_, _, _, _) =>
    case DoHeartbeat(_, _, _, _) =>
    case DoFire(_) =>
  }

  /** Such a run from empty storage: a reserve, and its stop in an isolate that dies right after the mark. */
  lemma DeathAtMarkIsUnwatched(id: string, g: string, at: nat) returns (states: seq<State>, steps: seq<Step>)
    requires ValidId(id) && ValidId(g)
    ensures Run(states, steps) && |steps| == 2 && steps[0].op.DoReserve? && steps[1].op.DoStopped? && steps[1].puts == 1
    ensures !Watched(states[2].store)
  {
    hide Record, WithinLimit;
    var reserve, stop := DoReserve(id, g, 1, at), DoStopped(id, g, StopClock(at, at, at, at));
    assert Completions([], at) == [] by { NoCompletions(at); }
    var held := Exec(Empty, reserve, 1);
    assert held == State(Store(map[id := Entry(g, Reserved, None, None)], [], None, false), map[], at);
    var marked := Exec(held, stop, 1);
    assert marked.store.entries[id].stoppedAt.Some? && marked.store.alarm.None? && !marked.store.fired;
    states, steps := [Empty, held, marked], [Step(reserve, 1), Step(stop, 1)];
  }

  lemma NoCompletions(now: nat)
    ensures Completions([], now) == []
  {
  }

  /** A stop that gets past `#ensureAlarm` leaves an alarm behind every torn entry, whatever it found: the one
      that was set, or one due a minute later. */
  lemma EnsuredIsWatched(st: State, op: Op, puts: nat)
    requires op.DoStopped? && CanRun(st, op) && ValidId(op.id) && ValidId(op.generation)
    requires op.id in st.store.entries && st.store.entries[op.id].generation == op.generation
    requires |MarkWrites(st.store.entries, op.id, op.stop.arrival)|
             + |AlarmWrites(st.store.alarm, op.stop.alarm)| <= puts <= |PlanOf(st, op).writes|
    ensures Exec(st, op, puts).store.alarm == (if st.store.alarm.Some? then st.store.alarm else Some(op.stop.alarm + 60_000))
    ensures Watched(Exec(st, op, puts).store)
  {
    StopAlarm(st, op, puts);
  }

  /** A run none of whose steps dies at a mark keeps an alarm behind every torn entry. */
  lemma {:induction false} RunKeepsWatch(states: seq<State>, steps: seq<Step>, i: nat)
    requires Run(states, steps) && i < |states|
    requires forall j | 0 <= j < i :: !DiesAtMark(states[j], steps[j].op, steps[j].puts)
    ensures Watched(states[i].store)
  {
    hide Exec, PlanOf, CanRun, DiesAtMark;
    if i > 0 {
      RunKeepsWatch(states, steps, i - 1);
      AdmissionFencing.RunKeepsInv(states, steps, i - 1);
      WatchFailsExactly(states[i - 1], steps[i - 1].op, steps[i - 1].puts);
    } else {
      assert Empty.store.entries == map[];
    }
  }

  /** A watched torn entry can be finished by the runtime alone: the pending alarm fires once due, and
      its handler leaves no entry with a mark. */
  lemma PendingAlarmFinishes(st: State, at: nat, torn: seq<string>, clock: seq<(nat, nat)>)
    requires Inv(st) && AlarmPending(st.store) && st.now <= at && (st.store.alarm.Some? ==> st.store.alarm.value <= at)
    requires ListsTorn(st.store.entries, torn) && |clock| == |torn| && Ticks(at, clock)
    ensures !st.store.fired ==> CanRun(st, DoFire(at))
    ensures var ready := if st.store.fired then st.(now := at) else Exec(st, DoFire(at), 1);
            && CanRun(ready, DoAlarm(torn, clock))
            && var end := Exec(ready, DoAlarm(torn, clock), |PlanOf(ready, DoAlarm(torn, clock)).writes|).store;
            !AnyTorn(end.entries) && !end.fired
  {
    var fire := DoFire(at);
    var ready := if st.store.fired then st.(now := at) else Exec(st, fire, 1);
    assert ready == State(st.store.(alarm := if st.store.fired then st.store.alarm else None, fired := true), st.history, at);
    var alarm := DoAlarm(torn, clock);
    AlarmEffect(ready, alarm, |PlanOf(ready, alarm).writes|);
  }
}
