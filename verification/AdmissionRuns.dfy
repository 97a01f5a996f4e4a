/** What every run of the admission cell keeps, wherever its isolates die. */
module AdmissionRuns {
  import opened Receipts
  import opened Admission

  /** A key with a receipt inside retention is never live again. */
  ghost predicate FencesHold(st: State) {
    forall key | key in st.history && Live(st.store.entries, key.id, key.generation) ::
      !Retained(st.history, key, st.now)
  }

  ghost predicate Inv(st: State) {
    && Tracks(st.store.receipts, st.history, st.now)
    && FencesHold(st)
  }

  /** `key` has been stopped: its mark is in the entries or its receipt was recorded. */
  ghost predicate Fenced(st: State, key: Key) {
    key in st.history || Torn(st.store.entries, key)
  }

  predicate Torn(entries: Entries, key: Key) {
    key.id in entries && entries[key.id].generation == key.generation && entries[key.id].stoppedAt.Some?
  }

  /** What makes one write safe to commit. */
  ghost predicate Sound(st: State, w: Write) {
    match w
    case PutEntries(entries) =>
      forall id, g | Live(entries, id, g) && !Live(st.store.entries, id, g) ::
        !Retained(st.history, Key(id, g), st.now)
    case PutReceipts(receipts, key, at) =>
      && !Live(st.store.entries, key.id, key.generation)
      && exists read | st.now <= read <= at :: receipts == Record(st.store.receipts, key, read, at)
    case _ => true
  }

  lemma SoundWriteKeepsInv(st: State, w: Write)
    requires Inv(st) && Sound(st, w)
    ensures Inv(Commit(st, w))
  {
    if w.PutReceipts? {
      var read :| st.now <= read <= w.at && w.receipts == Record(st.store.receipts, w.key, read, w.at);
      RecordTracks(st.store.receipts, st.history, st.now, w.key, read, w.at);
      forall key | key in st.history && key != w.key && Live(st.store.entries, key.id, key.generation)
        ensures !Retained(st.history[w.key := w.at], key, w.at)
      {
        CrowdGrows(st.history, st.now, w.key, w.at, key);
      }
    }
  }

  lemma LaterKeepsInv(st: State, now: nat)
    requires Inv(st) && st.now <= now
    ensures Inv(st.(now := now))
  {
  }

  lemma SweepStep(st: State, id: string, read: nat, at: nat)
    requires Inv(st) && st.now <= read <= at
    requires id in st.store.entries && st.store.entries[id].stoppedAt.Some?
    ensures var key := Key(id, st.store.entries[id].generation);
            Inv(Commit(st, RecordWrite(st.store.receipts, key, read, at)))
  {
    SoundWriteKeepsInv(st, RecordWrite(st.store.receipts, Key(id, st.store.entries[id].generation), read, at));
  }

  predicate AllTorn(entries: Entries, ids: seq<string>) {
    forall id | id in ids :: id in entries && entries[id].stoppedAt.Some?
  }

  /** The state after the first `puts` receipts of a sweep. */
  function SweptTo(st: State, torn: seq<string>, clock: seq<(nat, nat)>, puts: nat): State
    requires puts <= |clock| == |torn| && AllTorn(st.store.entries, torn)
    decreases puts
  {
    if puts == 0 then st
    else
      assert torn[0] in torn && forall id | id in torn[1..] :: id in torn;
      var key := Key(torn[0], st.store.entries[torn[0]].generation);
      SweptTo(Commit(st, RecordWrite(st.store.receipts, key, clock[0].0, clock[0].1)), torn[1..], clock[1..], puts - 1)
  }

  lemma SweptNothing(st: State, torn: seq<string>, clock: seq<(nat, nat)>)
    requires |clock| == |torn| && AllTorn(st.store.entries, torn)
    ensures SweptTo(st, torn, clock, 0) == st
  {
  }

  /** A sweep peeled: its first receipt, then the rest from there. */
  lemma SweepFirst(st: State, torn: seq<string>, clock: seq<(nat, nat)>, puts: nat) returns (next: State)
    requires 0 < puts <= |clock| == |torn| && AllTorn(st.store.entries, torn) && Ticks(st.now, clock)
    ensures torn[0] in st.store.entries && st.store.entries[torn[0]].stoppedAt.Some?
    ensures next == Commit(st, RecordWrite(st.store.receipts, KeyOf(st.store.entries, torn[0]), clock[0].0, clock[0].1))
    ensures st.now <= clock[0].0 <= clock[0].1 == next.now
    ensures next.store.entries == st.store.entries && AllTorn(next.store.entries, torn[1..]) && Ticks(next.now, clock[1..])
    ensures next.history == st.history[KeyOf(st.store.entries, torn[0]) := next.now]
    ensures next.store.alarm == st.store.alarm && next.store.fired == st.store.fired
    ensures SweptTo(st, torn, clock, puts) == SweptTo(next, torn[1..], clock[1..], puts - 1)
  {
    hide Record;
    assert torn[0] in torn && forall id | id in torn[1..] :: id in torn;
    next := Commit(st, RecordWrite(st.store.receipts, KeyOf(st.store.entries, torn[0]), clock[0].0, clock[0].1));
  }

  lemma {:induction false} SweepKeepsInv(st: State, torn: seq<string>, clock: seq<(nat, nat)>, puts: nat)
    requires Inv(st) && puts <= |clock| == |torn| && Ticks(st.now, clock)
    requires AllTorn(st.store.entries, torn)
    ensures Inv(SweptTo(st, torn, clock, puts))
    ensures SweptTo(st, torn, clock, puts).store.entries == st.store.entries
    decreases puts
  {
    hide SweptTo, Ticks, Record, AllTorn, Commit, Inv;
    if puts == 0 {
      SweptNothing(st, torn, clock);
    } else {
      var next := SweepFirst(st, torn, clock, puts);
      SweepStep(st, torn[0], clock[0].0, clock[0].1);
      SweepKeepsInv(next, torn[1..], clock[1..], puts - 1);
    }
  }

  lemma {:induction false} SweepLength(receipts: seq<Receipt>, entries: Entries, torn: seq<string>, clock: seq<(nat, nat)>)
    requires |clock| == |torn| && AllTorn(entries, torn)
    ensures |SweepWrites(receipts, entries, torn, clock)| == |torn|
    decreases |torn|
  {
    if torn != [] {
      assert forall id | id in torn[1..] :: id in torn;
      var first := RecordWrite(receipts, Key(torn[0], entries[torn[0]].generation), clock[0].0, clock[0].1);
      SweepLength(first.receipts, entries, torn[1..], clock[1..]);
    }
  }

  /** Committing the receipts a sweep issues, and then what follows them. */
  lemma {:induction false} SweepCommits(st: State, torn: seq<string>, clock: seq<(nat, nat)>, tail: seq<Write>, puts: nat)
    requires puts <= |clock| == |torn| && AllTorn(st.store.entries, torn)
    ensures |SweepWrites(st.store.receipts, st.store.entries, torn, clock)| == |torn|
    ensures CommitSome(st, SweepWrites(st.store.receipts, st.store.entries, torn, clock) + tail, puts)
            == SweptTo(st, torn, clock, puts)
    decreases puts
  {
    hide Record;
    SweepLength(st.store.receipts, st.store.entries, torn, clock);
    if puts > 0 {
      assert torn[0] in torn && forall id | id in torn[1..] :: id in torn;
      var key := Key(torn[0], st.store.entries[torn[0]].generation);
      var w := RecordWrite(st.store.receipts, key, clock[0].0, clock[0].1);
      var next := Commit(st, w);
      var rest := SweepWrites(w.receipts, st.store.entries, torn[1..], clock[1..]);
      assert (SweepWrites(st.store.receipts, st.store.entries, torn, clock) + tail)[1..] == rest + tail;
      SweepCommits(next, torn[1..], clock[1..], tail, puts - 1);
    }
  }

  // ---- every step of every operation ----

  lemma ReserveKeepsInv(st: State, op: Op, puts: nat)
    requires Inv(st) && op.DoReserve? && CanRun(st, op) && puts <= |PlanOf(st, op).writes|
    ensures Inv(Exec(st, op, puts))
  {
    hide Record, HasCompletion;
    var st0 := st.(now := op.at);
    LaterKeepsInv(st, op.at);
    hide Tracks;
    if puts > 0 {
      var w := PlanOf(st, op).writes[0];
      forall id, g | Live(w.entries, id, g) && !Live(st0.store.entries, id, g)
        ensures !Retained(st0.history, Key(id, g), st0.now)
      {
        if Retained(st0.history, Key(id, g), st0.now) {
          RetainedIsFound(st.store.receipts, st.history, st.now, Key(id, g), op.at);
          assert false;
        }
      }
      SoundWriteKeepsInv(st0, w);
    }
  }

  lemma StartedKeepsInv(st: State, op: Op, puts: nat)
    requires Inv(st) && op.DoStarted? && CanRun(st, op) && puts <= |PlanOf(st, op).writes|
    ensures Inv(Exec(st, op, puts))
  {
    hide HasCompletion;
    if puts > 0 {
      SoundWriteKeepsInv(st.(now := op.at), PlanOf(st, op).writes[0]);
    }
  }

  lemma CommitCons(st: State, w: Write, ws: seq<Write>, puts: nat)
    requires 0 < puts <= 1 + |ws|
    ensures CommitSome(st, [w] + ws, puts) == CommitSome(Commit(st, w), ws, puts - 1)
  {
    assert ([w] + ws)[1..] == ws;
  }

  /** The receipt and the release of an entry already marked. */
  lemma ReleaseKeepsInv(st: State, id: string, g: string, read: nat, at: nat, puts: nat)
    requires Inv(st) && Torn(st.store.entries, Key(id, g)) && st.now <= read <= at && puts <= 2
    ensures Inv(CommitSome(st, [RecordWrite(st.store.receipts, Key(id, g), read, at), PutEntries(st.store.entries - {id})], puts))
  {
    hide Record, Retained;
    if puts > 0 {
      var receipt, release := RecordWrite(st.store.receipts, Key(id, g), read, at), PutEntries(st.store.entries - {id});
      SoundWriteKeepsInv(st, receipt);
      assert [receipt, release] == [receipt] + [release];
      CommitCons(st, receipt, [release], puts);
      SoundWriteKeepsInv(Commit(st, receipt), release);
    }
  }

  lemma MarkedStopKeepsInv(st: State, id: string, g: string, alarm: seq<Write>, read: nat, at: nat, puts: nat)
    requires Inv(st) && Torn(st.store.entries, Key(id, g)) && st.now <= read <= at && puts <= |alarm| + 2
    requires alarm == [] || (|alarm| == 1 && alarm[0].SetAlarm?)
    ensures var tail := [RecordWrite(st.store.receipts, Key(id, g), read, at), PutEntries(st.store.entries - {id})];
            Inv(CommitSome(st, alarm + tail, puts))
  {
    var tail := [RecordWrite(st.store.receipts, Key(id, g), read, at), PutEntries(st.store.entries - {id})];
    if alarm == [] {
      assert alarm + tail == tail;
      ReleaseKeepsInv(st, id, g, read, at, puts);
    } else if puts > 0 {
      SoundWriteKeepsInv(st, alarm[0]);
      hide Record, Inv;
      assert alarm == [alarm[0]];
      CommitCons(st, alarm[0], tail, puts);
      ReleaseKeepsInv(Commit(st, alarm[0]), id, g, read, at, puts - 1);
    }
  }

  lemma MarkKeepsInv(st: State, id: string, at: nat)
    requires Inv(st) && id in st.store.entries
    ensures Inv(Commit(st, PutEntries(Marked(st.store.entries, id, at))))
  {
    SoundWriteKeepsInv(st, PutEntries(Marked(st.store.entries, id, at)));
  }

  /** A stop that finds its own entry: mark, alarm, receipt, release. */
  lemma OwnStopKeepsInv(st: State, id: string, g: string, c: StopClock, puts: nat)
    requires Inv(st) && id in st.store.entries && st.store.entries[id].generation == g
    requires st.now <= c.read <= c.record
    ensures var tail := [RecordWrite(st.store.receipts, Key(id, g), c.read, c.record),
                         PutEntries(Marked(st.store.entries, id, c.arrival) - {id})];
            var ws := MarkWrites(st.store.entries, id, c.arrival) + (AlarmWrites(st.store.alarm, c.alarm) + tail);
            puts <= |ws| ==> Inv(CommitSome(st, ws, puts))
  {
    hide Record, Inv;
    var marked, alarm := Marked(st.store.entries, id, c.arrival), AlarmWrites(st.store.alarm, c.alarm);
    var tail := [RecordWrite(st.store.receipts, Key(id, g), c.read, c.record), PutEntries(marked - {id})];
    MarkKeepsInv(st, id, c.arrival);
    if st.store.entries[id].stoppedAt.Some? {
      assert [] + (alarm + tail) == alarm + tail;
      if puts <= |alarm + tail| { MarkedStopKeepsInv(st, id, g, alarm, c.read, c.record, puts); }
    } else if 0 < puts <= 1 + |alarm + tail| {
      CommitCons(st, PutEntries(marked), alarm + tail, puts);
      MarkedStopKeepsInv(Commit(st, PutEntries(marked)), id, g, alarm, c.read, c.record, puts - 1);
    }
  }

  lemma StoppedKeepsInv(st: State, op: Op, puts: nat)
    requires Inv(st) && op.DoStopped? && CanRun(st, op) && puts <= |PlanOf(st, op).writes|
    ensures Inv(Exec(st, op, puts))
  {
    hide Record, Tracks, Retained;
    var c, id, g := op.stop, op.id, op.generation;
    var st0 := st.(now := c.alarm);
    LaterKeepsInv(st, c.alarm);
    if puts == 0 {
    } else if id !in st.store.entries || st.store.entries[id].generation != g {
      SoundWriteKeepsInv(st0, RecordWrite(st.store.receipts, Key(id, g), c.read, c.record));
    } else {
      hide Record, Inv;
      OwnStopKeepsInv(st0, id, g, c, puts);
    }
  }

  lemma {:induction false} CommitAppend(st: State, a: seq<Write>, b: seq<Write>, puts: nat)
    requires |a| <= puts <= |a| + |b|
    ensures CommitSome(st, a + b, puts) == CommitSome(CommitSome(st, a + b, |a|), b, puts - |a|)
    decreases |a|
  {
    if a == [] {
      assert a + b == b;
    } else {
      assert (a + b)[1..] == a[1..] + b;
      CommitAppend(Commit(st, a[0]), a[1..], b, puts - 1);
    }
  }

  /** What follows the receipts of a sweep: the release, when there is one, and the return. */
  lemma FinishCommits(st: State, torn: seq<string>, puts: nat)
    requires puts <= |ReleaseWrites(st.store.entries, torn)| + 1
    ensures var tail := ReleaseWrites(st.store.entries, torn) + [AlarmDone];
            var released := st.store.entries - (set id | id in torn);
            CommitSome(st, tail, puts) ==
              if puts == 0 then st
              else st.(store := st.store.(entries := released,
                                          fired := if puts == |tail| then false else st.store.fired))
  {
    var release := ReleaseWrites(st.store.entries, torn);
    if torn == [] {
      assert release + [AlarmDone] == [AlarmDone];
      assert st.store.entries - (set id | id in torn) == st.store.entries;
    } else if puts > 0 {
      CommitCons(st, release[0], [AlarmDone], puts);
      assert release + [AlarmDone] == [release[0]] + [AlarmDone];
    }
  }

  /** A cut alarm: the receipts it reached, then the release and the return. */
  lemma AlarmCommits(st: State, op: Op, puts: nat)
    requires op.DoAlarm? && CanRun(st, op) && puts <= |PlanOf(st, op).writes|
    ensures var st0 := st.(now := FirstReading(op, st.now));
            && |PlanOf(st, op).writes| == |op.torn| + |ReleaseWrites(st.store.entries, op.torn)| + 1
            && Exec(st, op, puts) ==
                 if puts <= |op.torn| then SweptTo(st0, op.torn, op.clock, puts)
                 else CommitSome(SweptTo(st0, op.torn, op.clock, |op.torn|),
                                 ReleaseWrites(st.store.entries, op.torn) + [AlarmDone], puts - |op.torn|)
  {
    hide Record;
    var torn, clock := op.torn, op.clock;
    var st0 := st.(now := FirstReading(op, st.now));
    var tail := ReleaseWrites(st.store.entries, torn) + [AlarmDone];
    SweepCommits(st0, torn, clock, tail, if puts <= |torn| then puts else |torn|);
    if puts > |torn| {
      CommitAppend(st0, SweepWrites(st.store.receipts, st.store.entries, torn, clock), tail, puts);
    }
  }

  lemma AlarmKeepsInv(st: State, op: Op, puts: nat)
    requires Inv(st) && op.DoAlarm? && CanRun(st, op) && puts <= |PlanOf(st, op).writes|
    ensures Inv(Exec(st, op, puts))
  {
    hide Record, Retained, Tracks, SweptTo, PlanOf, Exec;
    var torn, clock := op.torn, op.clock;
    var st0 := st.(now := FirstReading(op, st.now));
    LaterKeepsInv(st, st0.now);
    AlarmCommits(st, op, puts);
    SweepKeepsInv(st0, torn, clock, if puts <= |torn| then puts else |torn|);
    if puts > |torn| {
      FinishCommits(SweptTo(st0, torn, clock, |torn|), torn, puts - |torn|);
    }
  }

  /** Any operation, dying after any number of its writes, keeps the invariant. */
  lemma StepKeepsInv(st: State, op: Op, puts: nat)
    requires Inv(st) && CanRun(st, op) && puts <= |PlanOf(st, op).writes|
    ensures Inv(Exec(st, op, puts))
  {
    hide Record, HasCompletion;
    match op
    case DoReserve(_, _, _, _) => ReserveKeepsInv(st, op, puts);
    case DoStarted(_, _, _, _) => StartedKeepsInv(st, op, puts);
    case DoHeartbeat(_, _, _, at) => LaterKeepsInv(st, at);
    case DoStopped(_, _, _) => StoppedKeepsInv(st, op, puts);
    case DoFire(at) => LaterKeepsInv(st, at);
    case DoAlarm(_, _) => AlarmKeepsInv(st, op, puts);
  }

  // ---- what an operation leaves behind ----

  function KeyOf(entries: Entries, id: string): Key
    requires id in entries
  {
    Key(id, entries[id].generation)
  }

  /** The history only gains keys and later times. */
  ghost predicate Extends(before: map<Key, nat>, after: map<Key, nat>) {
    forall k | k in before :: k in after && before[k] <= after[k]
  }

  /** A stop of its own entry, cut after `puts` writes: nothing, the mark, the receipt too, the release too. */
  lemma StopEffect(st: State, op: Op, puts: nat)
    requires op.DoStopped? && CanRun(st, op) && puts <= |PlanOf(st, op).writes|
    requires ValidId(op.id) && ValidId(op.generation)
    requires op.id in st.store.entries && st.store.entries[op.id].generation == op.generation
    ensures var end, full := Exec(st, op, puts), |PlanOf(st, op).writes|;
            var marked := Marked(st.store.entries, op.id, op.stop.arrival);
            && full >= 2
            && (puts == full ==> end.store.entries == marked - {op.id})
            && (0 < puts < full ==> end.store.entries == marked)
            && (puts == 0 ==> end.store.entries == st.store.entries)
            && end.history == (if puts + 1 >= full then st.history[Key(op.id, op.generation) := op.stop.record] else st.history)
            && end.store.receipts == (if puts + 1 >= full
                 then Record(st.store.receipts, Key(op.id, op.generation), op.stop.read, op.stop.record)
                 else st.store.receipts)
            && st.now <= end.now
  {
    hide Record;
    var c, id, g := op.stop, op.id, op.generation;
    var st0 := st.(now := c.alarm);
    var marked := Marked(st.store.entries, id, c.arrival);
    var tail := [RecordWrite(st.store.receipts, Key(id, g), c.read, c.record), PutEntries(marked - {id})];
    var alarm := AlarmWrites(st.store.alarm, c.alarm);
    if st.store.entries[id].stoppedAt.Some? {
      assert [] + (alarm + tail) == alarm + tail;
      TailEffect(st0, alarm, tail, puts);
    } else if puts > 0 {
      CommitCons(st0, PutEntries(marked), alarm + tail, puts);
      TailEffect(Commit(st0, PutEntries(marked)), alarm, tail, puts - 1);
    }
  }

  lemma TailEffect(st: State, alarm: seq<Write>, tail: seq<Write>, puts: nat)
    requires alarm == [] || (|alarm| == 1 && alarm[0].SetAlarm?)
    requires |tail| == 2 && tail[0].PutReceipts? && tail[1].PutEntries? && puts <= |alarm| + 2
    ensures var end := CommitSome(st, alarm + tail, puts);
            && end.store.entries == (if puts == |alarm| + 2 then tail[1].entries else st.store.entries)
            && end.history == (if puts >= |alarm| + 1 then st.history[tail[0].key := tail[0].at] else st.history)
            && end.store.receipts == (if puts >= |alarm| + 1 then tail[0].receipts else st.store.receipts)
            && end.now == (if puts >= |alarm| + 1 then tail[0].at else st.now)
  {
    if alarm == [] {
      assert alarm + tail == tail;
    } else if puts > 0 {
      assert alarm == [alarm[0]];
      CommitCons(st, alarm[0], tail, puts);
    }
  }

  lemma {:induction false} SweepEffect(st: State, torn: seq<string>, clock: seq<(nat, nat)>, puts: nat)
    requires puts <= |clock| == |torn| && AllTorn(st.store.entries, torn) && Ticks(st.now, clock)
    requires forall k | k in st.history :: st.history[k] <= st.now
    ensures var end := SweptTo(st, torn, clock, puts);
            && end.store.entries == st.store.entries && st.now <= end.now
            && end.store.alarm == st.store.alarm && end.store.fired == st.store.fired
            && Extends(st.history, end.history)
            && (forall i | 0 <= i < puts :: Recorded(st, end, torn[i]))
            && (forall k | k in end.history && k !in st.history :: Torn(st.store.entries, k))
    decreases puts
  {
    hide SweptTo, Ticks, Record, AllTorn, Commit;
    if puts == 0 {
      SweptNothing(st, torn, clock);
    } else {
      var next := SweepFirst(st, torn, clock, puts);
      SweepEffect(next, torn[1..], clock[1..], puts - 1);
      var end := SweptTo(st, torn, clock, puts);
      forall i | 0 <= i < puts ensures Recorded(st, end, torn[i]) {
        if i > 0 { assert Recorded(next, end, torn[1..][i - 1]); }
      }
    }
  }

  /** The receipt of `id` was recorded on the way from `st` to `end`. */
  predicate Recorded(st: State, end: State, id: string) {
    id in st.store.entries && KeyOf(st.store.entries, id) in end.history
    && st.now <= end.history[KeyOf(st.store.entries, id)]
  }

  function WithoutTorn(entries: Entries): Entries {
    map id | id in entries && entries[id].stoppedAt.None? :: entries[id]
  }

  /** An alarm cut after `puts` writes has receipts for the torn stops it reached, and releases only once
      it has all; it counts as handled only past the release. */
  lemma AlarmEffect(st: State, op: Op, puts: nat)
    requires op.DoAlarm? && CanRun(st, op) && puts <= |PlanOf(st, op).writes|
    requires forall k | k in st.history :: st.history[k] <= st.now
    ensures var end, full := Exec(st, op, puts), |PlanOf(st, op).writes|;
            && full > |op.torn|
            && end.store.entries == (if puts <= |op.torn| then st.store.entries else WithoutTorn(st.store.entries))
            && end.store.fired == (puts < full)
            && Extends(st.history, end.history) && st.now <= end.now
            && (forall k | k in end.history && k !in st.history :: Torn(st.store.entries, k))
            && (puts >= |op.torn| ==> forall id | id in st.store.entries && st.store.entries[id].stoppedAt.Some? ::
                  KeyOf(st.store.entries, id) in end.history && st.now <= end.history[KeyOf(st.store.entries, id)])
  {
    hide Record, PlanOf, Exec;
    var torn, clock := op.torn, op.clock;
    var st0 := st.(now := FirstReading(op, st.now));
    var receipts := if puts <= |torn| then puts else |torn|;
    AlarmCommits(st, op, puts);
    SweepEffect(st0, torn, clock, receipts);
    assert st.store.entries - (set id | id in torn) == WithoutTorn(st.store.entries);
    if puts > |torn| { FinishCommits(SweptTo(st0, torn, clock, |torn|), torn, puts - |torn|); }
    forall id | puts >= |torn| && id in st.store.entries && st.store.entries[id].stoppedAt.Some?
      ensures KeyOf(st.store.entries, id) in Exec(st, op, puts).history
              && st.now <= Exec(st, op, puts).history[KeyOf(st.store.entries, id)]
    {
      var i :| 0 <= i < |torn| && torn[i] == id;
      assert Recorded(st0, SweptTo(st0, torn, clock, |torn|), torn[i]);
    }
  }
}
