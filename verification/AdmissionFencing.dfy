/** What callers rely on: a stopped run is never admitted again, torn stops finish, no entry is lost. */
module AdmissionFencing {
  import Collections
  import opened Options
  import opened Receipts
  import opened Admission
  import opened AdmissionRuns

  datatype Step = Step(op: Op, puts: nat)

  /** A run from empty storage: each step is one operation whose isolate dies after `puts` writes. */
  ghost predicate Run(states: seq<State>, steps: seq<Step>) {
    && |states| == |steps| + 1
    && states[0] == Empty
    && forall i | 0 <= i < |steps| ::
         && CanRun(states[i], steps[i].op)
         && steps[i].puts <= |PlanOf(states[i], steps[i].op).writes|
         && states[i + 1] == Exec(states[i], steps[i].op, steps[i].puts)
  }

  lemma {:induction false} RunKeepsInv(states: seq<State>, steps: seq<Step>, i: nat)
    requires Run(states, steps) && i < |states|
    ensures Inv(states[i])
  {
    if i > 0 {
      RunKeepsInv(states, steps, i - 1);
      StepKeepsInv(states[i - 1], steps[i - 1].op, steps[i - 1].puts);
    }
  }

  /** The answers a caller may be waiting for on behalf of `key` at clock reading `at`. */
  predicate Asks(op: Op, key: Key, at: nat) {
    (op.DoReserve? || op.DoStarted? || op.DoHeartbeat?) && op.id == key.id && op.generation == key.generation && op.at == at
  }

  // ---- the effect of one step on one entry ----

  /** Entries an operation does not name, or that are not torn, stay as they are; a named one keeps
      its generation and never loses its mark; an entry goes only with its receipt on record. */
  lemma EntryFate(st: State, op: Op, puts: nat, id: string)
    requires CanRun(st, op) && puts <= |PlanOf(st, op).writes|
    requires forall k | k in st.history :: st.history[k] <= st.now
    requires id in st.store.entries
    ensures var end := Exec(st, op, puts);
            var was := st.store.entries[id];
            && st.now <= end.now && Extends(st.history, end.history)
            && (id in end.store.entries ==>
                  end.store.entries[id].generation == was.generation
                  && (was.stoppedAt.Some? ==> end.store.entries[id].stoppedAt == was.stoppedAt))
            && (id !in end.store.entries ==>
                  KeyOf(st.store.entries, id) in end.history
                  && st.now <= end.history[KeyOf(st.store.entries, id)])
            && (id in end.store.entries || op.DoAlarm? || (op.DoStopped? && op.id == id && op.generation == was.generation))
            && (was.stoppedAt.None? && !((op.DoStopped? || op.DoStarted?) && op.id == id) ==>
                  id in end.store.entries && end.store.entries[id] == was)
            && (op.DoStarted? ==> id in end.store.entries && end.store.entries[id].stoppedAt == was.stoppedAt)
  {
    hide Record, HasCompletion, WithinLimit;
    match op
    case DoReserve(_, _, _, _) =>
    case DoStarted(_, _, _, _) =>
    case DoHeartbeat(_, _, _, _) =>
    case DoStopped(oid, g, _) =>
      if ValidId(oid) && ValidId(g) && oid in st.store.entries && st.store.entries[oid].generation == g {
        StopEffect(st, op, puts);
      }
    case DoFire(_) =>
    case DoAlarm(_, _) => AlarmEffect(st, op, puts);
  }

  /** No entry ever disappears before its receipt is written, and only a stop of that very
      generation, or the alarm finishing one, removes it. */
  lemma NoEntryVanishesUnrecorded(st: State, op: Op, puts: nat, id: string)
    requires Inv(st) && CanRun(st, op) && puts <= |PlanOf(st, op).writes|
    requires id in st.store.entries && id !in Exec(st, op, puts).store.entries
    ensures var key := KeyOf(st.store.entries, id);
            var end := Exec(st, op, puts);
            && key in end.history && st.now <= end.history[key] <= end.now
            && (Retained(end.history, key, end.now) ==> HasCompletion(end.store.receipts, key, end.now))
            && ((op.DoAlarm? && st.store.entries[id].stoppedAt.Some?)
                || (op.DoStopped? && Key(op.id, op.generation) == key))
  {
    EntryFate(st, op, puts, id);
    StepKeepsInv(st, op, puts);
    var end, key := Exec(st, op, puts), KeyOf(st.store.entries, id);
    if Retained(end.history, key, end.now) {
      RetainedIsFound(end.store.receipts, end.history, end.now, key, end.now);
    }
    if op.DoAlarm? && st.store.entries[id].stoppedAt.None? { AlarmEffect(st, op, puts); }
  }

  /** A stop naming another generation, or an unknown id, leaves every entry as it is. */
  lemma OtherGenerationIsUndisturbed(st: State, op: Op, puts: nat)
    requires op.DoStopped? && CanRun(st, op) && puts <= |PlanOf(st, op).writes|
    requires op.id in st.store.entries ==> st.store.entries[op.id].generation != op.generation
    ensures Exec(st, op, puts).store.entries == st.store.entries
  {
    hide Record;
  }

  /** An entry appears only by the reserve of its pair, which found no receipt and room under the cap. */
  lemma EntryOrigin(st: State, op: Op, puts: nat, id: string)
    requires CanRun(st, op) && puts <= |PlanOf(st, op).writes|
    requires forall k | k in st.history :: st.history[k] <= st.now
    requires id !in st.store.entries && id in Exec(st, op, puts).store.entries
    ensures op.DoReserve? && op.id == id && |st.store.entries| < op.cap
    ensures Exec(st, op, puts).store.entries == st.store.entries[id := Entry(op.generation, Reserved, None, None)]
    ensures !HasCompletion(st.store.receipts, Key(id, op.generation), op.at)
  {
    hide Record, HasCompletion, WithinLimit;
    match op
    case DoReserve(_, _, _, _) =>
    case DoStarted(_, _, _, _) =>
    case DoHeartbeat(_, _, _, _) =>
    case DoStopped(oid, g, _) =>
      if ValidId(oid) && ValidId(g) && oid in st.store.entries && st.store.entries[oid].generation == g {
        StopEffect(st, op, puts);
      }
    case DoFire(_) =>
    case DoAlarm(_, _) => AlarmEffect(st, op, puts);
  }

  /** A receipt appears only by the stop of its pair or by the alarm finishing a torn one. */
  lemma ReceiptOrigin(st: State, op: Op, puts: nat, key: Key)
    requires CanRun(st, op) && puts <= |PlanOf(st, op).writes|
    requires forall k | k in st.history :: st.history[k] <= st.now
    requires key !in st.history && key in Exec(st, op, puts).history
    ensures (op.DoStopped? && key == Key(op.id, op.generation)) || (op.DoAlarm? && Torn(st.store.entries, key))
  {
    hide Record, HasCompletion, WithinLimit;
    match op
    case DoReserve(_, _, _, _) =>
    case DoStarted(_, _, _, _) =>
    case DoHeartbeat(_, _, _, _) =>
    case DoStopped(oid, g, _) =>
      if ValidId(oid) && ValidId(g) && oid in st.store.entries && st.store.entries[oid].generation == g {
        StopEffect(st, op, puts);
      }
    case DoFire(_) =>
    case DoAlarm(_, _) => AlarmEffect(st, op, puts);
  }

  lemma OneStepCount(st: State, op: Op, puts: nat)
    requires CanRun(st, op) && puts <= |PlanOf(st, op).writes|
    requires forall k | k in st.history :: st.history[k] <= st.now
    ensures var before, after := st.store.entries, Exec(st, op, puts).store.entries;
            |after| <= |before| || (op.DoReserve? && |before| < op.cap && |after| == |before| + 1)
  {
    hide Exec, PlanOf, CanRun, HasCompletion;
    var before, after := st.store.entries, Exec(st, op, puts).store.entries;
    if id :| id in after && id !in before {
      EntryOrigin(st, op, puts, id);
    } else {
      assert after.Keys <= before.Keys;
      Collections.SubsetSize(after.Keys, before.Keys);
      assert |after| == |after.Keys| && |before| == |before.Keys|;
    }
  }

  /** Whatever cap each reserve reads, a run never takes the entries past both what it began with and
      the largest of those caps; a run from empty storage stays under that cap, and one whose cap has
      been lowered does not grow until it is below it. */
  lemma {:induction false} EntriesStayUnderTheCaps(states: seq<State>, steps: seq<Step>, i: nat, j: nat, cap: nat)
    requires Run(states, steps) && i <= j < |states|
    requires forall k | i <= k < j && steps[k].op.DoReserve? :: steps[k].op.cap <= cap
    ensures var began, ended := |states[i].store.entries|, |states[j].store.entries|;
            ended <= (if began < cap then cap else began) && (i == 0 ==> ended <= cap)
  {
    hide Exec, PlanOf, CanRun;
    if i < j {
      EntriesStayUnderTheCaps(states, steps, i, j - 1, cap);
      RunKeepsInv(states, steps, j - 1);
      OneStepCount(states[j - 1], steps[j - 1].op, steps[j - 1].puts);
    }
  }

  lemma {:induction false} FencedStays(st: State, op: Op, puts: nat, key: Key)
    requires Inv(st) && Fenced(st, key) && CanRun(st, op) && puts <= |PlanOf(st, op).writes|
    ensures Fenced(Exec(st, op, puts), key)
  {
    if key !in st.history {
      EntryFate(st, op, puts, key.id);
    } else {
      HistoryGrows(st, op, puts);
    }
  }

  lemma HistoryGrows(st: State, op: Op, puts: nat)
    requires CanRun(st, op) && puts <= |PlanOf(st, op).writes|
    requires forall k | k in st.history :: st.history[k] <= st.now
    ensures Extends(st.history, Exec(st, op, puts).history)
  {
    hide Record, HasCompletion, WithinLimit;
    if op.DoAlarm? {
      AlarmEffect(st, op, puts);
    } else if op.DoStopped? && ValidId(op.id) && ValidId(op.generation)
              && op.id in st.store.entries && st.store.entries[op.id].generation == op.generation {
      StopEffect(st, op, puts);
    }
  }

  lemma {:induction false} FencedForever(states: seq<State>, steps: seq<Step>, i: nat, j: nat, key: Key)
    requires Run(states, steps) && i <= j < |states| && Fenced(states[i], key)
    ensures Fenced(states[j], key)
  {
    hide Exec, PlanOf, CanRun, Inv, Fenced;
    if i < j {
      FencedForever(states, steps, i, j - 1, key);
      RunKeepsInv(states, steps, j - 1);
      FencedStays(states[j - 1], steps[j - 1].op, steps[j - 1].puts, key);
    }
  }

  // ---- the theorems ----

  lemma FencedIsRefused(st: State, key: Key, op: Op, at: nat)
    requires Inv(st) && Fenced(st, key) && st.now <= at && Asks(op, key, at)
    requires key in st.history ==> Torn(st.store.entries, key) || Retained(st.history, key, at)
    ensures CanRun(st, op) && PlanOf(st, op) == Plan([], Denied(Unavailable))
  {
    if key in st.history && !Torn(st.store.entries, key) {
      RetainedIsFound(st.store.receipts, st.history, st.now, key, at);
      hide HasCompletion, Tracks;
      assert Retained(st.history, key, st.now);
    }
  }

  /** Once the stop mark of (id, generation) is durable, or a stop that found no such entry has
      recorded it, every later reserve, started and heartbeat of that pair is refused, wherever
      isolates die in between: while the entry is still torn, or its receipt is under 24 hours old
      with fewer than 4096 others at or after it. */
  lemma FencingSurvivesCrashes(states: seq<State>, steps: seq<Step>, i: nat, j: nat, key: Key, op: Op, at: nat)
    requires Run(states, steps) && i <= j < |states|
    requires Torn(states[i].store.entries, key) || key in states[i].history
    requires states[j].now <= at && Asks(op, key, at)
    requires key in states[j].history ==> Torn(states[j].store.entries, key) || Retained(states[j].history, key, at)
    ensures CanRun(states[j], op) && PlanOf(states[j], op) == Plan([], Denied(Unavailable))
  {
    RunKeepsInv(states, steps, j);
    FencedForever(states, steps, i, j, key);
    FencedIsRefused(states[j], key, op, at);
  }

  /** Past the retention bound the fence is gone: a free id under the cap is admitted again. */
  lemma ForgottenIsAdmitted(st: State, key: Key, cap: nat, at: nat)
    requires Inv(st) && st.now <= at && CrowdedOut(st.history, key, at)
    requires ValidId(key.id) && ValidId(key.generation)
    requires key.id !in st.store.entries && |st.store.entries| < cap
    ensures PlanOf(st, DoReserve(key.id, key.generation, cap, at)).answer == Admitted
  {
    CrowdedOutIsForgotten(st.store.receipts, st.history, st.now, key, at);
  }

  /** A stop that returns has put the pair behind the fence, whether or not it found the entry. */
  lemma StopReturnsFenced(st: State, op: Op)
    requires Inv(st) && op.DoStopped? && CanRun(st, op) && ValidId(op.id) && ValidId(op.generation)
    ensures var end := Exec(st, op, |PlanOf(st, op).writes|);
            var key := Key(op.id, op.generation);
            && PlanOf(st, op).answer == Released
            && end.history == st.history[key := op.stop.record]
            && !Torn(end.store.entries, key) && !Live(end.store.entries, key.id, key.generation)
            && Receipt(key, op.stop.record) in end.store.receipts
  {
    RecordFacts(st.store.receipts, Key(op.id, op.generation), op.stop.read, op.stop.record);
    hide Record;
    if op.id in st.store.entries && st.store.entries[op.id].generation == op.generation {
      StopEffect(st, op, |PlanOf(st, op).writes|);
    }
  }

  /** Every other entry without a mark is what it was. */
  predicate OthersKept(before: Entries, after: Entries, id: string) {
    forall k | k in before && k != id && before[k].stoppedAt.None? :: k in after && after[k] == before[k]
  }

  /** The end of a torn stop: its entry is gone and its receipt is on record. */
  ghost predicate Finished(end: State, key: Key) {
    && key.id !in end.store.entries
    && key in end.history
    && (Retained(end.history, key, end.now) ==> HasCompletion(end.store.receipts, key, end.now))
  }

  /** What a stop leaves past its mark: the marked entry, or no entry and the receipt. */
  predicate PastMark(st: State, key: Key) {
    if key.id in st.store.entries then Torn(st.store.entries, key) else key in st.history
  }

  lemma PrefixIsPastMark(st: State, stop: Op, puts: nat)
    requires stop.DoStopped? && CanRun(st, stop) && 0 < puts <= |PlanOf(st, stop).writes|
    requires Live(st.store.entries, stop.id, stop.generation) && ValidId(stop.id) && ValidId(stop.generation)
    ensures PastMark(Exec(st, stop, puts), Key(stop.id, stop.generation))
    ensures OthersKept(st.store.entries, Exec(st, stop, puts).store.entries, stop.id)
  {
    StopEffect(st, stop, puts);
    hide PlanOf, Exec, CanRun;
  }

  lemma RecordedIsFinished(end: State, key: Key)
    requires Inv(end) && key in end.history && key.id !in end.store.entries
    ensures Finished(end, key)
  {
    if Retained(end.history, key, end.now) {
      RetainedIsFound(end.store.receipts, end.history, end.now, key, end.now);
    }
  }

  lemma AlarmFinishes(torn: State, alarm: Op, key: Key)
    requires Inv(torn) && PastMark(torn, key) && alarm.DoAlarm? && CanRun(torn, alarm)
    ensures var end := Exec(torn, alarm, |PlanOf(torn, alarm).writes|);
            Finished(end, key) && OthersKept(torn.store.entries, end.store.entries, key.id)
  {
    var full := |PlanOf(torn, alarm).writes|;
    StepKeepsInv(torn, alarm, full);
    AlarmEffect(torn, alarm, full);
    hide PlanOf, Exec, CanRun, Tracks;
    RecordedIsFinished(Exec(torn, alarm, full), key);
  }

  lemma StopFinishes(torn: State, again: Op, key: Key)
    requires Inv(torn) && PastMark(torn, key) && CanRun(torn, again) && ValidId(key.id) && ValidId(key.generation)
    requires again.DoStopped? && Key(again.id, again.generation) == key
    ensures var end := Exec(torn, again, |PlanOf(torn, again).writes|);
            Finished(end, key) && OthersKept(torn.store.entries, end.store.entries, key.id)
  {
    hide Record, HasCompletion, WithinLimit, Tracks;
    var full := |PlanOf(torn, again).writes|;
    StepKeepsInv(torn, again, full);
    StopReturnsFenced(torn, again);
    if key.id in torn.store.entries {
      StopEffect(torn, again, full);
    } else {
      OtherGenerationIsUndisturbed(torn, again, full);
    }
    hide PlanOf, Exec, CanRun;
    RecordedIsFinished(Exec(torn, again, full), key);
  }

  /** Torn stops converge: whatever prefix of a stop past its mark a crash leaves behind, running
      either the alarm or the stop again ends with the entry gone, its receipt on record, and every
      other unstopped entry as it was before the stop. */
  lemma TornStopsConverge(st: State, stop: Op, puts: nat, retry: Op)
    requires Inv(st) && stop.DoStopped? && CanRun(st, stop) && 0 < puts <= |PlanOf(st, stop).writes|
    requires Live(st.store.entries, stop.id, stop.generation) && ValidId(stop.id) && ValidId(stop.generation)
    requires CanRun(Exec(st, stop, puts), retry)
    requires retry.DoAlarm? || (retry.DoStopped? && retry.id == stop.id && retry.generation == stop.generation)
    ensures var torn := Exec(st, stop, puts);
            var end := Exec(torn, retry, |PlanOf(torn, retry).writes|);
            Finished(end, Key(stop.id, stop.generation))
            && OthersKept(st.store.entries, end.store.entries, stop.id)
  {
    PrefixIsPastMark(st, stop, puts);
    StepKeepsInv(st, stop, puts);
    hide PlanOf, Exec, CanRun, Inv, PastMark, Finished;
    var torn, key := Exec(st, stop, puts), Key(stop.id, stop.generation);
    if retry.DoAlarm? {
      AlarmFinishes(torn, retry, key);
    } else {
      StopFinishes(torn, retry, key);
    }
  }
}
