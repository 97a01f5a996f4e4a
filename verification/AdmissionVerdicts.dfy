/** What a caller hears from the admission cell, said of the stored entries and receipts alone, and how
    that may change over a run after the cap has been lowered. */
module AdmissionVerdicts {
  import Collections
  import KeepSet
  import opened Options
  import opened Strings
  import opened Receipts
  import opened Admission
  import opened AdmissionRuns
  import opened AdmissionFencing

  /** `low` holds the min(cap, n) ids of `ids` that come first in the order of strings. */
  predicate AreLowest(ids: set<string>, cap: nat, low: set<string>) {
    && low <= ids
    && |low| == (if cap < |ids| then cap else |ids|)
    && forall a, b | a in low && b in ids - low :: Before(a, b)
  }

  lemma LowestAreKept(ids: set<string>, cap: nat, low: set<string>)
    requires AreLowest(ids, cap, low)
    ensures low == KeepSet.Kept(ids, cap)
  {
    var kept := KeepSet.Kept(ids, cap);
    KeepSet.KeepsTheLowest(ids, cap);
    if x :| x in low && x !in kept {
      if kept <= low { Collections.SubsetSize(kept, low - {x}); }
      var y :| y in kept && y !in low;
      BeforeIsStrict(x, y);
    }
    Collections.SubsetSize(low, kept);
  }

  lemma KeptAreLowest(ids: set<string>, cap: nat)
    ensures AreLowest(ids, cap, KeepSet.Kept(ids, cap))
  {
    KeepSet.KeepsTheLowest(ids, cap);
  }

  // ---- one call ----

  predicate IsQuestion(op: Op) {
    op.DoReserve? || op.DoStarted? || op.DoHeartbeat?
  }

  predicate Wellformed(id: string) {
    1 <= |id| <= 128
  }

  /** A receipt of the pair is stored that is at most a day old. */
  predicate RecentlyStopped(rs: seq<Receipt>, key: Key, now: nat) {
    exists i :: 0 <= i < |rs| && rs[i].key == key && rs[i].at + 86_400_000 >= now
  }

  lemma CompletionIsRecent(rs: seq<Receipt>, key: Key, now: nat)
    requires Stored(rs)
    ensures HasCompletion(rs, key, now) <==> RecentlyStopped(rs, key, now)
  {
    CompletionsFacts(rs, now);
    hide Completions;
    if RecentlyStopped(rs, key, now) {
      var i :| 0 <= i < |rs| && rs[i].key == key && rs[i].at + 86_400_000 >= now;
      assert rs[i] in Completions(rs, now);
    }
  }

  /** The whole decision, for any id, generation and cap: a live pair hears ok exactly when its id is among
      the lowest the cap keeps; a pair that is not live hears ok from a reserve alone, when the id is free,
      no receipt of the last day fences it and there is room. */
  lemma VerdictOf(st: State, op: Op, low: set<string>)
    requires Inv(st) && IsQuestion(op) && CanRun(st, op) && AreLowest(st.store.entries.Keys, op.cap, low)
    ensures var entries, key := st.store.entries, Key(op.id, op.generation);
            PlanOf(st, op).answer ==
              if !Wellformed(op.id) || !Wellformed(op.generation) then Denied(Unavailable)
              else if op.id in entries then
                if entries[op.id].generation != op.generation || entries[op.id].stoppedAt.Some? then Denied(Unavailable)
                else if op.id in low then Admitted else Denied(Concurrency)
              else if !op.DoReserve? || RecentlyStopped(st.store.receipts, key, op.at) then Denied(Unavailable)
              else if |entries| < op.cap then Admitted else Denied(Concurrency)
  {
    LowestAreKept(st.store.entries.Keys, op.cap, low);
    CompletionIsRecent(st.store.receipts, Key(op.id, op.generation), op.at);
    hide HasCompletion, RecentlyStopped, AreLowest;
  }

  /** A pair stopped within the last day, with fewer than 4096 others stopped at or after it, is refused. */
  lemma StoppedIsRefusedForADay(st: State, op: Op)
    requires Inv(st) && op.DoReserve? && CanRun(st, op) && op.id !in st.store.entries
    requires var key := Key(op.id, op.generation);
             && key in st.history && st.history[key] + 86_400_000 >= op.at
             && |set k | k in st.history && k != key && st.history[k] >= st.history[key]| < 4096
    ensures PlanOf(st, op) == Plan([], Denied(Unavailable))
  {
    var key := Key(op.id, op.generation);
    assert AtOrAfter(st.history, key) == set k | k in st.history && k != key && st.history[k] >= st.history[key];
    RetainedIsFound(st.store.receipts, st.history, st.now, key, op.at);
    hide HasCompletion;
  }

  /** What an admitted call leaves behind: a reserve its pair's entry, not yet running; a first `started`
      the same entry running since that reading; any other nothing new. */
  lemma AdmittedLeaves(st: State, op: Op)
    requires IsQuestion(op) && CanRun(st, op) && PlanOf(st, op).answer == Admitted
    ensures var before, after := st.store.entries, Exec(st, op, |PlanOf(st, op).writes|).store.entries;
            after ==
              if op.DoReserve? && op.id !in before then before[op.id := Entry(op.generation, Reserved, None, None)]
              else if op.DoStarted? && op.id in before && before[op.id].startedAt.None? then
                before[op.id := Entry(op.generation, Running, Some(op.at), None)]
              else before
  {
    hide HasCompletion, WithinLimit;
  }

  /** A call that is denied writes nothing. */
  lemma DeniedLeavesAll(st: State, op: Op)
    requires IsQuestion(op) && CanRun(st, op) && PlanOf(st, op).answer != Admitted
    ensures PlanOf(st, op).writes == []
  {
    hide HasCompletion, WithinLimit;
  }

  // ---- runs under a lowered cap ----

  /** The ids whose live pair hears ok from a call under `cap`. */
  function Hearing(st: State, cap: nat): set<string> {
    set id | id in KeepSet.Kept(st.store.entries.Keys, cap) && st.store.entries[id].stoppedAt.None?
  }

  lemma HearingIsVerdict(st: State, op: Op)
    requires Inv(st) && IsQuestion(op) && CanRun(st, op) && Wellformed(op.id) && Wellformed(op.generation)
    requires op.id in st.store.entries && st.store.entries[op.id].generation == op.generation
    ensures PlanOf(st, op).answer == Admitted <==> op.id in Hearing(st, op.cap)
  {
    KeptAreLowest(st.store.entries.Keys, op.cap);
    VerdictOf(st, op, KeepSet.Kept(st.store.entries.Keys, op.cap));
    hide PlanOf;
  }

  /** What one operation may do to the ids and marks when reserves read at most `cap`. */
  lemma StepOfEntries(st: State, op: Op, puts: nat, cap: nat)
    requires CanRun(st, op) && puts <= |PlanOf(st, op).writes|
    requires forall k | k in st.history :: st.history[k] <= st.now
    requires op.DoReserve? ==> op.cap <= cap
    ensures var before, after := st.store.entries, Exec(st, op, puts).store.entries;
            && (after.Keys <= before.Keys || (|before| < cap && exists id :: after.Keys == before.Keys + {id}))
            && (!op.DoStopped? && !op.DoAlarm? ==>
                  && before.Keys <= after.Keys
                  && forall id | id in before :: after[id].stoppedAt == before[id].stoppedAt)
  {
    hide Exec, PlanOf, CanRun, HasCompletion;
    var before, after := st.store.entries, Exec(st, op, puts).store.entries;
    forall id | id in before && !op.DoStopped? && !op.DoAlarm?
      ensures id in after && after[id].stoppedAt == before[id].stoppedAt
    {
      EntryFate(st, op, puts, id);
    }
    if id :| id in after && id !in before {
      EntryOrigin(st, op, puts, id);
      assert after.Keys == before.Keys + {id};
    }
  }

  lemma KeptAfterStep(before: set<string>, after: set<string>, cap: nat)
    requires after <= before || (|before| < cap && exists id :: after == before + {id})
    ensures KeepSet.Kept(before, cap) * after <= KeepSet.Kept(after, cap)
    ensures before <= after ==> KeepSet.Kept(before, cap) == KeepSet.Kept(after, cap) * before
  {
    if after <= before {
      KeepSet.ReleaseKeeps(before, after, cap);
      if before <= after { assert before == after; }
    } else {
      var id :| after == before + {id};
      KeepSet.FreshFits(before, id, cap);
      forall k | k in before ensures KeepSet.WithinLimit(before, k, cap) { KeepSet.RankBound(before, k); }
    }
  }

  /** Under a lowered cap an id that hears ok goes on to, as long as its entry stands unmarked, however many
      others stop: every reserve of the stretch reads at most `cap`. */
  lemma {:induction false} KeptUntilStopped(states: seq<State>, steps: seq<Step>, i: nat, j: nat, cap: nat, id: string)
    requires Run(states, steps) && i <= j < |states|
    requires forall k | i <= k < j && steps[k].op.DoReserve? :: steps[k].op.cap <= cap
    requires id in KeepSet.Kept(states[i].store.entries.Keys, cap)
    requires forall k | i <= k <= j :: id in states[k].store.entries
    ensures id in KeepSet.Kept(states[j].store.entries.Keys, cap)
  {
    hide Exec, PlanOf, CanRun, KeepSet.Kept;
    if i < j {
      var st, step := states[j - 1], steps[j - 1];
      KeptUntilStopped(states, steps, i, j - 1, cap, id);
      RunKeepsInv(states, steps, j - 1);
      StepOfEntries(st, step.op, step.puts, cap);
      KeptAfterStep(st.store.entries.Keys, states[j].store.entries.Keys, cap);
    }
  }

  predicate NothingStops(steps: seq<Step>, i: nat, j: nat)
    requires j <= |steps|
  {
    forall k | i <= k < j :: !steps[k].op.DoStopped? && !steps[k].op.DoAlarm?
  }

  /** And that set changes only by stops: over a stretch without a stop or an alarm, exactly the ids that
      heard ok hear it at the end, reserves that found room below the cap apart. */
  lemma {:induction false} HearingChangesByStopsOnly(states: seq<State>, steps: seq<Step>, i: nat, j: nat, cap: nat)
    requires Run(states, steps) && i <= j < |states| && NothingStops(steps, i, j)
    requires forall k | i <= k < j && steps[k].op.DoReserve? :: steps[k].op.cap <= cap
    ensures states[i].store.entries.Keys <= states[j].store.entries.Keys
    ensures Hearing(states[j], cap) * states[i].store.entries.Keys == Hearing(states[i], cap)
    ensures |states[i].store.entries| >= cap ==> Hearing(states[j], cap) == Hearing(states[i], cap)
    ensures |states[i].store.entries| >= cap ==> states[j].store.entries.Keys == states[i].store.entries.Keys
  {
    hide Exec, PlanOf, CanRun, KeepSet.Kept, Hearing;
    if i < j {
      var st, step := states[j - 1], steps[j - 1];
      HearingChangesByStopsOnly(states, steps, i, j - 1, cap);
      RunKeepsInv(states, steps, j - 1);
      HearingAfterStep(st, step.op, step.puts, cap);
      assert |states[j - 1].store.entries| == |states[j - 1].store.entries.Keys|;
      assert |states[i].store.entries| == |states[i].store.entries.Keys|;
    }
    HearingIsInside(states[i], cap);
    HearingIsInside(states[j], cap);
  }

  lemma HearingIsInside(st: State, cap: nat)
    ensures Hearing(st, cap) <= st.store.entries.Keys
  {
  }

  lemma HearingAfterStep(st: State, op: Op, puts: nat, cap: nat)
    requires CanRun(st, op) && puts <= |PlanOf(st, op).writes| && !op.DoStopped? && !op.DoAlarm?
    requires forall k | k in st.history :: st.history[k] <= st.now
    requires op.DoReserve? ==> op.cap <= cap
    ensures var after := Exec(st, op, puts);
            && st.store.entries.Keys <= after.store.entries.Keys
            && Hearing(after, cap) * st.store.entries.Keys == Hearing(st, cap)
            && (|st.store.entries| >= cap ==> after.store.entries.Keys == st.store.entries.Keys)
  {
    hide Exec, PlanOf, CanRun, KeepSet.Kept;
    StepOfEntries(st, op, puts, cap);
    KeptAfterStep(st.store.entries.Keys, Exec(st, op, puts).store.entries.Keys, cap);
  }

  /** A cap of one over two live entries: the lower id hears ok, the higher one concurrency. */
  lemma LowerIdIsKept(st: State, a: string, b: string, g: string, at: nat)
    requires Inv(st) && st.now <= at && Wellformed(a) && Wellformed(b) && Wellformed(g) && Before(a, b)
    requires st.store.entries.Keys == {a, b} && Live(st.store.entries, a, g) && Live(st.store.entries, b, g)
    ensures PlanOf(st, DoHeartbeat(a, g, 1, at)).answer == Admitted
    ensures PlanOf(st, DoHeartbeat(b, g, 1, at)).answer == Denied(Concurrency)
  {
    BeforeIsStrict(a, b);
    assert AreLowest(st.store.entries.Keys, 1, {a}) by { assert |st.store.entries.Keys| == 2; }
    VerdictOf(st, DoHeartbeat(a, g, 1, at), {a});
    VerdictOf(st, DoHeartbeat(b, g, 1, at), {a});
  }
}
