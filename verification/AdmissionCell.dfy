/** The Durable Object class of apps/void-sandbox/src/admission.ts: its storage, its cache, and its
    operations put by put. A call may find itself in an isolate with only `lives` storage writes left. */
module AdmissionCell {
  import opened Numbers
  import opened Options
  import opened Receipts
  import opened Admission

  /** The store after an isolate with `lives` writes left issues `ws`. */
  function After(s: Store, ws: seq<Write>, lives: nat): Store {
    AppliedSome(s, ws, Min(lives, |ws|))
  }

  function AnswerOf(plan: Plan, lives: nat): Option<Answer> {
    if lives < |plan.writes| then None else Some(plan.answer)
  }

  lemma AfterCons(s: Store, w: Write, ws: seq<Write>, lives: nat)
    ensures After(s, [w] + ws, lives) == if lives == 0 then s else After(Applied(s, w), ws, lives - 1)
  {
    assert ([w] + ws)[1..] == ws;
  }

  lemma AfterNothing(s: Store, ws: seq<Write>, lives: nat)
    requires lives == 0 || ws == []
    ensures After(s, ws, lives) == s
  {
  }

  lemma {:induction false} StoreOfCommit(st: State, ws: seq<Write>, puts: nat)
    requires puts <= |ws|
    ensures CommitSome(st, ws, puts).store == AppliedSome(st.store, ws, puts)
    decreases puts
  {
    if puts > 0 { StoreOfCommit(Commit(st, ws[0]), ws[1..], puts - 1); }
  }

  /** A call in an isolate with `lives` writes left is a step of the runs: the store each method of
      the class leaves is the store of `Exec` cut after that many writes. */
  lemma CallIsAStep(st: State, op: Op, lives: nat)
    requires CanRun(st, op)
    ensures After(st.store, PlanOf(st, op).writes, lives)
         == Exec(st, op, Min(lives, |PlanOf(st, op).writes|)).store
  {
    StoreOfCommit(st.(now := FirstReading(op, st.now)), PlanOf(st, op).writes, Min(lives, |PlanOf(st, op).writes|));
  }

  /** The entries of `listing` with a stop mark, in that order. */
  function TornOf(entries: Entries, listing: seq<string>): (torn: seq<string>)
    ensures forall id | id in torn :: id in entries && entries[id].stoppedAt.Some?
  {
    if listing == [] then []
    else if listing[0] in entries && entries[listing[0]].stoppedAt.Some? then [listing[0]] + TornOf(entries, listing[1..])
    else TornOf(entries, listing[1..])
  }

  lemma {:induction false} TornIsKnown(entries: Entries, listing: seq<string>)
    ensures forall id :: id in TornOf(entries, listing) <==> id in listing && id in entries && entries[id].stoppedAt.Some?
  {
    if listing != [] {
      TornIsKnown(entries, listing[1..]);
      assert listing == [listing[0]] + listing[1..];
    }
  }

  /** `swept` is what the sweep has recorded, and the rest of `listing` holds what it has yet to. */
  predicate TornLeft(entries: Entries, listing: seq<string>, swept: set<string>, torn: seq<string>) {
    swept + (set id | id in TornOf(entries, listing)) == set id | id in torn
  }

  lemma TornAtEnds(entries: Entries, listing: seq<string>, swept: set<string>, torn: seq<string>)
    ensures TornLeft(entries, listing, {}, TornOf(entries, listing)) && TornOf(entries, []) == []
    ensures TornLeft(entries, [], swept, torn) ==> swept == set id | id in torn
  {
  }

  lemma SweptNone(torn: seq<string>, swept: set<string>)
    requires swept == set id | id in torn
    ensures torn != [] ==> torn[0] in swept
  {
  }

  /** Passing one entry of the listing. */
  lemma TornStep(entries: Entries, listing: seq<string>, i: nat, swept: set<string>, torn: seq<string>)
    requires i < |listing| && listing[i] in entries && TornLeft(entries, listing[i..], swept, torn)
    ensures var stopped := entries[listing[i]].stoppedAt.Some?;
            && TornOf(entries, listing[i..])
               == (if stopped then [listing[i]] + TornOf(entries, listing[i + 1..]) else TornOf(entries, listing[i + 1..]))
            && TornLeft(entries, listing[i + 1..], if stopped then swept + {listing[i]} else swept, torn)
  {
    assert listing[i..][1..] == listing[i + 1..];
  }

  /** The writes of a sweep: the first receipt, then those of the rest. */
  lemma SweepPeels(receipts: seq<Receipt>, entries: Entries, listing: seq<string>, clock: seq<(nat, nat)>, tail: seq<Write>)
    requires listing != [] && listing[0] in entries && entries[listing[0]].stoppedAt.Some?
    requires |clock| == |TornOf(entries, listing)|
    ensures |clock| == 1 + |TornOf(entries, listing[1..])|
    ensures var w := RecordWrite(receipts, Key(listing[0], entries[listing[0]].generation), clock[0].0, clock[0].1);
            SweepWrites(receipts, entries, TornOf(entries, listing), clock) + tail
            == [w] + (SweepWrites(w.receipts, entries, TornOf(entries, listing[1..]), clock[1..]) + tail)
  {
    hide Record;
    var torn, left := TornOf(entries, listing), TornOf(entries, listing[1..]);
    assert torn == [listing[0]] + left && torn[1..] == left;
  }

  lemma SweepOfNone(receipts: seq<Receipt>, entries: Entries, tail: seq<Write>)
    ensures SweepWrites(receipts, entries, [], []) + tail == tail
  {
  }

  class NoiteSandboxAdmission {
    var store: Store
    var cache: Option<Entries>
    var lives: nat

    ghost predicate Valid()
      reads this
    {
      cache.Some? ==> cache.value == store.entries
    }

    constructor ()
      ensures Valid() && store == EmptyStore && cache == None
    {
      store, cache, lives := EmptyStore, None, 0;
    }

    /** A new isolate over the same storage. */
    method Restart(writes: nat)
      modifies this
      ensures Valid() && store == old(store) && cache == None && lives == writes
    {
      cache, lives := None, writes;
    }

    /** One storage write: atomic, or the isolate is gone before it. */
    method Put(w: Write) returns (alive: bool)
      modifies this
      ensures alive == (old(lives) > 0)
      ensures store == (if alive then Applied(old(store), w) else old(store))
      ensures cache == (if alive then old(cache) else None)
      ensures lives == (if alive then old(lives) - 1 else 0)
    {
      alive := lives > 0;
      if alive {
        store, lives := Applied(store, w), lives - 1;
      } else {
        cache := None;
      }
    }

    method Load() returns (entries: Entries)
      requires Valid()
      modifies this`cache
      ensures Valid() && entries == store.entries
    {
      if cache.None? { cache := Some(store.entries); }
      entries := cache.value;
    }

    method Save(entries: Entries) returns (alive: bool)
      requires Valid()
      modifies this
      ensures Valid() && alive == (old(lives) > 0)
      ensures store == (if alive then old(store).(entries := entries) else old(store))
      ensures lives == (if alive then old(lives) - 1 else 0)
    {
      alive := Put(PutEntries(entries));
      if alive { cache := Some(entries); }
    }

    method EnsureAlarm(now: nat) returns (alive: bool)
      requires Valid()
      modifies this
      ensures Valid() && alive == (AlarmWrites(old(store).alarm, now) == [] || old(lives) > 0)
      ensures store == After(old(store), AlarmWrites(old(store).alarm, now), old(lives))
      ensures lives == old(lives) - Min(old(lives), |AlarmWrites(old(store).alarm, now)|)
    {
      alive := true;
      if store.alarm.None? { alive := Put(SetAlarm(now + RECONCILE_INTERVAL_MS)); }
    }

    method RecordCompletion(key: Key, read: nat, at: nat) returns (alive: bool)
      requires Valid()
      modifies this
      ensures Valid() && alive == (old(lives) > 0)
      ensures store == (if alive then Applied(old(store), RecordWrite(old(store).receipts, key, read, at)) else old(store))
      ensures lives == (if alive then old(lives) - 1 else 0)
    {
      var completions := Assign(Completions(store.receipts, read), key, at);
      alive := Put(PutReceipts(Newest(ByCompletedAt(completions)), key, at));
    }

    method Reserve(id: string, generation: string, cap: nat, now: nat) returns (answer: Option<Answer>)
      requires Valid()
      modifies this
      ensures Valid()
      ensures var plan := Admission.Reserve(old(store), id, generation, cap, now);
              store == After(old(store), plan.writes, old(lives)) && answer == AnswerOf(plan, old(lives))
    {
      hide HasCompletion;
      if !ValidId(id) || !ValidId(generation) { return Some(Denied(Unavailable)); }
      var entries := Load();
      if id in entries {
        var current := entries[id];
        if current.generation != generation || current.stoppedAt.Some? { return Some(Denied(Unavailable)); }
        return Some(Limited(entries, id, cap));
      }
      if HasCompletion(store.receipts, Key(id, generation), now) { return Some(Denied(Unavailable)); }
      if |entries| >= cap { return Some(Denied(Concurrency)); }
      entries := entries[id := Entry(generation, Reserved, None, None)];
      var alive := Save(entries);
      answer := if alive then Some(Admitted) else None;
    }

    method Started(id: string, generation: string, cap: nat, now: nat) returns (answer: Option<Answer>)
      requires Valid()
      modifies this
      ensures Valid()
      ensures var plan := Admission.Started(old(store), id, generation, cap, now);
              store == After(old(store), plan.writes, old(lives)) && answer == AnswerOf(plan, old(lives))
    {
      if !ValidId(id) || !ValidId(generation) { return Some(Denied(Unavailable)); }
      var entries := Load();
      if id !in entries || entries[id].generation != generation || entries[id].stoppedAt.Some? {
        return Some(Denied(Unavailable));
      }
      if !WithinLimit(entries, id, cap) { return Some(Denied(Concurrency)); }
      if entries[id].startedAt.None? {
        entries := entries[id := entries[id].(phase := Running, startedAt := Some(now))];
        var alive := Save(entries);
        if !alive { return None; }
      }
      answer := Some(Admitted);
    }

    method Heartbeat(id: string, generation: string, cap: nat) returns (answer: Option<Answer>)
      requires Valid()
      modifies this
      ensures Valid() && store == old(store)
      ensures answer == Some(Admission.Heartbeat(old(store), id, generation, cap).answer)
    {
      if !ValidId(id) || !ValidId(generation) { return Some(Denied(Unavailable)); }
      var entries := Load();
      if id !in entries || entries[id].generation != generation || entries[id].stoppedAt.Some? {
        return Some(Denied(Unavailable));
      }
      answer := Some(Limited(entries, id, cap));
    }

    /** The receipt, then the capacity release. */
    method RecordAndRelease(entries: Entries, id: string, key: Key, clock: StopClock) returns (alive: bool)
      requires Valid() && entries == store.entries
      modifies this
      ensures Valid() && alive == (old(lives) >= 2)
      ensures store == After(old(store),
                [RecordWrite(old(store).receipts, key, clock.read, clock.record), PutEntries(entries - {id})], old(lives))
    {
      hide Record;
      ghost var receipt := RecordWrite(store.receipts, key, clock.read, clock.record);
      AfterCons(store, receipt, [PutEntries(entries - {id})], lives);
      assert [receipt, PutEntries(entries - {id})] == [receipt] + [PutEntries(entries - {id})];
      alive := RecordCompletion(key, clock.read, clock.record);
      if alive { alive := Save(entries - {id}); }
    }

    method FinishStop(entries: Entries, id: string, key: Key, clock: StopClock) returns (alive: bool)
      requires Valid() && entries == store.entries
      modifies this
      ensures Valid()
      ensures var ws := AlarmWrites(old(store).alarm, clock.alarm)
                + [RecordWrite(old(store).receipts, key, clock.read, clock.record), PutEntries(entries - {id})];
              store == After(old(store), ws, old(lives)) && alive == (old(lives) >= |ws|)
    {
      hide Record;
      ghost var tail := [RecordWrite(store.receipts, key, clock.read, clock.record), PutEntries(entries - {id})];
      if store.alarm.Some? {
        assert [] + tail == tail;
      } else {
        AfterCons(store, SetAlarm(clock.alarm + RECONCILE_INTERVAL_MS), tail, lives);
      }
      alive := EnsureAlarm(clock.alarm);
      if alive { alive := RecordAndRelease(entries, id, key, clock); }
    }

    method Stopped(id: string, generation: string, clock: StopClock) returns (answer: Option<Answer>)
      requires Valid()
      modifies this
      ensures Valid()
      ensures var plan := Admission.Stopped(old(store), id, generation, clock);
              store == After(old(store), plan.writes, old(lives)) && answer == AnswerOf(plan, old(lives))
    {
      hide Record;
      if !ValidId(id) || !ValidId(generation) { return Some(Thrown); }
      var alive;
      var entries := Load();
      if id !in entries || entries[id].generation != generation {
        alive := RecordCompletion(Key(id, generation), clock.read, clock.record);
        return if alive then Some(Released) else None;
      }
      ghost var marked := Marked(entries, id, clock.arrival);
      ghost var rest := AlarmWrites(store.alarm, clock.alarm)
        + [RecordWrite(store.receipts, Key(id, generation), clock.read, clock.record), PutEntries(marked - {id})];
      if entries[id].stoppedAt.None? {
        AfterCons(store, PutEntries(marked), rest, lives);
        entries := entries[id := entries[id].(stoppedAt := Some(clock.arrival))];
        alive := Save(entries);
        if !alive { return None; }
      } else {
        assert [] + rest == rest;
      }
      alive := FinishStop(entries, id, Key(id, generation), clock);
      answer := if alive then Some(Released) else None;
    }

    /** The release, when something was swept; then the runtime sees the handler return. */
    method ReleaseSwept(entries: Entries, swept: set<string>, ghost torn: seq<string>) returns (alive: bool)
      requires Valid() && entries == store.entries && swept == set id | id in torn
      modifies this
      ensures Valid() && store == After(old(store), ReleaseWrites(entries, torn) + [AlarmDone], old(lives))
      ensures alive == (old(lives) >= |ReleaseWrites(entries, torn)| + 1)
    {
      ghost var was := store;
      alive := true;
      if swept != {} {
        AfterCons(was, PutEntries(entries - swept), [AlarmDone], lives);
        assert torn != [];
        alive := Save(entries - swept);
      } else {
        SweptNone(torn, swept);
        assert [] + [AlarmDone] == [AlarmDone];
      }
      if alive {
        AfterCons(store, AlarmDone, [], lives);
        alive := Put(AlarmDone);
      }
    }

    /** One pass over the entries in the order `Object.entries` gives; `clock` holds the two readings
        of each torn stop met. */
    method Alarm(listing: seq<string>, clock: seq<(nat, nat)>) returns (answer: Option<Answer>)
      requires Valid()
      requires forall id :: id in listing <==> id in store.entries
      requires |clock| == |TornOf(store.entries, listing)|
      modifies this
      ensures Valid()
      ensures (forall id | id in TornOf(old(store).entries, listing) :: id in old(store).entries)
      ensures var plan := Sweep(old(store), TornOf(old(store).entries, listing), clock);
              store == After(old(store), plan.writes, old(lives)) && answer == AnswerOf(plan, old(lives))
    {
      hide Record, After, SweepWrites, ReleaseWrites, TornOf, TornLeft;
      var entries := Load();
      var swept: set<string> := {};
      var readings := clock;
      TornIsKnown(entries, listing);
      ghost var torn := TornOf(entries, listing);
      ghost var release := ReleaseWrites(entries, torn) + [AlarmDone];
      ghost var all := SweepWrites(store.receipts, entries, torn, clock) + release;
      ghost var rest := all;
      var i := 0;
      assert listing[0..] == listing;
      TornAtEnds(entries, listing, swept, torn);
      while i < |listing|
        invariant Valid() && i <= |listing| && store.entries == entries
        invariant TornLeft(entries, listing[i..], swept, torn) && |readings| == |TornOf(entries, listing[i..])|
        invariant rest == SweepWrites(store.receipts, entries, TornOf(entries, listing[i..]), readings) + release
        invariant After(old(store), all, old(lives)) == After(store, rest, lives)
        invariant old(lives) - |all| == lives - |rest|
      {
        var id := listing[i];
        TornStep(entries, listing, i, swept, torn);
        assert listing[i..][1..] == listing[i + 1..];
        if entries[id].stoppedAt.Some? {
          var key := Key(id, entries[id].generation);
          var read, at := readings[0].0, readings[0].1;
          ghost var w := RecordWrite(store.receipts, key, read, at);
          SweepPeels(store.receipts, entries, listing[i..], readings, release);
          rest := SweepWrites(w.receipts, entries, TornOf(entries, listing[i + 1..]), readings[1..]) + release;
          AfterCons(store, w, rest, lives);
          if lives == 0 { AfterNothing(store, [w] + rest, 0); }
          var alive := RecordCompletion(key, read, at);
          if !alive { return None; }
          swept, readings := swept + {id}, readings[1..];
        }
        i := i + 1;
      }
      TornAtEnds(entries, listing, swept, torn);
      assert listing[i..] == [] && readings == [];
      assert rest == release by { SweepOfNone(store.receipts, entries, release); }
      var alive := ReleaseSwept(entries, swept, torn);
      answer := if alive then Some(Released) else None;
    }
  }
}
