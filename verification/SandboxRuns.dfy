/** Runs of controllers and admission put together stretch by stretch. */
module SandboxRuns {
  import opened Options
  import opened Receipts
  import opened Admission
  import opened SandboxWorld

  /** `events` lead from `w` to `end`. */
  predicate Leads(w: World, events: seq<Event>, end: World)
    decreases |events|
  {
    if events == [] then w == end
    else Enabled(w, events[0]) && Leads(Do(w, events[0]), events[1..], end)
  }

  lemma {:induction false} LeadsOn(w: World, first: seq<Event>, mid: World, more: seq<Event>, end: World)
    requires Leads(w, first, mid) && Leads(mid, more, end)
    ensures Leads(w, first + more, end)
    decreases |first|
  {
    hide Enabled, Do;
    if first == [] {
      assert first + more == more;
    } else {
      LeadsOn(Do(w, first[0]), first[1..], mid, more, end);
      assert (first + more)[1..] == first[1..] + more;
    }
  }

  lemma {:induction false} LeadsIsRun(worlds: seq<World>, past: seq<Event>, events: seq<Event>, end: World)
      returns (all: seq<World>)
    requires Run(worlds, past) && Leads(worlds[|past|], events, end)
    ensures Run(all, past + events) && all[|past + events|] == end && all[..|worlds|] == worlds
    decreases |events|
  {
    if events == [] {
      assert past + events == past;
      all := worlds;
    } else {
      var next := Do(worlds[|past|], events[0]);
      var longer, done := worlds + [next], past + [events[0]];
      OneMore(worlds, past, events[0], next);
      hide Run, Do, Enabled;
      all := LeadsIsRun(longer, done, events[1..], end);
      assert done + events[1..] == past + events;
    }
  }

  /** One event more. */
  lemma Next(start: World, past: seq<Event>, w: World, e: Event)
    requires Leads(start, past, w) && Enabled(w, e)
    ensures Leads(start, past + [e], Do(w, e))
  {
    assert Leads(w, [e], Do(w, e)) by {
      assert [e][1..] == [];
      assert Leads(Do(w, e), [], Do(w, e));
    }
    hide Enabled, Do;
    LeadsOn(start, past, w, [e], Do(w, e));
  }

  lemma OneMore(before: seq<World>, past: seq<Event>, e: Event, next: World)
    requires Run(before, past) && Enabled(before[|past|], e) && next == Do(before[|past|], e)
    ensures Run(before + [next], past + [e]) && |before| == |past| + 1
  {
    hide Enabled, Do;
    var ids :| before[0] == Init(before[0].cap, ids);
    var longer := before + [next];
    assert longer[0] == Init(longer[0].cap, ids);
    assert forall i | 0 <= i < |before| :: longer[i] == before[i];
  }

  lemma DeliversTo(w0: World, e0: seq<Event>, w: World, e: Event, next: World)
    requires Leads(w0, e0, w) && Enabled(w, e) && e.Deliver? && e.puts == |PlanOf(w.admission, e.op).writes|
    requires next == w.(admission := Exec(w.admission, e.op, e.puts), flying := w.flying - {e.call},
                        replies := w.replies[e.call := PlanOf(w.admission, e.op).answer])
    ensures Leads(w0, e0 + [e], next)
  {
    hide Leads;
    assert Do(w, e) == next;
    Next(w0, e0, w, e);
  }

  /** A step of a controller. */
  lemma Acts(start: World, past: seq<Event>, w: World, id: string, a: Act)
    requires Leads(start, past, w) && id in w.cells && CellMay(w, w.cells[id], a)
    ensures Leads(start, past + [Of(id, a)], Moved(w, id, w.cells[id], a))
  {
    hide Leads, CellMay, Moved;
    Next(start, past, w, Of(id, a));
  }

  /** A run from empty storage. */
  lemma LeadsFromInit(cap: nat, ids: set<string>, events: seq<Event>, end: World) returns (worlds: seq<World>)
    requires (forall id | id in ids :: ValidId(id)) && Leads(Init(cap, ids), events, end)
    ensures Run(worlds, events) && worlds[0] == Init(cap, ids) && worlds[|events|] == end
  {
    var w := Init(cap, ids);
    assert Run([w], []) by { hide Enabled, Do; }
    hide Enabled, Do, Leads, Run;
    worlds := LeadsIsRun([w], [], events, end);
    assert [] + events == events && worlds[0] == worlds[..1][0];
  }
}
