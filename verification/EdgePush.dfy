/** What a sequence of admin pushes leaves installed (the POST branch of edge/edge.go), and what the
    prober watches meanwhile. */
module EdgePush {
  import opened Options
  import opened EdgeTable

  datatype Reply = BadTable | Stale | Unchanged | Installed

  /** The generation check of one push; a table that does not validate changes nothing. */
  function Answer(current: Option<Table>, t: Table): Reply {
    if !Valid(t) then BadTable
    else if current.Some? && t.generation < current.value.generation then Stale
    else if current.Some? && t.generation == current.value.generation then Unchanged
    else Installed
  }

  function Push(current: Option<Table>, t: Table): Option<Table> {
    if Answer(current, t) == Installed then Some(t) else current
  }

  function Pushed(tables: seq<Table>): Option<Table> {
    if tables == [] then None else Push(Pushed(tables[..|tables| - 1]), tables[|tables| - 1])
  }

  /** `tables[i]` is the first arrival of the highest valid generation. */
  predicate FirstOfHighest(tables: seq<Table>, i: nat) {
    && i < |tables| && Valid(tables[i])
    && (forall j | 0 <= j < |tables| && Valid(tables[j]) :: tables[j].generation <= tables[i].generation)
    && (forall j | 0 <= j < i && Valid(tables[j]) :: tables[j].generation < tables[i].generation)
  }

  lemma HighestStays(init: seq<Table>, t: Table, i: nat)
    requires FirstOfHighest(init, i) && (Valid(t) ==> t.generation <= init[i].generation)
    ensures FirstOfHighest(init + [t], i)
  {
    hide Valid;
  }

  lemma NewIsHighest(init: seq<Table>, t: Table)
    requires Valid(t) && forall j | 0 <= j < |init| && Valid(init[j]) :: init[j].generation < t.generation
    ensures FirstOfHighest(init + [t], |init|)
  {
    hide Valid;
  }

  lemma HighestIsUnique(tables: seq<Table>, i: nat, j: nat)
    requires FirstOfHighest(tables, i) && FirstOfHighest(tables, j)
    ensures i == j
  {
  }

  /** Pushes converge whatever the order: what is installed is the first arrival of the highest valid
      generation pushed, and nothing only when no valid table was. */
  lemma {:induction false} PushesConverge(tables: seq<Table>)
    ensures Pushed(tables).None? <==> forall j | 0 <= j < |tables| :: !Valid(tables[j])
    ensures Pushed(tables).Some? ==>
              exists i: nat :: FirstOfHighest(tables, i) && Pushed(tables) == Some(tables[i])
    ensures forall i: nat | FirstOfHighest(tables, i) :: Pushed(tables) == Some(tables[i])
  {
    hide Valid;
    if tables != [] {
      var n := |tables| - 1;
      var init, t := tables[..n], tables[n];
      PushesConverge(init);
      assert tables == init + [t];
      if Pushed(init).Some? {
        var i: nat :| FirstOfHighest(init, i) && Pushed(init) == Some(init[i]);
        if Answer(Pushed(init), t) == Installed {
          NewIsHighest(init, t);
        } else {
          HighestStays(init, t, i);
        }
        assert Valid(tables[i]);
      } else if Valid(t) {
        NewIsHighest(init, t);
      }
    }
    forall i: nat | FirstOfHighest(tables, i) ensures Pushed(tables) == Some(tables[i]) {
      if Pushed(tables).Some? {
        var j: nat :| FirstOfHighest(tables, j) && Pushed(tables) == Some(tables[j]);
        HighestIsUnique(tables, i, j);
      }
    }
  }

  /** More pushes never end at an older generation. */
  lemma SupersetIsNewer(a: seq<Table>, b: seq<Table>)
    requires Pushed(a).Some? && forall t | t in a :: t in b
    ensures Pushed(a).value in a && Valid(Pushed(a).value)
    ensures Pushed(b).Some? && Pushed(a).value.generation <= Pushed(b).value.generation
  {
    hide Valid, Pushed;
    PushesConverge(a);
    PushesConverge(b);
    var i: nat :| FirstOfHighest(a, i) && Pushed(a) == Some(a[i]);
    assert a[i] in b;
    var k :| 0 <= k < |b| && b[k] == a[i];
    var j: nat :| FirstOfHighest(b, j) && Pushed(b) == Some(b[j]);
  }

  /** Two arrival orders of the same pushes end at the same generation, and at the same table when a
      generation names one table. */
  lemma ArrivalOrderDoesNotMatter(a: seq<Table>, b: seq<Table>)
    requires multiset(a) == multiset(b)
    requires forall s, t | s in a && t in a && Valid(s) && Valid(t) && s.generation == t.generation :: s == t
    ensures Pushed(a) == Pushed(b)
  {
    hide Valid, Pushed;
    forall t ensures t in a <==> t in b { assert t in multiset(a) <==> t in multiset(b); }
    if Pushed(a).Some? { SupersetIsNewer(a, b); }
    if Pushed(b).Some? { SupersetIsNewer(b, a); }
  }

  /** Generations never go back. */
  lemma {:induction false} GenerationsRise(tables: seq<Table>, i: nat)
    requires i <= |tables| && Pushed(tables[..i]).Some?
    ensures Pushed(tables).Some? && Pushed(tables[..i]).value.generation <= Pushed(tables).value.generation
    decreases |tables|
  {
    if i == |tables| {
      assert tables[..i] == tables;
    } else {
      var init := tables[..|tables| - 1];
      assert init[..i] == tables[..i];
      GenerationsRise(init, i);
    }
  }

  /** What a push is told, in terms of every push before it. */
  lemma AnswerComparesWithAll(tables: seq<Table>, t: Table)
    ensures Answer(Pushed(tables), t) ==
              if !Valid(t) then BadTable
              else if forall i | 0 <= i < |tables| && Valid(tables[i]) :: tables[i].generation < t.generation then Installed
              else if exists i :: 0 <= i < |tables| && Valid(tables[i]) && tables[i].generation > t.generation then Stale
              else Unchanged
  {
    hide Valid, Pushed;
    PushesConverge(tables);
    if Pushed(tables).Some? {
      var i: nat :| FirstOfHighest(tables, i) && Pushed(tables) == Some(tables[i]);
    }
  }

  // ---- the prober and the instances ----

  predicate Probed(r: Route) {
    FleetKind(r.kind) && !r.asleep && r.upstream != ""
  }

  function FleetOf(t: Table): set<string> {
    (set host | host in t.exact && Probed(t.exact[host]) :: t.exact[host].upstream)
    + (set w | w in t.wildcards && Probed(w.route) :: w.route.upstream)
  }

  predicate HasRoute(t: Table, r: Route) {
    (exists host :: host in t.exact && t.exact[host] == r)
    || exists i :: 0 <= i < |t.wildcards| && t.wildcards[i].route == r
  }

  /** The fleet of a table: the upstreams of its awake tenant, custom and env routes. */
  lemma FleetIsAwake(t: Table, upstream: string)
    ensures upstream in FleetOf(t)
            <==> exists r :: HasRoute(t, r) && r.upstream == upstream && upstream != "" && !r.asleep
                   && (r.kind == "tenant" || r.kind == "custom" || r.kind == "env")
  {
    if upstream in FleetOf(t) {
      if host :| host in t.exact && Probed(t.exact[host]) && t.exact[host].upstream == upstream {
        assert HasRoute(t, t.exact[host]);
      } else {
        var w :| w in t.wildcards && Probed(w.route) && w.route.upstream == upstream;
        var i :| 0 <= i < |t.wildcards| && t.wildcards[i] == w;
        assert HasRoute(t, t.wildcards[i].route);
      }
    }
    if r :| HasRoute(t, r) && r.upstream == upstream && Probed(r) {
      if host :| host in t.exact && t.exact[host] == r {
      } else {
        var i :| 0 <= i < |t.wildcards| && t.wildcards[i].route == r;
        assert t.wildcards[i] in t.wildcards;
      }
    }
  }

  function ZonesOfRoute(r: Route): set<string> {
    (if r.clientZone != "" then {r.clientZone} else {}) + (if r.appZone != "" then {r.appZone} else {})
  }

  function ZonesOf(t: Table): set<string> {
    (set host, z | host in t.exact && z in ZonesOfRoute(t.exact[host]) :: z)
    + (set w, z | w in t.wildcards && z in ZonesOfRoute(w.route) :: z)
  }

  /** The shared state as a value: `stopped` says the last instance was released since the last swap. */
  datatype Edge = Edge(refs: nat, table: Option<Table>, probed: Option<set<string>>, stopped: bool)

  datatype Event = Retain | Release | PushTable(table: Table) | LoadTable(table: Table)

  const Boot := Edge(0, None, None, false)

  function Swapped(e: Edge, t: Table): Edge {
    e.(table := Some(t), probed := Some(FleetOf(t)), stopped := false)
  }

  function Do(e: Edge, event: Event): Edge {
    match event
    case Retain => e.(refs := e.refs + 1, probed := if e.probed.None? then Some({}) else e.probed)
    case Release =>
      var refs := if e.refs > 0 then e.refs - 1 else 0;
      if refs == 0 && e.probed.Some? then e.(refs := refs, probed := None, stopped := true) else e.(refs := refs)
    case PushTable(t) => if Answer(e.table, t) == Installed then Swapped(e, t) else e
    case LoadTable(t) => if Valid(t) then Swapped(e, t) else e
  }

  function Reached(events: seq<Event>): Edge {
    if events == [] then Boot else Do(Reached(events[..|events| - 1]), events[|events| - 1])
  }

  /** The tables a sequence of events pushes, in order. */
  function PushesOf(events: seq<Event>): seq<Table> {
    if events == [] then []
    else
      var e := events[|events| - 1];
      PushesOf(events[..|events| - 1]) + if e.PushTable? then [e.table] else []
  }

  lemma EventTable(e: Edge, event: Event)
    requires !event.LoadTable?
    ensures Do(e, event).table == if event.PushTable? then Push(e.table, event.table) else e.table
  {
    hide Answer, FleetOf;
  }

  /** Without file loads, whatever instances come and go, the installed table is that of the pushes. */
  lemma {:induction false} TableIsOfPushes(events: seq<Event>)
    requires forall i | 0 <= i < |events| :: !events[i].LoadTable?
    ensures Reached(events).table == Pushed(PushesOf(events))
  {
    hide Do, Push;
    if events != [] {
      var init, e := events[..|events| - 1], events[|events| - 1];
      var before := PushesOf(init);
      TableIsOfPushes(init);
      EventTable(Reached(init), e);
      assert before + [] == before;
      if e.PushTable? { assert (before + [e.table])[..|before|] == before; }
    }
  }

  function Retains(events: seq<Event>): nat {
    if events == [] then 0
    else Retains(events[..|events| - 1]) + if events[|events| - 1] == Retain then 1 else 0
  }

  function Releases(events: seq<Event>): nat {
    if events == [] then 0
    else Releases(events[..|events| - 1]) + if events[|events| - 1] == Release then 1 else 0
  }

  /** The count is that of the instances, and while there is one the prober runs. */
  lemma {:induction false} RefsCountInstances(events: seq<Event>)
    requires forall i | 0 <= i <= |events| :: Releases(events[..i]) <= Retains(events[..i])
    ensures Reached(events).refs == Retains(events) - Releases(events)
    ensures Reached(events).refs > 0 ==> Reached(events).probed.Some?
  {
    hide FleetOf, Valid, Answer;
    assert events[..|events|] == events;
    if events != [] {
      var init := events[..|events| - 1];
      forall i | 0 <= i <= |init| ensures Releases(init[..i]) <= Retains(init[..i]) { assert init[..i] == events[..i]; }
      RefsCountInstances(init);
    }
  }

  predicate InStep(e: Edge) {
    && (e.table.Some? && !e.stopped ==> e.probed == Some(FleetOf(e.table.value)))
    && (e.table.Some? && e.stopped ==> e.probed.None? || e.probed == Some({}))
    && (e.table.None? ==> e.probed.None? || e.probed == Some({}))
  }

  lemma {:induction false} StaysInStep(events: seq<Event>)
    ensures InStep(Reached(events))
  {
    hide FleetOf, Valid;
    if events != [] { StaysInStep(events[..|events| - 1]); }
  }

  /** Event `i` releases the last instance while the prober runs. */
  predicate StopsAt(events: seq<Event>, i: nat) {
    i < |events| && events[i] == Release && Reached(events[..i]).refs <= 1 && Reached(events[..i]).probed.Some?
  }

  /** Event `i` swaps a table in. */
  predicate SwapsAt(events: seq<Event>, i: nat) {
    && i < |events|
    && match events[i]
       case PushTable(t) => Answer(Reached(events[..i]).table, t) == Installed
       case LoadTable(t) => Valid(t)
       case _ => false
  }

  /** The last instance was released while the prober ran, and no table has been swapped in since. */
  ghost predicate StoppedSinceSwap(events: seq<Event>) {
    exists i: nat :: StopsAt(events, i) && forall j: nat | i < j < |events| :: !SwapsAt(events, j)
  }

  lemma PrefixEvents(events: seq<Event>, more: Event, i: nat)
    requires i < |events|
    ensures StopsAt(events + [more], i) == StopsAt(events, i)
    ensures SwapsAt(events + [more], i) == SwapsAt(events, i)
  {
    assert (events + [more])[..i] == events[..i];
  }

  /** One event: a release that stops, or an earlier one that no swap has undone. */
  lemma StoppedSnoc(events: seq<Event>, e: Event)
    ensures var all, n := events + [e], |events|;
            StoppedSinceSwap(all) <==> StopsAt(all, n) || (StoppedSinceSwap(events) && !SwapsAt(all, n))
  {
    var all, n := events + [e], |events|;
    assert forall i: nat :: (StopsAt(all, i) ==> i <= n) && (StopsAt(events, i) ==> i < n);
    hide StopsAt, SwapsAt;
    forall j: nat | j < n ensures StopsAt(all, j) == StopsAt(events, j) && SwapsAt(all, j) == SwapsAt(events, j) {
      PrefixEvents(events, e, j);
    }
    if StoppedSinceSwap(all) {
      var i: nat :| StopsAt(all, i) && forall j: nat | i < j < |all| :: !SwapsAt(all, j);
      if i < n { assert StopsAt(events, i); }
    }
    if StoppedSinceSwap(events) && !SwapsAt(all, n) {
      var i: nat :| StopsAt(events, i) && forall j: nat | i < j < |events| :: !SwapsAt(events, j);
      assert StopsAt(all, i);
    }
  }

  /** The flag of the state means what it says about the events. */
  lemma {:induction false} StoppedMeans(events: seq<Event>)
    ensures Reached(events).stopped <==> StoppedSinceSwap(events)
  {
    if events != [] {
      var init, e := events[..|events| - 1], events[|events| - 1];
      StoppedMeans(init);
      assert events == init + [e] && events[..|init|] == init;
      StoppedSnoc(init, e);
      hide StoppedSinceSwap, FleetOf, Valid, Answer;
    }
  }

  /** With a prober and a table, the probed set is the awake fleet of the installed table exactly when
      the last instance was never released since that table was swapped in (or it has no fleet): a
      full release stops the probers, and a re-push of the same generation does not restart them. */
  lemma ProbedIsFleetUnlessStopped(events: seq<Event>)
    requires Reached(events).table.Some? && Reached(events).probed.Some?
    ensures var e := Reached(events);
            e.probed.value == FleetOf(e.table.value) <==> !StoppedSinceSwap(events) || FleetOf(e.table.value) == {}
  {
    StaysInStep(events);
    StoppedMeans(events);
    hide StoppedSinceSwap;
  }

  /** Such a run: push a table with a fleet, release the only instance, retain it, push the same again. */
  lemma RepushDoesNotRestartProbers(t: Table)
    requires Valid(t) && FleetOf(t) != {}
    ensures var e := Reached([Retain, PushTable(t), Release, Retain, PushTable(t)]);
            e.table == Some(t) && e.refs == 1 && e.probed == Some({}) && e.probed.value != FleetOf(t)
  {
    hide Valid, FleetOf;
    var events := [Retain, PushTable(t), Release, Retain, PushTable(t)];
    assert events[..4] == [Retain, PushTable(t), Release, Retain];
    assert events[..4][..3] == [Retain, PushTable(t), Release];
    assert events[..4][..3][..2] == [Retain, PushTable(t)];
    assert events[..4][..3][..2][..1] == [Retain];
    assert events[..4][..3][..2][..1][..0] == [];
    assert Reached([Retain]) == Edge(1, None, Some({}), false);
    assert Reached([Retain, PushTable(t)]) == Edge(1, Some(t), Some(FleetOf(t)), false);
    assert Reached([Retain, PushTable(t), Release]) == Edge(0, Some(t), None, true);
    assert Reached([Retain, PushTable(t), Release, Retain]) == Edge(1, Some(t), Some({}), true);
  }
}
