/** What the limiter's clients see of table pushes: nothing, as long as the tables name their zone. */
module EdgeSweeps {
  import opened EdgeLimiter
  import opened EdgeLimiterPool
  import opened EdgeTable
  import opened EdgePush
  import opened EdgeState

  /** A call of the limiter, or the swap of a pushed table, which sweeps the pool with the zones of the
      table. */
  datatype Traffic = Call(zone: string, key: string, rpm: nat, at: int) | Swap(table: Table, at: int)

  /** The table gives the zone to one of its routes. */
  predicate Names(t: Table, zone: string) {
    && zone != ""
    && ((exists host :: host in t.exact && (t.exact[host].clientZone == zone || t.exact[host].appZone == zone))
        || exists i :: 0 <= i < |t.wildcards|
             && (t.wildcards[i].route.clientZone == zone || t.wildcards[i].route.appZone == zone))
  }

  /** What a swap collects are the zones the table names. */
  lemma ZonesAreNamed(t: Table, zone: string)
    ensures zone in ZonesOf(t) <==> Names(t, zone)
  {
    if zone in ZonesOf(t) {
      if host :| host in t.exact && zone in ZonesOfRoute(t.exact[host]) {
      } else {
        var w :| w in t.wildcards && zone in ZonesOfRoute(w.route);
        var i :| 0 <= i < |t.wildcards| && t.wildcards[i] == w;
      }
    }
    if Names(t, zone) {
      if host :| host in t.exact && (t.exact[host].clientZone == zone || t.exact[host].appZone == zone) {
        assert zone in ZonesOfRoute(t.exact[host]);
      } else {
        var i :| 0 <= i < |t.wildcards|
                 && (t.wildcards[i].route.clientZone == zone || t.wildcards[i].route.appZone == zone);
        assert t.wildcards[i] in t.wildcards && zone in ZonesOfRoute(t.wildcards[i].route);
      }
    }
  }

  /** The pool and the verdicts of its calls on `zone`, in order; no zone is full. */
  function RunPool(zones: Zones, traffic: seq<Traffic>, zone: string): (Zones, seq<Verdict>) {
    if traffic == [] then (zones, [])
    else
      var (before, verdicts) := RunPool(zones, traffic[..|traffic| - 1], zone);
      match traffic[|traffic| - 1]
      case Call(z, key, rpm, at) =>
        var (after, verdict) := HitZone(ZoneOf(before, z), key, rpm, at);
        (before[z := after], if z == zone then verdicts + [verdict] else verdicts)
      case Swap(t, at) => (SweepAll(before, ZonesOf(t), HOUR, at), verdicts)
  }

  /** The same traffic without its pushes. */
  function Calls(traffic: seq<Traffic>): seq<Traffic> {
    if traffic == [] then []
    else
      var last := traffic[|traffic| - 1];
      Calls(traffic[..|traffic| - 1]) + if last.Call? then [last] else []
  }

  /** What the traffic is to one zone. */
  function OpsOn(traffic: seq<Traffic>, zone: string): seq<Op> {
    if traffic == [] then []
    else
      OpsOn(traffic[..|traffic| - 1], zone)
      + match traffic[|traffic| - 1]
        case Call(z, key, rpm, at) => if z == zone then [Allow(key, rpm, at)] else []
        case Swap(_, at) => [Op.Sweep(HOUR, at)]
  }

  function At(traffic: seq<Traffic>, start: int): int {
    if traffic == [] then start else traffic[|traffic| - 1].at
  }

  /** Readings never go back. */
  predicate InOrder(traffic: seq<Traffic>, start: int) {
    traffic == []
    || (InOrder(traffic[..|traffic| - 1], start) && At(traffic[..|traffic| - 1], start) <= traffic[|traffic| - 1].at)
  }

  /** Every table that is swapped in names the zone. */
  predicate AlwaysNamed(traffic: seq<Traffic>, zone: string) {
    forall i | 0 <= i < |traffic| && traffic[i].Swap? :: Names(traffic[i].table, zone)
  }

  /** A zone every table names is a run of its own. */
  lemma {:induction false} ZoneIsItsOwnRun(zones: Zones, traffic: seq<Traffic>, zone: string)
    requires AlwaysNamed(traffic, zone)
    ensures ZoneOf(RunPool(zones, traffic, zone).0, zone) == RunZone(ZoneOf(zones, zone), OpsOn(traffic, zone)).0
    ensures RunPool(zones, traffic, zone).1 == RunZone(ZoneOf(zones, zone), OpsOn(traffic, zone)).1
  {
    hide HitZone, SweepZone, Names, ZonesOf;
    if traffic != [] {
      var init, last := traffic[..|traffic| - 1], traffic[|traffic| - 1];
      ZoneIsItsOwnRun(zones, init, zone);
      var before := RunPool(zones, init, zone).0;
      match last
      case Call(z, key, rpm, at) =>
        if z == zone {
          OpsSnoc(ZoneOf(zones, zone), OpsOn(init, zone), Allow(key, rpm, at));
        } else {
          assert OpsOn(traffic, zone) == OpsOn(init, zone);
        }
      case Swap(t, at) =>
        OpsSnoc(ZoneOf(zones, zone), OpsOn(init, zone), Op.Sweep(HOUR, at));
        assert Names(t, zone);
        ZonesAreNamed(t, zone);
        SweepOfNamed(before, zone, t, at);
    }
  }

  lemma OpsSnoc(zone: Zone, ops: seq<Op>, op: Op)
    ensures var (before, verdicts) := RunZone(zone, ops);
            RunZone(zone, ops + [op])
            == match op
               case Allow(key, rpm, at) => (HitZone(before, key, rpm, at).0, verdicts + [HitZone(before, key, rpm, at).1])
               case Sweep(idle, at) => (SweepZone(before, idle, at), verdicts)
  {
    hide HitZone, SweepZone;
    assert (ops + [op])[..|ops|] == ops;
  }

  lemma SweepOfNamed(zones: Zones, zone: string, t: Table, at: int)
    requires zone in ZonesOf(t)
    ensures ZoneOf(SweepAll(zones, ZonesOf(t), HOUR, at), zone) == SweepZone(ZoneOf(zones, zone), HOUR, at)
  {
    hide ZonesOf;
  }

  lemma {:induction false} OpsOfCalls(traffic: seq<Traffic>, zone: string)
    ensures OpsOn(Calls(traffic), zone) == Hits(OpsOn(traffic, zone))
    ensures forall i | 0 <= i < |Calls(traffic)| :: Calls(traffic)[i].Call?
  {
    if traffic != [] {
      var init, last := traffic[..|traffic| - 1], traffic[|traffic| - 1];
      OpsOfCalls(init, zone);
      var calls, ops := Calls(init), OpsOn(init, zone);
      if last.Call? { assert Calls(traffic)[..|calls|] == calls; } else { assert Calls(traffic) == calls; }
      assert OpsOn(traffic, zone) == ops || OpsOn(traffic, zone)[..|ops|] == ops;
    }
  }

  lemma TimelySnoc(ops: seq<Op>, op: Op, start: int)
    requires Timely(ops, start) && LastAt(ops, start) <= op.at && (op.Sweep? ==> op.idle >= WINDOW)
    ensures Timely(ops + [op], start) && LastAt(ops + [op], start) == op.at
  {
    assert (ops + [op])[..|ops|] == ops;
  }

  lemma {:induction false} OpsAreTimely(traffic: seq<Traffic>, zone: string, start: int)
    requires InOrder(traffic, start)
    ensures Timely(OpsOn(traffic, zone), start) && LastAt(OpsOn(traffic, zone), start) <= At(traffic, start)
  {
    hide Timely, LastAt;
    if traffic == [] {
      NothingIsTimely(start);
    } else {
      var init, last := traffic[..|traffic| - 1], traffic[|traffic| - 1];
      OpsAreTimely(init, zone, start);
      var ops := OpsOn(init, zone);
      if last.Swap? { TimelySnoc(ops, Op.Sweep(HOUR, last.at), start); }
      else if last.zone == zone { TimelySnoc(ops, Allow(last.key, last.rpm, last.at), start); }
      else { assert OpsOn(traffic, zone) == ops; }
    }
  }

  lemma NothingIsTimely(start: int)
    ensures Timely([], start) && LastAt([], start) == start
  {
  }

  /** No key of the zone is ever refused a place for want of room. */
  predicate HasRoomFor(zones: Zones, traffic: seq<Traffic>, zone: string) {
    StaysUnderMax(ZoneOf(zones, zone), OpsOn(Calls(traffic), zone))
  }

  /** A push is unobservable to the clients of a zone its table names: over any traffic, the calls on that
      zone get the verdicts they would get without the pushes, as long as it stays under its key limit. */
  lemma PushesAreUnobservable(zones: Zones, traffic: seq<Traffic>, zone: string, start: int)
    requires AlwaysNamed(traffic, zone) && InOrder(traffic, start)
    requires forall key | key in ZoneOf(zones, zone) :: Seen(ZoneOf(zones, zone)[key], start)
    requires |ZoneOf(zones, zone)| <= MAX_KEYS && HasRoomFor(zones, traffic, zone)
    ensures RunPool(zones, traffic, zone).1 == RunPool(zones, Calls(traffic), zone).1
  {
    hide RunPool, RunZone, Names, ZoneOf;
    OpsOfCalls(traffic, zone);
    OpsAreTimely(traffic, zone, start);
    ZoneIsItsOwnRun(zones, traffic, zone);
    ZoneIsItsOwnRun(zones, Calls(traffic), zone);
    SweepsAreUnobservable(ZoneOf(zones, zone), ZoneOf(zones, zone), OpsOn(traffic, zone), start);
  }

  /** A client at its budget stays there across a push that names its zone; a zone the pushed table does
      not name is gone. */
  lemma PushKeepsTheLog(zones: Zones, t: Table, zone: string, key: string, at: int)
    requires zone in zones && key in zones[zone] && at <= zones[zone][key].lastSeen + WINDOW
    ensures var swept := SweepAll(zones, ZonesOf(t), HOUR, at);
            if Names(t, zone) then zone in swept && key in swept[zone] && swept[zone][key] == zones[zone][key]
            else zone !in swept
  {
    hide Names, ZonesOf;
    ZonesAreNamed(t, zone);
    SweepKeepsExactly(zones, ZonesOf(t), HOUR, at);
  }
}
