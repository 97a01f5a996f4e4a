/** The shared state of the edge module (edge/edge.go) and its prober (edge/ready.go). Each method is
    one critical section; a probe's outcome and a clock reading are parameters. */
module EdgeState {
  import opened Options
  import opened EdgeTable
  import opened EdgePush
  import EdgeLimiterPool

  const HOUR := 3_600_000_000_000

  /** A Go channel that carries nothing and is closed once. */
  class Signal {
    var closed: bool

    constructor ()
      ensures !closed
    {
      closed := false;
    }
  }

  class UpstreamState {
    var healthy: bool
    var changed: Signal
    var cancelled: bool

    constructor ()
      ensures !healthy && !cancelled && fresh(changed) && !changed.closed
    {
      healthy, cancelled := false, false;
      changed := new Signal();
    }

    /** A probe's result. A flip closes the signal every earlier reader holds, and only a flip does. */
    method Set(outcome: bool)
      requires !changed.closed
      modifies this`healthy, this`changed, changed
      ensures healthy == outcome && !changed.closed
      ensures old(changed).closed <==> old(healthy) != outcome
      ensures if old(healthy) == outcome then changed == old(changed) else fresh(changed)
    {
      if healthy == outcome { return; }
      healthy := outcome;
      changed.closed := true;
      changed := new Signal();
    }
  }

  class Prober {
    var up: map<string, UpstreamState>

    ghost predicate Valid()
      reads this, up.Values
    {
      && (forall u | u in up :: up[u] in up.Values && !up[u].cancelled)
      && forall u, v | u in up && v in up && up[u] == up[v] :: u == v
    }

    constructor ()
      ensures Valid() && up == map[]
    {
      up := map[];
    }

    /** Exactly the given upstreams are probed afterwards: one that stays keeps its record and the
        health on it, one that joins gets a new record that starts down, and the record of one that
        leaves is cancelled. */
    method Track(upstreams: set<string>)
      requires Valid()
      modifies this, up.Values`cancelled
      ensures Valid() && up.Keys == upstreams
      ensures forall u | u in old(up) :: old(up)[u].cancelled == (u !in upstreams)
      ensures forall u | u in up && u in old(up) :: up[u] == old(up)[u]
      ensures forall u | u in up && u !in old(up) :: fresh(up[u]) && !up[u].healthy
    {
      StartJoined(upstreams);
      StopLeft(upstreams);
    }

    method StartJoined(upstreams: set<string>)
      requires Valid()
      modifies this
      ensures Valid() && up.Keys == old(up).Keys + upstreams
      ensures forall u | u in old(up) :: up[u] == old(up)[u]
      ensures forall u | u in up && u !in old(up) :: fresh(up[u]) && !up[u].healthy
    {
      var todo := upstreams;
      while todo != {}
        invariant todo <= upstreams && Valid() && up.Keys == old(up).Keys + (upstreams - todo)
        invariant forall u | u in old(up) :: up[u] == old(up)[u]
        invariant forall u | u in up && u !in old(up) :: fresh(up[u]) && !up[u].healthy
        decreases todo
      {
        var u :| u in todo;
        todo := todo - {u};
        if u !in up {
          var st := new UpstreamState();
          up := up[u := st];
        }
      }
    }

    method StopLeft(upstreams: set<string>)
      requires Valid()
      modifies this, up.Values`cancelled
      ensures up.Keys == old(up).Keys * upstreams
      ensures forall u | u in up :: up[u] == old(up)[u]
      ensures forall u | u in old(up) :: old(up)[u].cancelled == (u !in upstreams)
      ensures Valid()
    {
      ghost var was := up;
      var left := up.Keys;
      while left != {}
        invariant left <= up.Keys && up.Keys == left + (was.Keys * upstreams)
        invariant forall u | u in up :: up[u] == was[u]
        invariant forall u | u in was :: was[u].cancelled == (u !in up)
        decreases left
      {
        var u :| u in left;
        left := left - {u};
        if u !in upstreams {
          up[u].cancelled := true;
          up := up - {u};
        }
      }
    }

    method Stop()
      requires Valid()
      modifies this, up.Values
      ensures up == map[] && forall u | u in old(up) :: old(up)[u].cancelled
    {
      Track({});
    }
  }

  class SharedState {
    var refs: nat
    var tab: Option<Table>
    var lim: EdgeLimiterPool.Limiter?
    var prober: Prober?
    var loaded: bool
    ghost var stopped: bool

    ghost predicate Valid()
      reads this, prober, if prober == null then {} else prober.up.Values
    {
      && (prober == null <==> lim == null)
      && (prober != null ==> prober.Valid())
      && (loaded <==> tab.Some?)
    }

    ghost function View(): Edge
      reads this, prober
    {
      Edge(refs, tab, if prober == null then None else Some(prober.up.Keys), stopped)
    }

    constructor ()
      ensures Valid() && View() == Boot
    {
      refs, tab, lim, prober, loaded, stopped := 0, None, null, null, false, false;
    }

    method InitLocked()
      requires Valid()
      modifies this`lim, this`prober
      ensures Valid() && prober != null && lim != null
      ensures if old(prober) == null then fresh(prober) && fresh(lim) && prober.up == map[] && lim.zones == map[]
              else prober == old(prober) && lim == old(lim)
    {
      if lim == null { lim := new EdgeLimiterPool.Limiter(); }
      if prober == null { prober := new Prober(); }
    }

    method Retain()
      requires Valid()
      modifies this
      ensures Valid() && View() == Do(old(View()), Event.Retain)
    {
      refs := refs + 1;
      InitLocked();
      assert old(prober) == null ==> prober.up.Keys == {};
    }

    method Release()
      requires Valid()
      modifies this, prober, if prober == null then {} else prober.up.Values
      ensures Valid() && View() == Do(old(View()), Event.Release)
      ensures old(prober) != null && prober == null ==>
                forall u | u in old(prober.up) :: old(prober.up)[u].cancelled
    {
      if refs > 0 { refs := refs - 1; }
      if refs == 0 && prober != null {
        prober.Stop();
        prober := null;
        lim := null;
        stopped := true;
      }
    }

    /** One table swap: the prober is left on exactly the awake fleet, the limiter on exactly the
        zones the table names, and an upstream probed before and after keeps its record. */
    method SwapLocked(t: Table, now: int)
      requires Valid()
      modifies this, prober, lim, if prober == null then {} else prober.up.Values
      ensures Valid() && View() == Swapped(old(View()), t)
      ensures old(lim) != null ==>
                lim == old(lim) && lim.zones == EdgeLimiterPool.SweepAll(old(lim.zones), ZonesOf(t), HOUR, now)
      ensures old(prober) != null ==> prober == old(prober)
      ensures old(prober) != null ==>
                forall u | u in old(prober.up) && u in FleetOf(t) ::
                  prober.up[u] == old(prober.up[u]) && prober.up[u].healthy == old(prober.up[u].healthy)
    {
      hide FleetOf, ZonesOf, EdgeLimiterPool.SweepAll;
      InitLocked();
      tab := Some(t);
      loaded := true;
      stopped := false;
      var keep, fleet := Collect(t);
      prober.Track(fleet);
      lim.Sweep(keep, HOUR, now);
    }

    /** The POST branch of the admin handler, after the body decoded to a table. */
    method Post(t: Table, now: int) returns (reply: Reply)
      requires Valid()
      modifies this, prober, lim, if prober == null then {} else prober.up.Values
      ensures Valid() && reply == Answer(old(tab), t) && View() == Do(old(View()), PushTable(t))
      ensures reply == Installed <==> tab != old(tab)
      ensures reply != Installed ==>
                unchanged(this) && (prober != null ==> unchanged(prober)) && (lim != null ==> unchanged(lim))
      ensures reply == Installed && old(lim) != null ==>
                lim == old(lim) && lim.zones == EdgeLimiterPool.SweepAll(old(lim.zones), ZonesOf(t), HOUR, now)
      ensures reply == Installed && old(prober) != null ==>
                prober == old(prober) && forall u | u in old(prober.up) && u in FleetOf(t) ::
                  prober.up[u] == old(prober.up[u]) && prober.up[u].healthy == old(prober.up[u].healthy)
    {
      var ok := Check(t);
      if !ok { return BadTable; }
      if tab.Some? && t.generation < tab.value.generation { return Stale; }
      if tab.Some? && t.generation == tab.value.generation { return Unchanged; }
      SwapLocked(t, now);
      return Installed;
    }
  }

  /** The two loops of a swap over the table's routes. */
  method Collect(t: Table) returns (keep: set<string>, fleet: set<string>)
    ensures keep == ZonesOf(t) && fleet == FleetOf(t)
  {
    keep, fleet := {}, {};
    var hosts := t.exact.Keys;
    while hosts != {}
      invariant hosts <= t.exact.Keys
      invariant fleet == set host | host in t.exact && host !in hosts && Probed(t.exact[host]) :: t.exact[host].upstream
      invariant keep == set host, z | host in t.exact && host !in hosts && z in ZonesOfRoute(t.exact[host]) :: z
      decreases hosts
    {
      var host :| host in hosts;
      hosts := hosts - {host};
      keep, fleet := CollectRoute(t.exact[host], keep, fleet);
    }
    ghost var keep0, fleet0 := keep, fleet;
    var i := 0;
    while i < |t.wildcards|
      invariant 0 <= i <= |t.wildcards|
      invariant fleet == fleet0 + set w | w in t.wildcards[..i] && Probed(w.route) :: w.route.upstream
      invariant keep == keep0 + set w, z | w in t.wildcards[..i] && z in ZonesOfRoute(w.route) :: z
    {
      keep, fleet := CollectRoute(t.wildcards[i].route, keep, fleet);
      assert t.wildcards[..i + 1] == t.wildcards[..i] + [t.wildcards[i]];
      i := i + 1;
    }
    assert t.wildcards[..i] == t.wildcards;
  }

  method CollectRoute(r: Route, keep: set<string>, fleet: set<string>) returns (keep': set<string>, fleet': set<string>)
    ensures keep' == keep + ZonesOfRoute(r)
    ensures fleet' == fleet + if Probed(r) then {r.upstream} else {}
  {
    keep', fleet' := keep, fleet;
    if r.clientZone != "" { keep' := keep' + {r.clientZone}; }
    if r.appZone != "" { keep' := keep' + {r.appZone}; }
    if FleetKind(r.kind) && !r.asleep && r.upstream != "" { fleet' := fleet' + {r.upstream}; }
  }

  /** Table.Validate: every exact route, then every wildcard, stopping at the first that fails. */
  method Check(t: Table) returns (ok: bool)
    ensures ok == Valid(t)
  {
    var hosts := t.exact.Keys;
    while hosts != {}
      invariant hosts <= t.exact.Keys
      invariant forall host | host in t.exact && host !in hosts ::
                  !Blank(host) && host == ToLower(host) && ValidRoute(t.exact[host])
      decreases hosts
    {
      var host :| host in hosts;
      if Blank(host) || host != ToLower(host) || !ValidRoute(t.exact[host]) { return false; }
      hosts := hosts - {host};
    }
    var i := 0;
    while i < |t.wildcards|
      invariant 0 <= i <= |t.wildcards|
      invariant forall j | 0 <= j < i ::
                  var w := t.wildcards[j];
                  |w.suffix| >= 2 && w.suffix[0] == '.' && w.suffix == ToLower(w.suffix) && ValidRoute(w.route)
    {
      var w := t.wildcards[i];
      if |w.suffix| < 2 || w.suffix[0] != '.' || w.suffix != ToLower(w.suffix) || !ValidRoute(w.route) {
        return false;
      }
      i := i + 1;
    }
    return true;
  }
}
