/** The process-wide pool of rate-limit zones (the Limiter type of edge/limit.go). Each method is
    one critical section of its mutex; the clock reading taken before the lock is a parameter. */
module EdgeLimiterPool {
  import opened EdgeLimiter

  type Zones = map<string, Zone>

  function ZoneOf(zones: Zones, name: string): Zone {
    if name in zones then zones[name] else map[]
  }

  /** `after` is `before` without its least recently seen quarter, and one more. */
  predicate Evicted(before: Zone, after: Zone) {
    && after.Keys <= before.Keys
    && |after| == |before| - (|before| / 4 + 1)
    && (forall k | k in after :: after[k] == before[k])
    && forall dropped, kept | dropped in before && dropped !in after && kept in after ::
         before[dropped].lastSeen <= before[kept].lastSeen
  }

  function SweepAll(zones: Zones, keep: set<string>, idle: int, now: int): Zones {
    map name | name in zones && name in keep :: SweepZone(zones[name], idle, now)
  }

  /** What a sweep keeps: the named zones, in them the keys seen within `idle`, each with its state. */
  lemma SweepKeepsExactly(zones: Zones, keep: set<string>, idle: int, now: int)
    ensures var swept := SweepAll(zones, keep, idle, now);
            && (forall name :: name in swept <==> name in zones && name in keep)
            && (forall name, key | name in swept ::
                  key in swept[name] <==> key in zones[name] && now <= zones[name][key].lastSeen + idle)
            && (forall name, key | name in swept && key in swept[name] :: swept[name][key] == zones[name][key])
  {
  }

  /** Every stamp log is ascending and was last seen by `now`. */
  predicate Ordered(zones: Zones, now: int) {
    forall name, key | name in zones && key in zones[name] ::
      Ascending(zones[name][key].stamps) && Seen(zones[name][key], now)
  }

  lemma {:induction false} LeastSeen(zone: Zone) returns (key: string)
    requires zone != map[]
    ensures key in zone && forall k | k in zone :: zone[key].lastSeen <= zone[k].lastSeen
  {
    var k :| k in zone;
    var rest := zone - {k};
    assert forall j | j in zone && j != k :: j in rest;
    if rest == map[] {
      key := k;
    } else {
      var r := LeastSeen(rest);
      key := if zone[k].lastSeen <= rest[r].lastSeen then k else r;
    }
  }

  /** The binary search of Go's `sort.Search` for the first stamp past `cutoff`. */
  method Search(stamps: seq<int>, cutoff: int) returns (k: nat)
    requires Ascending(stamps)
    ensures k == FirstAfter(stamps, cutoff)
  {
    var i, j := 0, |stamps|;
    while i < j
      invariant 0 <= i <= j <= |stamps|
      invariant forall a | 0 <= a < i :: stamps[a] <= cutoff
      invariant forall a | j <= a < |stamps| :: stamps[a] > cutoff
    {
      var h := (i + j) / 2;
      if stamps[h] > cutoff { j := h; } else { i := h + 1; }
    }
    k := i;
    FirstAfterIsLeast(stamps, cutoff, k);
  }

  class Limiter {
    var zones: Zones

    constructor ()
      ensures zones == map[]
    {
      zones := map[];
    }

    method Allow(zone: string, rpm: nat, key: string, now: int) returns (allowed: bool, retryAfter: int)
      requires Ordered(zones, now)
      modifies this
      ensures rpm == 0 || key == "" ==> zones == old(zones) && allowed && retryAfter == 0
      ensures rpm > 0 && key != "" ==>
                var was := ZoneOf(old(zones), zone);
                exists room ::
                  && (if key in was || |was| < MAX_KEYS then room == was else Evicted(was, room))
                  && zones == old(zones)[zone := HitZone(room, key, rpm, now).0]
                  && Verdict(allowed, retryAfter) == HitZone(room, key, rpm, now).1
      ensures Ordered(zones, now)
    {
      hide Ascending, Hit, Budget;
      if rpm == 0 || key == "" { return true, 0; }
      var room := if zone in zones then zones[zone] else map[];
      if key !in room && |room| >= MAX_KEYS {
        room := Evict(room);
      }
      ghost var chosen := room;
      var ks := if key in room then room[key] else NewKey;
      var next;
      next, allowed, retryAfter := Count(ks, rpm, now);
      zones := zones[zone := room[key := next]];
      assert zones == old(zones)[zone := HitZone(chosen, key, rpm, now).0];
    }

    /** What one counted call does to its key's log. */
    method Count(ks: KeyState, rpm: nat, now: int) returns (next: KeyState, allowed: bool, retryAfter: int)
      requires Ascending(ks.stamps) && (Seen(ks, now) || ks == NewKey)
      ensures (next, Verdict(allowed, retryAfter)) == Hit(ks, rpm, now)
      ensures Ascending(next.stamps) && Seen(next, now)
    {
      var cutoff := now - WINDOW;
      var keep := Search(ks.stamps, cutoff);
      var stamps := ks.stamps[keep..];
      if |stamps| >= Budget(rpm) {
        var retry := (stamps[0] + WINDOW - now + SECOND - 1) / SECOND;
        if retry < 1 { retry := 1; }
        allowed, retryAfter := false, retry * SECOND;
      } else {
        stamps := stamps + [now];
        allowed, retryAfter := true, 0;
      }
      KeptInOrder(ks, rpm, now);
      next := KeyState(stamps, now);
    }

    method Evict(zone: Zone) returns (left: Zone)
      requires zone != map[]
      ensures Evicted(zone, left)
    {
      left := zone;
      var n := |zone| / 4 + 1;
      var i := 0;
      while i < n
        invariant 0 <= i <= n && left.Keys <= zone.Keys && |left| == |zone| - i
        invariant forall k | k in left :: left[k] == zone[k]
        invariant forall dropped, kept | dropped in zone && dropped !in left && kept in left ::
                    zone[dropped].lastSeen <= zone[kept].lastSeen
      {
        ghost var least := LeastSeen(left);
        var k :| k in left.Keys && forall j | j in left.Keys :: left[k].lastSeen <= left[j].lastSeen;
        assert (left - {k}).Keys == left.Keys - {k} && |left.Keys| == |left| && |(left - {k}).Keys| == |left - {k}|;
        left := left - {k};
        i := i + 1;
      }
    }

    /** Drop the zones the table no longer names, and keys unseen for longer than `idle`. */
    method Sweep(keep: set<string>, idle: int, now: int)
      modifies this
      ensures zones == SweepAll(old(zones), keep, idle, now)
      ensures forall name :: name in zones <==> name in old(zones) && name in keep
      ensures forall name, key | name in zones ::
                key in zones[name] <==> key in old(zones)[name] && now <= old(zones)[name][key].lastSeen + idle
      ensures forall name, key | name in zones && key in zones[name] :: zones[name][key] == old(zones)[name][key]
    {
      var names := zones.Keys;
      ghost var done: set<string> := {};
      while names != {}
        invariant names + done == old(zones).Keys && names !! done
        invariant zones.Keys == names + (done * keep)
        invariant forall name | name in names :: zones[name] == old(zones)[name]
        invariant forall name | name in done && name in keep :: zones[name] == SweepZone(old(zones)[name], idle, now)
        decreases names
      {
        var name :| name in names;
        if name !in keep {
          zones := zones - {name};
        } else {
          var swept := SweepKeys(zones[name], idle, now);
          zones := zones[name := swept];
        }
        names := names - {name};
        done := done + {name};
      }
      SweepKeepsExactly(old(zones), keep, idle, now);
    }

    method SweepKeys(zone: Zone, idle: int, now: int) returns (left: Zone)
      ensures left == SweepZone(zone, idle, now)
    {
      left := zone;
      var keys := zone.Keys;
      while keys != {}
        invariant keys <= left.Keys <= zone.Keys
        invariant forall k | k in left :: left[k] == zone[k]
        invariant forall k | k in zone && k !in keys :: k in left <==> now - zone[k].lastSeen <= idle
        decreases keys
      {
        var k :| k in keys;
        if now - left[k].lastSeen > idle { left := left - {k}; }
        keys := keys - {k};
      }
    }
  }

  lemma KeptInOrder(ks: KeyState, rpm: nat, now: int)
    requires Ascending(ks.stamps) && (Seen(ks, now) || ks == NewKey)
    ensures Ascending(Hit(ks, rpm, now).0.stamps) && Seen(Hit(ks, rpm, now).0, now)
  {
    HitSees(ks, rpm, now, now);
  }
}
