/** `POST /revalidate` (apps/void-proxy/src/revalidate.ts) over the KV store it lists page by page while
    it deletes. Keys are listed in one total order; the edge cache is not part of this model. */
module IsrPurge {
  import opened Collections
  import opened Options
  import opened Strings
  import opened IsrKeys

  // ---- the order a listing follows ----

  predicate Past(cursor: Option<string>, key: string) {
    cursor.None? || Before(cursor.value, key)
  }

  lemma {:induction false} Lowest(keys: set<string>) returns (low: string)
    requires keys != {}
    ensures low in keys && forall k | k in keys && k != low :: Before(low, k)
  {
    low :| low in keys;
    var rest := keys - {low};
    if rest != {} {
      var other := Lowest(rest);
      BeforeIsStrict(low, other);
      if Before(other, low) {
        assert forall k | k in keys && k != other :: k == low || k in rest;
        low := other;
      } else {
        forall k | k in keys && k != low ensures Before(low, k) {
          assert k in rest;
          BeforeIsTransitive(low, other, k);
        }
      }
    } else {
      assert forall k | k in keys && k != low :: k in rest;
    }
  }

  // ---- the store ----

  datatype Page = Page(keys: seq<string>, complete: bool, cursor: Option<string>)

  /** What a listing answers: the next keys under the prefix past the cursor, at least one unless none is
      left; an incomplete page carries the position of its last key. */
  ghost predicate IsPage(keys: set<string>, prefix: string, cursor: Option<string>, page: Page) {
    && (forall i | 0 <= i < |page.keys| :: page.keys[i] in keys && prefix <= page.keys[i] && Past(cursor, page.keys[i]))
    && Distinct(page.keys)
    && (page.complete ==> forall k | k in keys && prefix <= k && Past(cursor, k) :: k in page.keys)
    && (!page.complete ==>
          && page.keys != [] && page.cursor == Some(page.keys[|page.keys| - 1])
          && forall k | k in keys && prefix <= k && Past(cursor, k) :: k in page.keys <==> !Past(page.cursor, k))
  }

  /** A KV namespace. Page sizes and failures are its own choice; a failed call says so. */
  class KvStore {
    var keys: set<string>

    constructor (initial: set<string>)
      ensures keys == initial
    {
      keys := initial;
    }

    method List(prefix: string, cursor: Option<string>) returns (ok: bool, page: Page)
      ensures ok ==> IsPage(keys, prefix, cursor, page)
    {
      ok := *;
      page := Page([], true, None);
      if !ok { return; }
      var left := set k | k in keys && prefix <= k && Past(cursor, k);
      var limit: nat :| true;
      var listed: seq<string> := [];
      ghost var all := left;
      while left != {} && |listed| <= limit
        invariant left <= all && forall k | k in all :: k in left <==> k !in listed
        invariant forall i | 0 <= i < |listed| :: listed[i] in all
        invariant Distinct(listed)
        invariant forall k | k in left && listed != [] :: Before(listed[|listed| - 1], k)
        invariant forall i | 0 <= i < |listed| - 1 :: Before(listed[i], listed[|listed| - 1])
        decreases left
      {
        ghost var low := Lowest(left);
        var k :| k in left && forall j | j in left && j != k :: Before(k, j);
        forall i | 0 <= i < |listed| ensures Before(listed[i], k) {
          if i < |listed| - 1 { BeforeIsTransitive(listed[i], listed[|listed| - 1], k); }
        }
        left := left - {k};
        listed := listed + [k];
      }
      var more: bool := *;
      var complete := left == {} && (listed == [] || !more);
      page := Page(listed, complete, if complete then None else Some(listed[|listed| - 1]));
      if !complete {
        forall k | k in all ensures k in listed <==> !Past(page.cursor, k) {
          BeforeIsStrict(page.cursor.value, k);
          BeforeIsStrict(k, page.cursor.value);
        }
      }
    }

    /** `Promise.all` over one delete a key: on success all are gone, on failure any part of them. */
    method DeleteAll(gone: seq<string>) returns (ok: bool)
      modifies this
      ensures if ok then keys == old(keys) - Elements(gone) else old(keys) - Elements(gone) <= keys <= old(keys)
    {
      ok := true;
      var i := 0;
      while i < |gone|
        invariant 0 <= i <= |gone| && old(keys) - Elements(gone[..i]) <= keys <= old(keys)
        invariant ok ==> keys == old(keys) - Elements(gone[..i])
      {
        assert Elements(gone[..i + 1]) == Elements(gone[..i]) + {gone[i]} by { ElementsUpTo(gone, i); }
        var fails: bool := *;
        if fails { ok := false; } else { keys := keys - {gone[i]}; }
        i := i + 1;
      }
      assert gone[..i] == gone;
    }
  }

  // ---- the purge ----

  /** Whether a key names one of the requested paths. */
  predicate Matches(key: string, wanted: set<string>) {
    ReadKey(key).Some? && ReadKey(key).value.normalizedPath in wanted
  }

  /** What a purge is after: everything under the prefix, or the wanted paths there. */
  predicate Targeted(prefix: string, wanted: Option<set<string>>, key: string) {
    prefix <= key && (wanted.None? || Matches(key, wanted.value))
  }

  function Target(keys: set<string>, prefix: string, wanted: Option<set<string>>): set<string> {
    set k | k in keys && Targeted(prefix, wanted, k)
  }

  /** The part of the target a scan has passed. */
  function Passed(keys: set<string>, prefix: string, wanted: Option<set<string>>, cursor: Option<string>): set<string> {
    set k | k in keys && Targeted(prefix, wanted, k) && !Past(cursor, k)
  }

  method Filter(keys: seq<string>, wanted: Option<set<string>>) returns (matched: seq<string>)
    requires Distinct(keys)
    ensures Distinct(matched)
    ensures Elements(matched) == set k | k in Elements(keys) && (wanted.None? || Matches(k, wanted.value))
  {
    hide Matches;
    if wanted.None? { return keys; }
    matched := [];
    var i := 0;
    while i < |keys|
      invariant 0 <= i <= |keys|
      invariant Distinct(matched)
      invariant Elements(matched) == set k | k in Elements(keys[..i]) && Matches(k, wanted.value)
    {
      ElementsUpTo(keys, i);
      if Matches(keys[i], wanted.value) {
        ghost var longer := matched + [keys[i]];
        ElementsUpTo(longer, |matched|);
        assert longer[..|matched|] == matched && longer[..|matched| + 1] == longer;
        assert keys[i] !in Elements(keys[..i]);
        forall a | 0 <= a < |matched| ensures matched[a] != keys[i] { assert matched[a] in Elements(matched); }
        matched := matched + [keys[i]];
      }
      i := i + 1;
    }
    assert keys[..i] == keys;
  }

  /** Deleting a page's matches passes the scan on to the page's cursor, or to the end. */
  lemma PageIsPassed(was: set<string>, prefix: string, wanted: Option<set<string>>, cursor: Option<string>, page: Page)
    requires IsPage(was - Passed(was, prefix, wanted, cursor), prefix, cursor, page)
    ensures var matched := set k | k in Elements(page.keys) && (wanted.None? || Matches(k, wanted.value));
            var before := Passed(was, prefix, wanted, cursor);
            && before !! matched
            && before + matched ==
               if page.complete then Target(was, prefix, wanted) else Passed(was, prefix, wanted, page.cursor)
  {
    hide Matches;
    var before := Passed(was, prefix, wanted, cursor);
    var matched := set k | k in Elements(page.keys) && (wanted.None? || Matches(k, wanted.value));
    forall k ensures k in matched <==> k in was && Targeted(prefix, wanted, k) && Past(cursor, k)
                                       && (page.complete || !Past(page.cursor, k)) {
      assert k in was && Past(cursor, k) ==> k in was - before;
      assert k in page.keys <==> k in Elements(page.keys);
    }
    if !page.complete && cursor.Some? {
      var next := page.keys[|page.keys| - 1];
      forall k | !Past(cursor, k) ensures !Past(page.cursor, k) { BeforeIsTransitive(cursor.value, next, k); }
    }
  }

  function Ahead(was: set<string>, cursor: Option<string>): set<string> {
    set k | k in was && Past(cursor, k)
  }

  lemma CursorAdvances(was: set<string>, prefix: string, cursor: Option<string>, page: Page, keys: set<string>)
    requires IsPage(keys, prefix, cursor, page) && keys <= was && !page.complete
    ensures Ahead(was, page.cursor) < Ahead(was, cursor)
  {
    var next := page.keys[|page.keys| - 1];
    BeforeIsStrict(next, next);
    assert next in Ahead(was, cursor) && next !in Ahead(was, page.cursor);
    if cursor.Some? {
      forall k | Past(page.cursor, k) ensures Past(cursor, k) { BeforeIsTransitive(cursor.value, next, k); }
    }
  }

  /** The paged loop: `deletePrefix`, and with `wanted` the loop of `handleRevalidate`. It removes its
      target exactly and counts it, however the store cuts its pages; a failed call leaves part of it. */
  method Purge(kv: KvStore, prefix: string, wanted: Option<set<string>>) returns (ok: bool, purged: nat)
    modifies kv
    ensures ok ==> kv.keys == old(kv.keys) - Target(old(kv.keys), prefix, wanted)
    ensures ok ==> purged == |Target(old(kv.keys), prefix, wanted)|
    ensures !ok ==> old(kv.keys) - Target(old(kv.keys), prefix, wanted) <= kv.keys <= old(kv.keys)
  {
    hide Matches, Before;
    ghost var was := kv.keys;
    purged := 0;
    var cursor: Option<string>, done := None, false;
    while !done
      invariant !done ==> kv.keys == was - Passed(was, prefix, wanted, cursor)
      invariant !done ==> purged == |Passed(was, prefix, wanted, cursor)|
      invariant done ==> kv.keys == was - Target(was, prefix, wanted) && purged == |Target(was, prefix, wanted)|
      decreases !done, Ahead(was, cursor)
    {
      var page;
      ok, page := kv.List(prefix, cursor);
      if !ok { return; }
      var matched := Filter(page.keys, wanted);
      PageIsPassed(was, prefix, wanted, cursor, page);
      DistinctSize(matched);
      ok := kv.DeleteAll(matched);
      if !ok { return; }
      purged := purged + |matched|;
      if page.complete {
        done := true;
      } else {
        CursorAdvances(was, prefix, cursor, page, was - Passed(was, prefix, wanted, cursor));
        cursor := page.cursor;
      }
    }
    ok := true;
  }

  // ---- the request ----

  datatype Reply = NotConfigured | Purged(count: nat) | Failed

  /** What a request is after; `None` stands for `all: true`. */
  function Wanted(paths: seq<string>): set<string> {
    set i | 0 <= i < |paths| :: Normalize(paths[i])
  }

  function Doomed(keys: set<string>, all: bool, paths: seq<string>): set<string> {
    if all then Target(keys, ISR_V3_PREFIX, None) + Target(keys, ISR_HOST_REGISTRY_PREFIX, None)
    else Target(keys, ISR_V3_PREFIX, Some(Wanted(paths)))
  }

  lemma PrefixesAreDisjoint(key: string)
    ensures !(ISR_V3_PREFIX <= key && ISR_HOST_REGISTRY_PREFIX <= key)
  {
    if ISR_V3_PREFIX <= key { assert key[0] == ISR_V3_PREFIX[0]; }
    if ISR_HOST_REGISTRY_PREFIX <= key { assert key[0] == ISR_HOST_REGISTRY_PREFIX[0]; }
  }

  lemma TargetsAreDisjoint(keys: set<string>)
    ensures var a, b := Target(keys, ISR_V3_PREFIX, None), Target(keys, ISR_HOST_REGISTRY_PREFIX, None);
            a !! b && Target(keys - a, ISR_HOST_REGISTRY_PREFIX, None) == b
  {
    forall k | k in keys ensures !(ISR_V3_PREFIX <= k && ISR_HOST_REGISTRY_PREFIX <= k) { PrefixesAreDisjoint(k); }
  }

  /** Exactly the doomed keys go and the reply counts them; a failed request removes no other key. */
  method HandleRevalidate(kv: KvStore?, all: bool, paths: seq<string>) returns (reply: Reply)
    modifies kv
    ensures reply == NotConfigured <==> kv == null
    ensures reply.Purged? ==>
              kv.keys == old(kv.keys) - Doomed(old(kv.keys), all, paths)
              && reply.count == |Doomed(old(kv.keys), all, paths)|
    ensures reply == Failed ==> old(kv.keys) - Doomed(old(kv.keys), all, paths) <= kv.keys <= old(kv.keys)
  {
    if kv == null { return NotConfigured; }
    ghost var was := kv.keys;
    var wanted: set<string> := {};
    var i := 0;
    while i < |paths|
      invariant 0 <= i <= |paths| && wanted == Wanted(paths[..i]) && kv.keys == was
    {
      var normalized := NormalizePath(paths[i]);
      WantedSnoc(paths, i);
      wanted := wanted + {normalized};
      i := i + 1;
    }
    assert paths[..i] == paths;
    if !all && wanted == {} {
      assert Doomed(was, all, paths) == {};
      return Purged(0);
    }
    if all {
      var ok, first := Purge(kv, ISR_V3_PREFIX, None);
      if !ok { return Failed; }
      TargetsAreDisjoint(was);
      var second;
      ok, second := Purge(kv, ISR_HOST_REGISTRY_PREFIX, None);
      if !ok { return Failed; }
      return Purged(first + second);
    }
    var ok, purged := Purge(kv, ISR_V3_PREFIX, Some(wanted));
    return if ok then Purged(purged) else Failed;
  }

  lemma WantedSnoc(paths: seq<string>, i: nat)
    requires i < |paths|
    ensures Wanted(paths[..i + 1]) == Wanted(paths[..i]) + {Normalize(paths[i])}
  {
    var a, b := paths[..i], paths[..i + 1];
    assert b[i] == paths[i] && forall j | 0 <= j < i :: a[j] == b[j];
    forall x | x in Wanted(a) ensures x in Wanted(b) {
      var j :| 0 <= j < |a| && Normalize(a[j]) == x;
      assert Normalize(b[j]) == x;
    }
  }

  /** `all` dooms exactly the cached pages and the host registry. */
  lemma AllIsDoomed(keys: set<string>, paths: seq<string>, key: string)
    ensures key in Doomed(keys, true, paths)
            <==> key in keys && ("__void_direct__/isr/v3/" <= key || "void-isr-hosts/" <= key)
  {
  }

  /** Path mode leaves the registry, and every key built for a path that does not normalize as a requested
      one, alone. */
  lemma OtherPathsStay(keys: set<string>, paths: seq<string>, pathname: string,
                       deploymentId: string, host: string, token: Option<string>, registered: string)
    requires '/' !in deploymentId && '/' !in host && !Contains(Normalize(pathname), ISR_VARIANT_SEPARATOR)
    requires "void-isr-hosts/" <= registered
    requires forall i | 0 <= i < |paths| :: Normalize(paths[i]) != Normalize(pathname)
    ensures CacheKey(deploymentId, host, pathname, token) !in Doomed(keys, false, paths)
    ensures registered !in Doomed(keys, false, paths)
  {
    hide Normalize, SplitCacheKey, SplitKeyName;
    var n := Normalize(pathname);
    NameRoundTrip(deploymentId, host, n + Suffix(token));
    KeyPathRoundTrip(n, token);
    PrefixesAreDisjoint(registered);
  }

  /** Path mode reaches every key a writer built for a requested path, whatever the slash-free deployment
      id and host and whatever the variant, when that key reads back whole (`IsrKeys.KeyRoundTrip`). */
  lemma BuiltKeysAreDoomed(keys: set<string>, paths: seq<string>, i: nat,
                           deploymentId: string, host: string, token: Option<string>)
    requires i < |paths| && '/' !in deploymentId && '/' !in host
    requires CacheKey(deploymentId, host, paths[i], token) in keys
    requires !Contains(Normalize(paths[i]), ISR_VARIANT_SEPARATOR) && (Normalize(paths[i]) != "" || token.Some?)
    ensures CacheKey(deploymentId, host, paths[i], token) in Doomed(keys, false, paths)
  {
    hide Normalize, ReadKey;
    KeyRoundTrip(deploymentId, host, paths[i], token);
    assert Normalize(paths[i]) in Wanted(paths);
  }

  /** The condition is exact: a request for one path reaches a key built for it only when the path holds
      no separator and the key path is not empty. */
  lemma OwnKeyIsDoomedExactly(keys: set<string>, pathname: string, deploymentId: string, host: string, token: Option<string>)
    requires '/' !in deploymentId && '/' !in host && CacheKey(deploymentId, host, pathname, token) in keys
    ensures CacheKey(deploymentId, host, pathname, token) in Doomed(keys, false, [pathname])
            <==> !Contains(Normalize(pathname), ISR_VARIANT_SEPARATOR) && (Normalize(pathname) != "" || token.Some?)
  {
    hide Normalize, SplitCacheKey, SplitKeyName;
    var n := Normalize(pathname);
    assert Wanted([pathname]) == {n} by { OnePath(pathname); }
    NameRoundTrip(deploymentId, host, n + Suffix(token));
    KeyPathRoundTrip(n, token);
  }

  /** Such a request: a path of two slashes normalizes to nothing, and the key written for it stays. */
  lemma TwoSlashesAreMissed()
    ensures Doomed({CacheKey("d", "h", "//", None)}, false, ["//"]) == {}
  {
    var key := CacheKey("d", "h", "//", None);
    OwnKeyIsDoomedExactly({key}, "//", "d", "h", None);
    assert Normalize("//") == "";
    hide CacheKey;
  }

  lemma OnePath(pathname: string)
    ensures Wanted([pathname]) == {Normalize(pathname)}
  {
    var paths := [pathname];
    assert Normalize(paths[0]) in Wanted(paths);
  }
}
