/** The key codec of the ISR cache (apps/void-proxy/src/isr-keys.ts and `splitIsrKeyName` in
    revalidate.ts). A `char` stands for one UTF-16 code unit. */
module IsrKeys {
  import opened Options
  import opened Strings

  const ISR_V3_PREFIX: string := "__void_direct__/isr/v3/"
  const ISR_HOST_REGISTRY_PREFIX: string := "void-isr-hosts/"
  const ISR_VARIANT_SEPARATOR: string := "#rw="
  const INDEX: string := "__index__"

  ghost predicate Contains(s: string, part: string) {
    exists i: nat :: At(s, i, part)
  }

  predicate EndsWith(s: string, c: char) {
    s != "" && s[|s| - 1] == c
  }

  method NormalizePath(pathname: string) returns (normalized: string)
    ensures normalized == Normalize(pathname)
  {
    normalized := pathname;
    if normalized == "/" {
      normalized := INDEX;
    } else {
      if "/" <= normalized { normalized := normalized[1..]; }
      if EndsWith(normalized, '/') { normalized := normalized[..|normalized| - 1]; }
    }
  }

  function Normalize(pathname: string): string {
    if pathname == "/" then INDEX
    else
      var cut := if "/" <= pathname then pathname[1..] else pathname;
      if EndsWith(cut, '/') then cut[..|cut| - 1] else cut
  }

  function Denormalize(normalized: string): string {
    if normalized == INDEX then "/" else "/" + normalized
  }

  function Canonical(pathname: string): string {
    Denormalize(Normalize(pathname))
  }

  predicate EndsInTwoSlashes(pathname: string) {
    |pathname| >= 3 && pathname[|pathname| - 1] == '/' && pathname[|pathname| - 2] == '/'
  }

  /** The canonical form is free of a trailing slash, the root apart, exactly when the path does not end in
      two; exactly then is it its own canonical form. One leading and one trailing slash are forgotten. */
  lemma CanonicalIsStripped(pathname: string)
    ensures Canonical(pathname) != "/" && EndsWith(Canonical(pathname), '/') <==> EndsInTwoSlashes(pathname)
    ensures Canonical(Canonical(pathname)) != Canonical(pathname) <==> EndsInTwoSlashes(pathname)
  {
    var n := Normalize(pathname);
    var once := Denormalize(n);
    if n != INDEX {
      assert once[1..] == n;
      if EndsWith(n, '/') { assert |Normalize(once)| < |n| || once == "/"; }
    }
  }

  /** Such a path: one of its two trailing slashes is left. */
  lemma OneSlashIsLeft()
    ensures Canonical("/a//") == "/a/" && Canonical("/a/") == "/a"
  {
  }

  /** Normalizing gives back a denormalized segment exactly when it is not empty and has no trailing slash. */
  lemma NormalizeInverts(n: string)
    ensures Normalize(Denormalize(n)) == n <==> n != "" && !EndsWith(n, '/')
  {
    if n != INDEX && n != "" { assert ("/" + n)[1..] == n; }
  }

  function CacheKey(deploymentId: string, host: string, pathname: string, token: Option<string>): string {
    ISR_V3_PREFIX + (deploymentId + ("/" + (host + ("/" + (Normalize(pathname) + Suffix(token))))))
  }

  function Suffix(token: Option<string>): string {
    if token.None? then "" else ISR_VARIANT_SEPARATOR + token.value
  }

  /** A key as it is written. */
  lemma KeyIsWritten()
    ensures CacheKey("d1", "app.example", "/a/b/", Some("v")) == "__void_direct__/isr/v3/d1/app.example/a/b#rw=v"
  {
    assert Normalize("/a/b/") == "a/b";
    hide Normalize;
  }

  /** A key read back; `token` is `None` for a direct hit. */
  datatype Name = Name(deploymentId: string, host: string, normalizedPath: string, token: Option<string>)

  function SplitCacheKey(keyPath: string): (string, Option<string>) {
    var at := IndexOf(keyPath, ISR_VARIANT_SEPARATOR, 0);
    if at == |keyPath| then (keyPath, None) else (keyPath[..at], Some(keyPath[at + |ISR_VARIANT_SEPARATOR|..]))
  }

  /** Deployment id, host and key path, or `None` for a registry key or a malformed one. */
  function SplitKeyName(key: string): Option<(string, string, string)> {
    if !(ISR_V3_PREFIX <= key) then None
    else
      var tail := key[|ISR_V3_PREFIX|..];
      var didSlash := IndexOf(tail, "/", 0);
      var hostSlash := IndexOf(tail, "/", didSlash + 1);
      if didSlash == |tail| || hostSlash == |tail| || hostSlash + 1 == |tail| then None
      else Some((tail[..didSlash], tail[didSlash + 1..hostSlash], tail[hostSlash + 1..]))
  }

  function ReadKey(key: string): Option<Name> {
    var split := SplitKeyName(key);
    if split.None? then None
    else
      var (path, token) := SplitCacheKey(split.value.2);
      Some(Name(split.value.0, split.value.1, path, token))
  }

  // ---- finding separators ----

  lemma PartIsAt(s: string, i: nat, a: string, part: string, b: string)
    requires s == a + (part + b) && i == |a|
    ensures At(s, i, part) && s[..i] == a && s[i + |part|..] == b
  {
  }

  lemma SlashIsFirst(s: string, from: nat, word: string, rest: string)
    requires from <= |s| && s[from..] == word + ("/" + rest) && '/' !in word
    ensures IndexOf(s, "/", from) == from + |word| < |s|
    ensures s[from..from + |word|] == word && s[from + |word| + 1..] == rest
  {
    var i, tail := from + |word|, s[from..];
    assert forall k | 0 <= k < |tail| :: s[from + k] == tail[k];
    forall j: nat | from <= j < i ensures !At(s, j, "/") {
      assert s[from + (j - from)] == word[j - from];
      AtChar(s, j, "/", 0);
    }
    assert s[i] == '/' && s[i..i + 1] == "/";
    IndexIs(s, "/", from, i);
    assert s[from + |word| + 1..] == tail[|word| + 1..];
  }

  lemma NotInside(s: string, path: string, j: nat)
    requires path <= s && |path| < |s| && s[|path|] == '#' && j < |path|
    requires !Contains(path, ISR_VARIANT_SEPARATOR)
    ensures !At(s, j, ISR_VARIANT_SEPARATOR)
  {
    if j + 4 <= |path| {
      assert path[j..j + 4] == s[j..j + 4];
      assert !At(path, j, ISR_VARIANT_SEPARATOR);
    } else {
      AtChar(s, j, ISR_VARIANT_SEPARATOR, |path| - j);
    }
  }

  /** The separator has no border, so it cannot begin inside a path that lacks it. */
  lemma SeparatorIsFirst(path: string, token: string)
    requires !Contains(path, ISR_VARIANT_SEPARATOR)
    ensures IndexOf(path + (ISR_VARIANT_SEPARATOR + token), ISR_VARIANT_SEPARATOR, 0) == |path|
  {
    hide IndexOf;
    var s := path + (ISR_VARIANT_SEPARATOR + token);
    PartIsAt(s, |path|, path, ISR_VARIANT_SEPARATOR, token);
    assert s[|path|] == ISR_VARIANT_SEPARATOR[0];
    forall j: nat | j < |path| ensures !At(s, j, ISR_VARIANT_SEPARATOR) { NotInside(s, path, j); }
    IndexIs(s, ISR_VARIANT_SEPARATOR, 0, |path|);
  }

  lemma KeyPathRoundTrip(path: string, token: Option<string>)
    ensures SplitCacheKey(path + Suffix(token)) == (path, token) <==> !Contains(path, ISR_VARIANT_SEPARATOR)
    ensures SplitCacheKey(path + Suffix(token)).0 == path <==> !Contains(path, ISR_VARIANT_SEPARATOR)
  {
    var s := path + Suffix(token);
    if Contains(path, ISR_VARIANT_SEPARATOR) {
      var i: nat :| At(path, i, ISR_VARIANT_SEPARATOR);
      assert s[i..i + 4] == path[i..i + 4];
      assert At(s, i, ISR_VARIANT_SEPARATOR);
    } else if token.Some? {
      SeparatorIsFirst(path, token.value);
      PartIsAt(s, |path|, path, ISR_VARIANT_SEPARATOR, token.value);
    } else {
      assert s == path;
      if IndexOf(s, ISR_VARIANT_SEPARATOR, 0) < |s| { assert Contains(path, ISR_VARIANT_SEPARATOR); }
    }
  }

  lemma NameRoundTrip(deploymentId: string, host: string, keyPath: string)
    requires '/' !in deploymentId && '/' !in host
    ensures SplitKeyName(ISR_V3_PREFIX + (deploymentId + ("/" + (host + ("/" + keyPath))))) ==
            if keyPath == "" then None else Some((deploymentId, host, keyPath))
  {
    var afterDid := host + ("/" + keyPath);
    var tail := deploymentId + ("/" + afterDid);
    var key := ISR_V3_PREFIX + tail;
    assert key[|ISR_V3_PREFIX|..] == tail && ISR_V3_PREFIX <= key;
    assert tail[0..] == tail;
    SlashIsFirst(tail, 0, deploymentId, afterDid);
    SlashIsFirst(tail, |deploymentId| + 1, host, keyPath);
  }

  /** A key written for a slash-free deployment id and host is read back whole exactly when its
      normalized path holds no separator and the key path is not empty. */
  lemma KeyRoundTrip(deploymentId: string, host: string, pathname: string, token: Option<string>)
    requires '/' !in deploymentId && '/' !in host
    ensures var n := Normalize(pathname);
            ReadKey(CacheKey(deploymentId, host, pathname, token)) == Some(Name(deploymentId, host, n, token))
            <==> !Contains(n, ISR_VARIANT_SEPARATOR) && (n != "" || token.Some?)
  {
    hide Normalize, SplitCacheKey, SplitKeyName;
    var n := Normalize(pathname);
    NameRoundTrip(deploymentId, host, n + Suffix(token));
    KeyPathRoundTrip(n, token);
  }
}
