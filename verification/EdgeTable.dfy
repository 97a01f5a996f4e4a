/** The edge's route table (edge/table.go): validation and host lookup. Go strings are bytes; a
    `char` stands for one, and lower-casing is the ASCII one. */
module EdgeTable {
  import opened Options
  import EdgeLimiter

  datatype Route = Route(kind: string, upstream: string, rewrite: string,
                         clientRpm: nat, clientZone: string, appRpm: nat, appZone: string,
                         asleep: bool, gated: bool)

  datatype Wildcard = Wildcard(suffix: string, route: Route)

  datatype Table = Table(generation: nat, exact: map<string, Route>, wildcards: seq<Wildcard>)

  const DENY: string := "deny"

  predicate FleetKind(kind: string) {
    kind == "tenant" || kind == "custom" || kind == "env"
  }

  predicate ValidKind(kind: string) {
    kind in {"control", "api", "git", "tenant", "custom", "env", "env-parked", "preview", "fallback", DENY}
  }

  // ---- strings ----

  function IndexOf(s: string, c: char): (i: nat)
    ensures i <= |s| && c !in s[..i] && (i < |s| ==> s[i] == c)
  {
    if s == "" then 0 else if s[0] == c then 0
    else
      var i := IndexOf(s[1..], c);
      assert s[..i + 1] == [s[0]] + s[1..][..i];
      i + 1
  }

  predicate HasSuffix(s: string, suffix: string) {
    |suffix| <= |s| && s[|s| - |suffix|..] == suffix
  }

  function LowerChar(c: char): char {
    if 'A' <= c <= 'Z' then (c as int + 32) as char else c
  }

  function ToLower(s: string): string {
    seq(|s|, i requires 0 <= i < |s| => LowerChar(s[i]))
  }

  predicate Blank(s: string) {
    forall i | 0 <= i < |s| :: s[i] == ' ' || 9 <= s[i] as int <= 13
  }

  /** Splits at the only colon, unless a bracket closes after it. */
  function SplitHostPort(s: string): Option<(string, string)> {
    var i := IndexOf(s, ':');
    if i < |s| && ':' !in s[i + 1..] && ']' !in s[i..] then Some((s[..i], s[i + 1..])) else None
  }

  function NormalizeHost(host: string): string {
    var split := SplitHostPort(host);
    var lower := ToLower(if split.Some? then split.value.0 else host);
    if HasSuffix(lower, ".") then lower[..|lower| - 1] else lower
  }

  // ---- validation ----

  predicate Digits(s: string) {
    forall i | 0 <= i < |s| :: '0' <= s[i] <= '9'
  }

  function Value(digits: string): nat
    requires Digits(digits)
  {
    if digits == "" then 0
    else Value(digits[..|digits| - 1]) * 10 + (digits[|digits| - 1] as int - '0' as int)
  }

  predicate ValidUpstream(upstream: string) {
    var split := SplitHostPort(upstream);
    && split.Some? && split.value.0 == "127.0.0.1"
    && Digits(split.value.1) && 0 < Value(split.value.1) <= 65535
  }

  predicate ValidRoute(r: Route) {
    && ValidKind(r.kind)
    && if r.kind == DENY then r.upstream == "" && r.rewrite == ""
       else
         && ValidUpstream(r.upstream)
         && r.clientRpm <= EdgeLimiter.MAX_RPM && r.appRpm <= EdgeLimiter.MAX_RPM
         && (r.clientRpm > 0 ==> r.clientZone != "") && (r.appRpm > 0 ==> r.appZone != "")
  }

  predicate Valid(t: Table) {
    && (forall host | host in t.exact :: !Blank(host) && host == ToLower(host) && ValidRoute(t.exact[host]))
    && (forall i | 0 <= i < |t.wildcards| ::
          var w := t.wildcards[i];
          && |w.suffix| >= 2 && w.suffix[0] == '.' && w.suffix == ToLower(w.suffix) && ValidRoute(w.route))
  }

  /** The two loops over the port: digits only, then a value that may not pass 65535. */
  method CheckUpstream(upstream: string) returns (ok: bool)
    ensures ok == ValidUpstream(upstream)
  {
    var split := SplitHostPort(upstream);
    if split.None? || split.value.0 != "127.0.0.1" || split.value.1 == "" { return false; }
    var port := split.value.1;
    var i := 0;
    while i < |port|
      invariant 0 <= i <= |port| && Digits(port[..i])
    {
      if port[i] < '0' || port[i] > '9' { return false; }
      i := i + 1;
    }
    assert port[..i] == port;
    var n := 0;
    i := 0;
    while i < |port|
      invariant 0 <= i <= |port| && Digits(port[..i]) && n == Value(port[..i]) && n <= 65535
    {
      assert port[..i + 1][..i] == port[..i];
      n := n * 10 + (port[i] as int - '0' as int);
      if n > 65535 {
        ValueGrows(port, i + 1);
        return false;
      }
      i := i + 1;
    }
    assert port[..i] == port;
    ok := n > 0;
  }

  lemma {:induction false} ValueGrows(digits: string, i: nat)
    requires i <= |digits| && Digits(digits)
    ensures Digits(digits[..i]) && Value(digits[..i]) <= Value(digits)
    decreases |digits| - i
  {
    if i == |digits| {
      assert digits[..i] == digits;
    } else {
      ValueGrows(digits, i + 1);
      assert digits[..i + 1][..i] == digits[..i];
    }
  }

  /** Every rate a valid table can bring to the limiter rounds up without wrapping: a deny route may
      carry any rate, but is answered before the limiter. */
  lemma ValidRatesDoNotWrap(t: Table, r: Route, rpm: nat)
    requires Valid(t) && r.kind != DENY && (rpm == r.clientRpm || rpm == r.appRpm)
    requires (exists host :: host in t.exact && t.exact[host] == r)
             || (exists i :: 0 <= i < |t.wildcards| && t.wildcards[i].route == r)
    ensures EdgeLimiter.Budget(rpm) == if rpm == 0 then 1 else (rpm - 1) / 6 + 1
  {
    EdgeLimiter.BudgetIsCeiling(rpm);
  }

  // ---- what validation accepts ----

  predicate HasCapital(s: string) {
    exists i :: 0 <= i < |s| && 'A' <= s[i] <= 'Z'
  }

  /** Lower-casing leaves no capital, touches nothing else, and is what the alphabet says. */
  lemma LoweredHasNoCapital(s: string)
    ensures !HasCapital(ToLower(s)) && (ToLower(s) == s <==> !HasCapital(s))
    ensures ToLower("ABCDEFGHIJKLMNOPQRSTUVWXYZ") == "abcdefghijklmnopqrstuvwxyz"
  {
    if !HasCapital(s) { assert forall i | 0 <= i < |s| :: ToLower(s)[i] == s[i]; }
    forall i | 0 <= i < |s| && 'A' <= s[i] <= 'Z' ensures ToLower(s)[i] != s[i] {}
  }

  /** The decimal digits of a number. */
  function Decimal(n: nat): (digits: string)
    ensures digits != "" && Digits(digits)
  {
    var last := [(n % 10 + '0' as int) as char];
    if n < 10 then last else Decimal(n / 10) + last
  }

  lemma {:induction false} DecimalIsValue(n: nat)
    ensures Value(Decimal(n)) == n
  {
    var digits := Decimal(n);
    var last := |digits| - 1;
    if n >= 10 {
      DecimalIsValue(n / 10);
      assert digits[..last] == Decimal(n / 10);
    } else {
      assert digits[..last] == "";
    }
    assert digits[last] as int - '0' as int == n % 10;
  }

  lemma NoColonInDigits(digits: string)
    requires Digits(digits)
    ensures ':' !in digits && ']' !in digits
  {
  }

  lemma FirstIs(s: string, c: char, i: nat)
    requires i < |s| && s[i] == c && c !in s[..i]
    ensures IndexOf(s, c) == i
  {
    var j := IndexOf(s, c);
    forall k | 0 <= k < j ensures s[k] != c { assert s[..j][k] == s[k]; }
    forall k | 0 <= k < i ensures s[k] != c { assert s[..i][k] == s[k]; }
  }

  lemma FirstColon(host: string, port: string)
    requires ':' !in host && ':' !in port && ']' !in port
    ensures SplitHostPort(host + ":" + port) == Some((host, port))
  {
    var s, i := host + ":" + port, |host|;
    assert s[..i] == host && s[i] == ':';
    FirstIs(s, ':', i);
    assert s[i + 1..] == port && s[i..] == ":" + port;
    hide IndexOf;
  }

  lemma SplitIsJoined(s: string)
    requires SplitHostPort(s).Some?
    ensures s == SplitHostPort(s).value.0 + ":" + SplitHostPort(s).value.1
  {
    var i := IndexOf(s, ':');
    assert s == s[..i] + [s[i]] + s[i + 1..];
  }

  /** An upstream is the loopback address with a decimal port: those of 1 to 65535 are accepted, any other
      number, host or form is not. */
  lemma UpstreamsAccepted(upstream: string, n: nat)
    ensures ValidUpstream("127.0.0.1:" + Decimal(n)) <==> 1 <= n <= 65535
    ensures ValidUpstream(upstream) ==>
              exists port :: upstream == "127.0.0.1:" + port && port != "" && Digits(port) && 1 <= Value(port) <= 65535
  {
    NoColonInDigits(Decimal(n));
    DecimalIsValue(n);
    FirstColon("127.0.0.1", Decimal(n));
    assert "127.0.0.1" + ":" + Decimal(n) == "127.0.0.1:" + Decimal(n);
    if ValidUpstream(upstream) {
      SplitIsJoined(upstream);
      var port := SplitHostPort(upstream).value.1;
      assert upstream == "127.0.0.1:" + port;
    }
  }

  /** Routes a table may carry, kind by kind. */
  lemma RoutesAccepted(r: Route)
    ensures r.kind == "deny" ==> (ValidRoute(r) <==> r.upstream == "" && r.rewrite == "")
    ensures r.kind in ["control", "api", "git", "tenant", "custom", "env", "env-parked", "preview", "fallback"] ==>
              (ValidRoute(r) <==>
                 && ValidUpstream(r.upstream) && r.clientRpm <= 1_073_741_824 && r.appRpm <= 1_073_741_824
                 && (r.clientZone == "" ==> r.clientRpm == 0) && (r.appZone == "" ==> r.appRpm == 0))
    ensures r.kind !in ["control", "api", "git", "tenant", "custom", "env", "env-parked", "preview", "fallback", "deny"] ==>
              !ValidRoute(r)
  {
    hide ValidUpstream;
  }

  /** A table is refused for a blank host or one with a capital, for a suffix that is not a dot and a name in
      lower case, and for any bad route; for nothing else. */
  lemma TablesAccepted(t: Table)
    ensures Valid(t) <==>
              && (forall host | host in t.exact ::
                    && (exists i :: 0 <= i < |host| && host[i] !in " \t\n\r" && host[i] as int !in {11, 12})
                    && !HasCapital(host) && ValidRoute(t.exact[host]))
              && forall w | w in t.wildcards ::
                    |w.suffix| > 1 && "." <= w.suffix && !HasCapital(w.suffix) && ValidRoute(w.route)
  {
    hide ValidRoute;
    forall s: string ensures s == ToLower(s) <==> !HasCapital(s) { LoweredHasNoCapital(s); }
    hide ToLower, HasCapital;
    forall host ensures Blank(host) <==> !exists i :: 0 <= i < |host| && host[i] !in " \t\n\r" && host[i] as int !in {11, 12} {
      BlankIsSpaces(host);
    }
    hide Blank;
    assert forall w | w in t.wildcards :: exists i :: 0 <= i < |t.wildcards| && t.wildcards[i] == w;
    assert forall w: Wildcard | |w.suffix| > 1 :: "." <= w.suffix <==> w.suffix[0] == '.';
  }

  lemma BlankIsSpaces(s: string)
    ensures Blank(s) <==> !exists i :: 0 <= i < |s| && s[i] !in " \t\n\r" && s[i] as int !in {11, 12}
  {
  }

  // ---- lookup ----

  /** One label under the suffix, as the loop tests it. */
  predicate Matches(w: Wildcard, host: string) {
    HasSuffix(host, w.suffix)
    && var rest := host[..|host| - |w.suffix|]; rest != "" && '.' !in rest
  }

  /** The longest matching suffix, the first of equals, among the first `n`. */
  function Best(ws: seq<Wildcard>, host: string, n: nat): (i: int)
    requires n <= |ws|
    ensures -1 <= i < n
  {
    if n == 0 then -1
    else
      var best := Best(ws, host, n - 1);
      if Matches(ws[n - 1], host) && (best < 0 || |ws[n - 1].suffix| > |ws[best].suffix|) then n - 1 else best
  }

  function Lookup(t: Option<Table>, host: string): Option<Route> {
    if t.None? then None
    else
      var h := NormalizeHost(host);
      if h in t.value.exact then Some(t.value.exact[h])
      else
        var i := Best(t.value.wildcards, h, |t.value.wildcards|);
        if i < 0 then None else Some(t.value.wildcards[i].route)
  }

  method LookupLoop(t: Option<Table>, host: string) returns (route: Option<Route>)
    ensures route == Lookup(t, host)
  {
    if t.None? { return None; }
    var h := NormalizeHost(host);
    if h in t.value.exact { return Some(t.value.exact[h]); }
    var ws := t.value.wildcards;
    var bestLen := -1;
    route := None;
    ghost var best := -1;
    for n := 0 to |ws|
      invariant best == Best(ws, h, n)
      invariant if best < 0 then bestLen == -1 && route == None
                else bestLen == |ws[best].suffix| && route == Some(ws[best].route)
    {
      if |ws[n].suffix| <= bestLen || !HasSuffix(h, ws[n].suffix) { continue; }
      var rest := h[..|h| - |ws[n].suffix|];
      if rest == "" || '.' in rest { continue; }
      bestLen := |ws[n].suffix|;
      route := Some(ws[n].route);
      best := n;
    }
  }

  /** The route of the first wildcard with exactly this suffix. */
  function FirstWith(ws: seq<Wildcard>, suffix: string): Option<Route> {
    if ws == [] then None else if ws[0].suffix == suffix then Some(ws[0].route) else FirstWith(ws[1..], suffix)
  }

  /** The reference: two exact lookups, of the host and of what follows its first label. */
  function MapLookup(t: Table, host: string): Option<Route> {
    var h := NormalizeHost(host);
    var dot := IndexOf(h, '.');
    if h in t.exact then Some(t.exact[h])
    else if dot == 0 || dot == |h| then None
    else FirstWith(t.wildcards, h[dot..])
  }

  /** With a leading dot, only the host from its first dot can match. */
  lemma MatchIsFirstDot(w: Wildcard, host: string)
    requires |w.suffix| >= 2 && w.suffix[0] == '.'
    ensures var dot := IndexOf(host, '.');
            Matches(w, host) <==> 0 < dot < |host| && w.suffix == host[dot..]
  {
    var dot := IndexOf(host, '.');
    if Matches(w, host) {
      var at := |host| - |w.suffix|;
      assert host[at] == host[at..][0] == '.';
      forall k | 0 <= k < at ensures host[k] != '.' { assert host[..at][k] == host[k]; }
      forall k | 0 <= k < dot ensures host[k] != '.' { assert host[..dot][k] == host[k]; }
    }
  }

  lemma {:induction false} BestIsFirstWith(ws: seq<Wildcard>, host: string, n: nat)
    requires n <= |ws|
    requires forall i | 0 <= i < |ws| :: |ws[i].suffix| >= 2 && ws[i].suffix[0] == '.'
    ensures var dot, i := IndexOf(host, '.'), Best(ws, host, n);
            && (i >= 0 ==> Matches(ws[i], host) && forall j | 0 <= j < i :: !Matches(ws[j], host))
            && (i < 0 ==> forall j | 0 <= j < n :: !Matches(ws[j], host))
  {
    if n > 0 {
      BestIsFirstWith(ws, host, n - 1);
      MatchIsFirstDot(ws[n - 1], host);
      var best := Best(ws, host, n - 1);
      if best >= 0 { MatchIsFirstDot(ws[best], host); }
    }
  }

  lemma {:induction false} FirstWithIsFirst(ws: seq<Wildcard>, suffix: string, i: nat)
    requires i <= |ws| && forall j | 0 <= j < i :: ws[j].suffix != suffix
    requires i < |ws| ==> ws[i].suffix == suffix
    ensures FirstWith(ws, suffix) == if i < |ws| then Some(ws[i].route) else None
  {
    if i > 0 { FirstWithIsFirst(ws[1..], suffix, i - 1); }
  }

  /** For every table that passes validation, the longest-suffix loop is a map lookup: the exact
      entry, else the first wildcard whose suffix is the host from its first dot on, else nothing. */
  lemma LookupIsMapLookup(t: Table, host: string)
    requires Valid(t)
    ensures Lookup(Some(t), host) == MapLookup(t, host)
  {
    hide NormalizeHost, ValidRoute, Matches, Best;
    var h, ws := NormalizeHost(host), t.wildcards;
    var dot := IndexOf(h, '.');
    BestIsFirstWith(ws, h, |ws|);
    forall j | 0 <= j < |ws| ensures Matches(ws[j], h) <==> 0 < dot < |h| && ws[j].suffix == h[dot..] {
      MatchIsFirstDot(ws[j], h);
    }
    var i := Best(ws, h, |ws|);
    if 0 < dot < |h| {
      FirstWithIsFirst(ws, h[dot..], if i < 0 then |ws| else i);
    }
  }

  predicate DistinctSuffixes(ws: seq<Wildcard>) {
    forall i, j | 0 <= i < |ws| && 0 <= j < |ws| && ws[i].suffix == ws[j].suffix :: i == j
  }

  lemma {:induction false} FirstWithFinds(ws: seq<Wildcard>, suffix: string)
    ensures FirstWith(ws, suffix).Some? <==> exists w :: w in ws && w.suffix == suffix
    ensures FirstWith(ws, suffix).Some? ==> Wildcard(suffix, FirstWith(ws, suffix).value) in ws
  {
    if ws != [] {
      FirstWithFinds(ws[1..], suffix);
      assert ws == [ws[0]] + ws[1..];
    }
  }

  /** Reordering wildcards with distinct suffixes never changes an answer. */
  lemma OrderDoesNotMatter(a: Table, b: Table, host: string)
    requires Valid(a) && Valid(b) && a.exact == b.exact
    requires multiset(a.wildcards) == multiset(b.wildcards) && DistinctSuffixes(a.wildcards)
    ensures Lookup(Some(a), host) == Lookup(Some(b), host)
  {
    LookupIsMapLookup(a, host);
    LookupIsMapLookup(b, host);
    hide Lookup, Valid, NormalizeHost;
    var h := NormalizeHost(host);
    var suffix := h[IndexOf(h, '.')..];
    SameFirstWith(a.wildcards, b.wildcards, suffix);
  }

  lemma SameFirstWith(a: seq<Wildcard>, b: seq<Wildcard>, suffix: string)
    requires multiset(a) == multiset(b) && DistinctSuffixes(a)
    ensures FirstWith(a, suffix) == FirstWith(b, suffix)
  {
    forall w ensures w in a <==> w in b { assert w in multiset(a) <==> w in multiset(b); }
    FirstWithFinds(a, suffix);
    FirstWithFinds(b, suffix);
    if FirstWith(a, suffix).Some? {
      var x, y := Wildcard(suffix, FirstWith(a, suffix).value), Wildcard(suffix, FirstWith(b, suffix).value);
      var i :| 0 <= i < |a| && a[i] == x;
      var j :| 0 <= j < |a| && a[j] == y;
    }
  }

  // ---- from the header of a request ----

  /** A Host header: a name in any case, maybe with a trailing dot, maybe with a port. */
  function Header(shout: string, dot: bool, port: Option<string>): string {
    (if dot then shout + "." else shout) + if port.Some? then ":" + port.value else ""
  }

  lemma NoPort(host: string)
    requires ':' !in host
    ensures SplitHostPort(host).None?
  {
  }

  lemma LoweredLast(s: string)
    requires s != ""
    ensures var lower := ToLower(s); |lower| == |s| && (lower[|s| - 1] == '.' <==> s[|s| - 1] == '.')
    ensures ToLower(s)[..|s| - 1] == ToLower(s[..|s| - 1])
  {
  }

  lemma EndsInDot(s: string)
    ensures HasSuffix(s, ".") <==> s != "" && s[|s| - 1] == '.'
  {
    if s != "" { assert s[|s| - 1..] == [s[|s| - 1]]; }
  }

  lemma DotIsCut(shout: string, dot: bool)
    requires dot || !HasSuffix(shout, ".")
    ensures var lower := ToLower(if dot then shout + "." else shout);
            (if HasSuffix(lower, ".") then lower[..|lower| - 1] else lower) == ToLower(shout)
  {
    var host := if dot then shout + "." else shout;
    EndsInDot(shout);
    EndsInDot(ToLower(host));
    if host != "" { LoweredLast(host); }
    if dot { assert host[..|host| - 1] == shout; }
    hide HasSuffix;
  }

  /** It is looked up under the name in lower case. */
  lemma HeaderNames(shout: string, dot: bool, port: Option<string>)
    requires ':' !in shout && ']' !in shout && (dot || !HasSuffix(shout, "."))
    requires port.Some? ==> ':' !in port.value && ']' !in port.value
    ensures NormalizeHost(Header(shout, dot, port)) == ToLower(shout)
  {
    hide ToLower, HasSuffix, SplitHostPort;
    var host := if dot then shout + "." else shout;
    DotIsCut(shout, dot);
    if port.Some? {
      FirstColon(host, port.value);
      assert Header(shout, dot, port) == host + ":" + port.value;
    } else {
      NoPort(host);
      assert Header(shout, dot, port) == host;
    }
  }

  /** So a request finds the exact entry of its host, however the header spells it, else the first wildcard
      for what follows its first label, and no wildcard more than one label up. */
  lemma HeaderFindsRoute(t: Table, shout: string, dot: bool, port: Option<string>)
    requires Valid(t)
    requires ':' !in shout && ']' !in shout && (dot || !HasSuffix(shout, "."))
    requires port.Some? ==> ':' !in port.value && ']' !in port.value
    ensures var route, name := Lookup(Some(t), Header(shout, dot, port)), ToLower(shout);
            && (name in t.exact ==> route == Some(t.exact[name]))
            && (name !in t.exact ==>
                  forall first, suffix | name == first + suffix && first != "" && '.' !in first && "." <= suffix ::
                    route == FirstWith(t.wildcards, suffix))
            && (name !in t.exact && ("." <= name || '.' !in name) ==> route == None)
  {
    HeaderNames(shout, dot, port);
    LookupIsMapLookup(t, Header(shout, dot, port));
    hide Lookup, NormalizeHost, Valid, FirstWith, ToLower;
    var name := ToLower(shout);
    forall first, suffix | name == first + suffix && first != "" && '.' !in first && "." <= suffix
      ensures IndexOf(name, '.') == |first| && 0 < |first| < |name| && name[|first|..] == suffix
    {
      assert name[|first|] == suffix[0] == '.' && name[..|first|] == first;
      FirstIs(name, '.', |first|);
    }
  }
}
