/** Where literals and comments end (the end finders of docker/check-tests.ts). A `char` stands for one
    UTF-16 code unit; an index past the source reads as undefined. */
module BlankingEnds {
  import opened Strings

  predicate CharAt(s: string, i: int, c: char) {
    0 <= i < |s| && s[i] == c
  }

  predicate PairAt(s: string, i: int, a: char, b: char) {
    CharAt(s, i, a) && CharAt(s, i + 1, b)
  }

  // ---- literals with backslash escapes ----

  /** What ends a run of literal text: a quote, or in a template a backtick or `${`. */
  datatype Stop = Quote(quote: char) | Template

  predicate StopsAt(s: string, stop: Stop, k: nat) {
    match stop
    case Quote(quote) => CharAt(s, k, quote)
    case Template => CharAt(s, k, '`') || PairAt(s, k, '$', '{')
  }

  /** The first stop from `k` on, skipping every escaped character; past the source when there is none. */
  function Scan(s: string, stop: Stop, k: nat): (e: nat)
    requires k <= |s| + 1
    ensures k <= e <= |s| + 1
    ensures e < |s| ==> StopsAt(s, stop, e)
    ensures e == |s| + 1 && k <= |s| ==> k < |s| && s[|s| - 1] == '\\'
    decreases |s| + 1 - k
  {
    if k >= |s| then k
    else if s[k] == '\\' then Scan(s, stop, k + 2)
    else if StopsAt(s, stop, k) then k
    else Scan(s, stop, k + 1)
  }

  function QuotedEnd(s: string, at: nat): (e: nat)
    requires at < |s|
    ensures at < e <= |s| + 1
    ensures e == |s| + 1 ==> s[|s| - 1] == '\\'
  {
    var k := Scan(s, Quote(s[at]), at + 1);
    if k < |s| then k + 1 else k
  }

  datatype ChunkKind = Eof | Expr | Tick

  function TemplateChunk(s: string, at: nat): (chunk: (nat, ChunkKind))
    requires at < |s|
    ensures at < chunk.0 <= |s| + 1
    ensures chunk.0 == |s| + 1 ==> s[|s| - 1] == '\\'
    ensures chunk.1 == Eof <==> Scan(s, Template, at) >= |s|
  {
    var k := Scan(s, Template, at);
    if k >= |s| then (k, Eof) else if s[k] == '`' then (k + 1, Tick) else (k + 2, Expr)
  }

  /** How many backslashes stand right before `k`, counting back to `from`. */
  function Backslashes(s: string, from: nat, k: nat): (n: nat)
    requires from <= k <= |s|
    decreases k
  {
    if k > from && s[k - 1] == '\\' then Backslashes(s, from, k - 1) + 1 else 0
  }

  predicate Escaped(s: string, from: nat, k: nat)
    requires from <= k <= |s|
  {
    Backslashes(s, from, k) % 2 == 1
  }

  predicate FreeStop(s: string, stop: Stop, from: nat, k: nat) {
    from <= k < |s| && StopsAt(s, stop, k) && !Escaped(s, from, k)
  }

  predicate NoFreeStop(s: string, stop: Stop, from: nat, lo: nat, hi: nat) {
    forall j | lo <= j < hi && j < |s| :: !FreeStop(s, stop, from, j)
  }

  lemma {:induction false} ScanFrom(s: string, stop: Stop, from: nat, k: nat)
    requires from <= k <= |s| && !Escaped(s, from, k) && stop != Quote('\\')
    ensures var e := Scan(s, stop, k);
            && (e < |s| ==> FreeStop(s, stop, from, e))
            && NoFreeStop(s, stop, from, k, e)
            && (e >= |s| ==> (e == |s| + 1 <==> Escaped(s, from, |s|)))
    decreases |s| - k
  {
    if k < |s| {
      if s[k] == '\\' {
        if k + 2 <= |s| {
          assert Escaped(s, from, k + 1);
          assert !Escaped(s, from, k + 2);
          ScanFrom(s, stop, from, k + 2);
        } else {
          assert Escaped(s, from, |s|);
        }
      } else if !StopsAt(s, stop, k) {
        assert Backslashes(s, from, k + 1) == 0;
        ScanFrom(s, stop, from, k + 1);
      }
    }
  }

  /** A literal whose text starts at `from` never closes, and the last backslash of the source is unpaired
      in it. */
  predicate LeftOpen(s: string, stop: Stop, from: nat) {
    from <= |s| && NoFreeStop(s, stop, from, from, |s|) && Escaped(s, from, |s|)
  }

  lemma OverrunsExactly(s: string, stop: Stop, from: nat)
    requires from <= |s| && stop != Quote('\\')
    ensures Scan(s, stop, from) == |s| + 1 <==> LeftOpen(s, stop, from)
  {
    ScanFrom(s, stop, from, from);
  }

  /** A quoted literal ends at the first quote with an even number of backslashes before it. Without
      one it runs to the end of the source, and one past it exactly when a last backslash is unpaired. */
  lemma QuotedEndIsFirstFreeQuote(s: string, at: nat)
    requires at < |s| && s[at] != '\\'
    ensures var e, stop := QuotedEnd(s, at), Quote(s[at]);
            && NoFreeStop(s, stop, at + 1, at + 1, e - 1)
            && if e <= |s| && FreeStop(s, stop, at + 1, e - 1) then e >= at + 2
               else
                 && NoFreeStop(s, stop, at + 1, at + 1, |s|)
                 && e == if Escaped(s, at + 1, |s|) then |s| + 1 else |s|
  {
    ScanFrom(s, Quote(s[at]), at + 1, at + 1);
  }

  /** A template chunk ends after the first unescaped backtick or `${`. */
  lemma ChunkEndIsFirstFreeStop(s: string, at: nat)
    requires at < |s|
    ensures var (e, kind) := TemplateChunk(s, at);
            match kind
            case Tick => e <= |s| && FreeStop(s, Template, at, e - 1) && s[e - 1] == '`'
                         && NoFreeStop(s, Template, at, at, e - 1)
            case Expr => at + 2 <= e <= |s| && FreeStop(s, Template, at, e - 2) && s[e - 2] == '$' && s[e - 1] == '{'
                         && NoFreeStop(s, Template, at, at, e - 2)
            case Eof => NoFreeStop(s, Template, at, at, |s|)
                        && e == if Escaped(s, at, |s|) then |s| + 1 else |s|
  {
    ScanFrom(s, Template, at, at);
  }

  method FindQuotedEnd(s: string, at: nat) returns (e: nat)
    requires at < |s| && s[at] != '\\'
    ensures e == QuotedEnd(s, at)
  {
    var quote := s[at];
    var k := at + 1;
    while k < |s|
      invariant at + 1 <= k <= |s| + 1
      invariant Scan(s, Quote(quote), at + 1) == Scan(s, Quote(quote), k)
    {
      if s[k] == '\\' { k := k + 2; }
      else if s[k] == quote { return k + 1; }
      else { k := k + 1; }
    }
    return k;
  }

  method FindTemplateChunk(s: string, at: nat) returns (e: nat, kind: ChunkKind)
    requires at < |s|
    ensures (e, kind) == TemplateChunk(s, at)
  {
    var k := at;
    while k < |s|
      invariant at <= k <= |s| + 1 && Scan(s, Template, at) == Scan(s, Template, k)
    {
      if s[k] == '\\' { k := k + 2; }
      else if s[k] == '`' { return k + 1, Tick; }
      else if PairAt(s, k, '$', '{') { return k + 2, Expr; }
      else { k := k + 1; }
    }
    return k, Eof;
  }

  // ---- searches ----

  function LineCommentEnd(s: string, at: nat): (e: nat)
    requires PairAt(s, at, '/', '/')
    ensures at + 2 <= e <= |s| && '\n' !in s[at..e] && (e < |s| ==> s[e] == '\n')
  {
    var e := IndexOf(s, "\n", at);
    NewlineIsFirst(s, at, e);
    e
  }

  lemma NewlineIsFirst(s: string, at: nat, e: nat)
    requires PairAt(s, at, '/', '/') && e == IndexOf(s, "\n", at)
    ensures at + 2 <= e <= |s| && '\n' !in s[at..e] && (e < |s| ==> s[e] == '\n')
  {
    forall j | at <= j < e ensures s[j] != '\n' {
      if s[j] == '\n' { assert s[j..j + 1] == "\n"; assert At(s, j, "\n"); }
    }
    if e < |s| { assert s[e] == s[e..e + 1][0]; }
  }

  /** The first close wins. */
  function TsBlockEnd(s: string, at: nat): (e: nat)
    requires PairAt(s, at, '/', '*')
    ensures at + 2 <= e <= |s|
  {
    var close := IndexOf(s, "*/", at + 2);
    if close == |s| then |s| else close + 2
  }

  /** It ends right after the first close past its opener, or with the source. */
  lemma TsBlockEndIsFirstClose(s: string, at: nat)
    requires PairAt(s, at, '/', '*')
    ensures var e := TsBlockEnd(s, at);
            && (forall j | at + 2 <= j < e - 2 :: !PairAt(s, j, '*', '/'))
            && ((at + 4 <= e && PairAt(s, e - 2, '*', '/'))
                || (e == |s| && forall j | at + 2 <= j :: !PairAt(s, j, '*', '/')))
  {
    var close := IndexOf(s, "*/", at + 2);
    forall j: nat | at + 2 <= j && PairAt(s, j, '*', '/') ensures At(s, j, "*/") { assert s[j..j + 2] == [s[j], s[j + 1]]; }
    if close < |s| {
      AtChar(s, close, "*/", 0);
      AtChar(s, close, "*/", 1);
    }
  }

  // ---- Rust block comments nest ----

  function RustBlockEnd(s: string, k: nat, depth: int): (e: nat)
    requires k <= |s|
    ensures k <= e <= |s|
    ensures PairAt(s, k, '/', '*') ==> k + 2 <= e
    decreases |s| - k
  {
    if k == |s| then k
    else if PairAt(s, k, '/', '*') then RustBlockEnd(s, k + 2, depth + 1)
    else if PairAt(s, k, '*', '/') then if depth == 1 then k + 2 else RustBlockEnd(s, k + 2, depth - 1)
    else RustBlockEnd(s, k + 1, depth)
  }

  method FindRustBlockEnd(s: string, at: nat) returns (e: nat)
    requires at <= |s|
    ensures e == RustBlockEnd(s, at, 0)
  {
    var depth, k := 0, at;
    while k < |s|
      invariant at <= k <= |s| && RustBlockEnd(s, at, 0) == RustBlockEnd(s, k, depth)
    {
      if PairAt(s, k, '/', '*') {
        depth := depth + 1;
        k := k + 2;
      } else if PairAt(s, k, '*', '/') {
        depth := depth - 1;
        k := k + 2;
        if depth == 0 { return k; }
      } else {
        k := k + 1;
      }
    }
    return k;
  }

  /** What stands inside a block comment: characters and whole comments. */
  datatype Comment = Empty | Text(c: char, more: Comment) | Nested(inner: Comment, more: Comment)

  function Written(c: Comment): string {
    match c
    case Empty => ""
    case Text(ch, more) => [ch] + Written(more)
    case Nested(inner, more) => "/*" + Written(inner) + "*/" + Written(more)
  }

  /** No character joins with the next one, the close included, into an opener or a closer. */
  predicate Unjoined(c: Comment) {
    match c
    case Empty => true
    case Text(ch, more) =>
      var next := (Written(more) + "*/")[0];
      !(ch == '/' && next == '*') && !(ch == '*' && next == '/') && Unjoined(more)
    case Nested(inner, more) => Unjoined(inner) && Unjoined(more)
  }

  lemma NestedParts(s: string, k: nat, inner: Comment, more: Comment)
    requires At(s, k, Written(Nested(inner, more)) + "*/")
    ensures var close := k + 2 + |Written(inner)|;
            && PairAt(s, k, '/', '*') && At(s, k + 2, Written(inner) + "*/")
            && close + 2 <= |s| && PairAt(s, close, '*', '/') && At(s, close + 2, Written(more) + "*/")
            && |Written(Nested(inner, more))| == |Written(inner)| + 4 + |Written(more)|
  {
    hide At;
    var i, m := Written(inner), Written(more);
    assert Written(Nested(inner, more)) + "*/" == "/*" + ((i + "*/") + (m + "*/"));
    AtSplit3(s, k, "/*", i + "*/", m + "*/");
    AtPair(s, k, "/*");
    AtSplit(s, k + 2, i, "*/");
    AtPair(s, k + 2 + |i|, "*/");
  }

  lemma TextParts(s: string, k: nat, c: char, more: Comment)
    requires At(s, k, Written(Text(c, more)) + "*/")
    ensures CharAt(s, k, c) && CharAt(s, k + 1, (Written(more) + "*/")[0]) && At(s, k + 1, Written(more) + "*/")
  {
    hide At;
    var rest := Written(more) + "*/";
    assert Written(Text(c, more)) + "*/" == [c] + rest;
    AtSplit(s, k, [c], rest);
    AtChar(s, k, [c], 0);
    AtChar(s, k + 1, rest, 0);
  }

  lemma BlockSteps(s: string, k: nat, depth: int)
    requires k < |s| && depth > 0
    ensures PairAt(s, k, '/', '*') ==> RustBlockEnd(s, k, depth) == RustBlockEnd(s, k + 2, depth + 1)
    ensures PairAt(s, k, '*', '/') && depth > 1 ==> RustBlockEnd(s, k, depth) == RustBlockEnd(s, k + 2, depth - 1)
    ensures !PairAt(s, k, '/', '*') && !PairAt(s, k, '*', '/') ==>
              RustBlockEnd(s, k, depth) == RustBlockEnd(s, k + 1, depth)
  {
  }

  lemma {:induction false} InsideIsSkipped(s: string, k: nat, c: Comment, depth: int)
    requires Unjoined(c) && At(s, k, Written(c) + "*/") && depth > 0
    ensures Skipped(s, k, c, depth)
    decreases c, 1
  {
    match c
    case Empty =>
      hide RustBlockEnd;
    case Text(ch, more) =>
      hide *;
      TextIsSkipped(s, k, ch, more, depth);
    case Nested(inner, more) =>
      hide *;
      NestedIsSkipped(s, k, inner, more, depth);
  }

  /** The lexer gets from `k` past what `c` writes at the depth it had. */
  predicate Skipped(s: string, k: nat, c: Comment, depth: int) {
    k + |Written(c)| <= |s| && RustBlockEnd(s, k, depth) == RustBlockEnd(s, k + |Written(c)|, depth)
  }

  lemma {:induction false} TextIsSkipped(s: string, k: nat, ch: char, more: Comment, depth: int)
    requires Unjoined(Text(ch, more)) && At(s, k, Written(Text(ch, more)) + "*/") && depth > 0
    ensures Skipped(s, k, Text(ch, more), depth)
    decreases more, 2
  {
    TextParts(s, k, ch, more);
    BlockSteps(s, k, depth);
    hide At, RustBlockEnd;
    InsideIsSkipped(s, k + 1, more, depth);
  }

  lemma {:induction false} NestedIsSkipped(s: string, k: nat, inner: Comment, more: Comment, depth: int)
    requires Unjoined(Nested(inner, more)) && At(s, k, Written(Nested(inner, more)) + "*/") && depth > 0
    ensures Skipped(s, k, Nested(inner, more), depth)
    decreases Nested(inner, more), 0
  {
    hide *;
    UnjoinedParts(inner, more);
    NestedParts(s, k, inner, more);
    var n, m := |Written(inner)|, |Written(more)|;
    var close := k + 2 + n;
    BlockSteps(s, k, depth);
    InsideIsSkipped(s, k + 2, inner, depth + 1);
    SkippedIs(s, k + 2, inner, depth + 1, n);
    BlockSteps(s, close, depth + 1);
    InsideIsSkipped(s, close + 2, more, depth);
    SkippedIs(s, close + 2, more, depth, m);
    SkippedIs(s, k, Nested(inner, more), depth, n + 4 + m);
  }

  lemma UnjoinedParts(inner: Comment, more: Comment)
    requires Unjoined(Nested(inner, more))
    ensures Unjoined(inner) && Unjoined(more)
  {
    hide Written;
  }

  lemma SkippedIs(s: string, k: nat, c: Comment, depth: int, n: nat)
    requires n == |Written(c)|
    ensures Skipped(s, k, c, depth) <==> k + n <= |s| && RustBlockEnd(s, k, depth) == RustBlockEnd(s, k + n, depth)
  {
    hide Written, RustBlockEnd;
  }

  lemma AtPair(s: string, i: nat, pair: string)
    requires |pair| == 2 && At(s, i, pair)
    ensures i + 2 <= |s| && PairAt(s, i, pair[0], pair[1])
  {
    AtChar(s, i, pair, 0);
    AtChar(s, i, pair, 1);
  }

  /** A comment ends exactly where its own close stands, whatever comments it nests and whatever follows. */
  lemma RustCommentsNest(s: string, at: nat, c: Comment)
    requires Unjoined(c) && At(s, at, "/*" + Written(c) + "*/")
    ensures RustBlockEnd(s, at, 0) == at + |Written(c)| + 4
  {
    hide At;
    assert "/*" + Written(c) + "*/" == "/*" + (Written(c) + "*/");
    AtSplit(s, at, "/*", Written(c) + "*/");
    AtPair(s, at, "/*");
    InsideIsSkipped(s, at + 2, c, 1);
    AtSplit(s, at + 2, Written(c), "*/");
    AtPair(s, at + 2 + |Written(c)|, "*/");
  }

  lemma LineEndsThere(s: string, i: nat, body: string)
    requires At(s, i, "//" + body) && '\n' !in body
    requires i + |body| + 2 == |s| || CharAt(s, i + |body| + 2, '\n')
    ensures PairAt(s, i, '/', '/') && LineCommentEnd(s, i) == i + |body| + 2
  {
    hide IndexOf;
    AtSplit(s, i, "//", body);
    AtPair(s, i, "//");
    var e, k := LineCommentEnd(s, i), i + |body| + 2;
    assert k < |s| ==> s[k] == '\n';
    forall j | i <= j < k ensures s[j] != '\n' {
      if j >= i + 2 { AtChar(s, i + 2, body, j - (i + 2)); }
    }
  }
}
