/** What the Rust lexer makes of source text: every literal and comment goes blank and all code stays,
    lifetimes and raw identifiers included. */
module BlankingRustGrammar {
  import opened Options
  import opened Strings
  import opened BlankingEnds
  import opened Blanking
  import opened BlankingRust

  datatype Token =
    | Keep(c: char)
    | Str(body: string)
    | ByteStr(body: string)
    | RawStr(hashes: nat, body: string)
    | CharLit(inner: string)
    | ByteChar(inner: string)
    | Block(comment: Comment)
    | Line(body: string)         // up to its newline, which is code
    | LastLine(body: string)     // up to the end of the file

  function Text(t: Token): string {
    match t
    case Keep(c) => [c]
    case Str(body) => "\"" + (body + "\"")
    case ByteStr(body) => "b" + ("\"" + (body + "\""))
    case RawStr(n, body) => "r" + HashString(n) + "\"" + body + "\"" + HashString(n)
    case CharLit(inner) => "'" + (inner + "'")
    case ByteChar(inner) => "b" + ("'" + (inner + "'"))
    case Block(c) => "/*" + Written(c) + "*/"
    case Line(body) => "//" + body
    case LastLine(body) => "//" + body
  }

  function Source(tokens: seq<Token>): string {
    if tokens == [] then "" else Text(tokens[0]) + Source(tokens[1..])
  }

  /** The same text with each literal and comment blank and each character of code in place. */
  function Cleaned(tokens: seq<Token>): string {
    if tokens == [] then "" else Out(tokens[0]) + Cleaned(tokens[1..])
  }

  function Out(t: Token): string {
    if t.Keep? then [t.c] else Blank(Text(t))
  }

  /** What a quote encloses in a character literal: one character, or an escape. */
  predicate CharInner(inner: string) {
    || (|inner| == 1 && inner[0] != '\\' && inner[0] != '\n')
    || (|inner| == 2 && inner[0] == '\\' && inner[1] != 'x')
    || (|inner| == 4 && inner[0] == '\\' && inner[1] == 'x')
    || (|inner| >= 4 && inner[..3] == "\\u{" && inner[|inner| - 1] == '}' && '}' !in inner[..|inner| - 1])
  }

  /** A character literal stands at `i`. */
  ghost predicate OpensChar(s: string, i: nat) {
    exists inner :: CharInner(inner) && At(s, i, "'" + (inner + "'"))
  }

  /** A character that opens nothing where it stands. */
  ghost predicate IsCode(s: string, i: nat)
    requires i < |s|
  {
    match s[i]
    case '"' => false
    case '/' => !CharAt(s, i + 1, '/') && !CharAt(s, i + 1, '*')
    case 'r' => !CharAt(s, i + 1 + Hashes(s, i + 1), '"')
    case 'b' => !CharAt(s, i + 1, '"') && !CharAt(s, i + 1, '\'')
    case '\'' => !OpensChar(s, i)
    case _ => true
  }

  /** The token at `i` of the file `s` is what it says it is. */
  ghost predicate Fits(t: Token, s: string, i: nat) {
    match t
    case Keep(_) => i < |s| && IsCode(s, i)
    case Str(body) => Scan(body, Quote('"'), 0) == |body|
    case ByteStr(body) => Scan(body, Quote('"'), 0) == |body|
    case RawStr(n, body) =>
      var closer := "\"" + HashString(n); forall j: nat | j < |body| :: !At(body + closer, j, closer)
    case CharLit(inner) => CharInner(inner)
    case ByteChar(inner) => CharInner(inner)
    case Block(c) => Unjoined(c)
    case Line(body) => '\n' !in body && CharAt(s, i + |body| + 2, '\n')
    case LastLine(body) => '\n' !in body && i + |body| + 2 == |s|
  }

  ghost predicate AllFit(tokens: seq<Token>, s: string, i: nat) {
    tokens == [] || (Fits(tokens[0], s, i) && AllFit(tokens[1..], s, i + |Text(tokens[0])|))
  }

  // ---- one token in context ----

  /** From `i` the lexer gets to `e`, appending `out`. */
  predicate Path(s: string, i: nat, e: nat, out: string) {
    i <= e <= |s| && StripFrom(s, i) == out + StripFrom(s, e)
  }

  lemma BlankPath(s: string, i: nat, text: string)
    requires At(s, i, text) && i < |s| && TurnEnd(s, i).Some? && TurnEnd(s, i).value == i + |text|
    ensures Path(s, i, i + |text|, Blank(text))
  {
    hide TurnEnd;
    BlankedIn(s, i, text);
  }

  lemma KeepPath(s: string, i: nat)
    requires i < |s| && IsCode(s, i)
    ensures Path(s, i, i + 1, [s[i]])
  {
    CharLiteralsExactly(s, i);
    hide OpensChar, CharLiteralLength;
  }

  lemma {:induction false} ScanIn(s: string, i: nat, text: string, j: nat)
    requires At(s, i, text) && j <= |text| && Scan(text, Quote('"'), j) == |text| && CharAt(s, i + |text|, '"')
    ensures Scan(s, Quote('"'), i + j) == i + |text|
    decreases |text| - j
  {
    hide At;
    if j < |text| {
      AtChar(s, i, text, j);
      ScanIn(s, i, text, if text[j] == '\\' then j + 2 else j + 1);
    }
  }

  lemma QuotedIn(s: string, i: nat, body: string)
    requires At(s, i, "\"" + (body + "\"")) && Scan(body, Quote('"'), 0) == |body|
    ensures CharAt(s, i, '"') && QuotedEnd(s, i) == i + |body| + 2
  {
    hide At;
    AtSplit(s, i, "\"", body + "\"");
    AtSplit(s, i + 1, body, "\"");
    AtChar(s, i, "\"", 0);
    AtChar(s, i + 1 + |body|, "\"", 0);
    ScanIn(s, i + 1, body, 0);
  }

  lemma TurnsAtQuote(s: string, i: nat)
    ensures CharAt(s, i, '"') ==> TurnEnd(s, i) == Some(QuotedEnd(s, i))
    ensures PairAt(s, i, 'b', '"') ==> TurnEnd(s, i) == Some(QuotedEnd(s, i + 1))
    ensures PairAt(s, i, 'b', '\'') ==> TurnEnd(s, i) == Some(i + 1 + CharLiteralLength(s, i + 1))
    ensures CharAt(s, i, '\'') && CharLiteralLength(s, i) > 0 ==> TurnEnd(s, i) == Some(i + CharLiteralLength(s, i))
  {
    hide QuotedEnd, CharLiteralLength;
  }

  lemma StrPath(s: string, i: nat, body: string)
    requires At(s, i, Text(Str(body))) && Scan(body, Quote('"'), 0) == |body|
    ensures Path(s, i, i + |Text(Str(body))|, Out(Str(body)))
  {
    hide *;
    TextParts(body);
    QuotedIn(s, i, body);
    TurnsAtQuote(s, i);
    BlankPath(s, i, Text(Str(body)));
    BlankOut(Str(body));
  }

  lemma ByteStrPath(s: string, i: nat, body: string)
    requires At(s, i, Text(ByteStr(body))) && Scan(body, Quote('"'), 0) == |body|
    ensures Path(s, i, i + |Text(ByteStr(body))|, Out(ByteStr(body)))
  {
    hide *;
    TextParts(body);
    AtSplit(s, i, "b", "\"" + (body + "\""));
    AtChar(s, i, "b", 0);
    QuotedIn(s, i + 1, body);
    assert PairAt(s, i, 'b', '"') by { IsPair(s, i, 'b', '"'); }
    TurnsAtQuote(s, i);
    BlankPath(s, i, Text(ByteStr(body)));
    BlankOut(ByteStr(body));
  }

  lemma TextParts(body: string)
    ensures Text(Str(body)) == "\"" + (body + "\"") && |Text(Str(body))| == |body| + 2
    ensures Text(ByteStr(body)) == "b" + ("\"" + (body + "\"")) && |Text(ByteStr(body))| == |body| + 3
  {
  }

  lemma IsPair(s: string, i: nat, a: char, b: char)
    requires i < |s| && s[i] == a && CharAt(s, i + 1, b)
    ensures PairAt(s, i, a, b)
  {
  }

  lemma BlankOut(t: Token)
    requires !t.Keep?
    ensures Out(t) == Blank(Text(t))
  {
  }

  lemma CharIn(s: string, i: nat, inner: string)
    requires At(s, i, "'" + (inner + "'")) && CharInner(inner)
    ensures CharAt(s, i, '\'') && CharLiteralLength(s, i) == |inner| + 2
  {
    hide At, IndexOf;
    AtSplit(s, i, "'", inner + "'");
    AtSplit(s, i + 1, inner, "'");
    AtChar(s, i, "'", 0);
    AtChar(s, i + 1 + |inner|, "'", 0);
    InnerIn(s, i + 1, inner);
  }

  /** The length found is that of a character literal, and it is found exactly when one stands there. */
  lemma CharLiteralsExactly(s: string, i: nat)
    ensures CharLiteralLength(s, i) > 0 <==> OpensChar(s, i)
  {
    hide At, IndexOf;
    forall inner | CharInner(inner) && At(s, i, "'" + (inner + "'")) ensures CharLiteralLength(s, i) > 0 {
      CharIn(s, i, inner);
    }
    if CharLiteralLength(s, i) > 0 {
      var n := CharLiteralLength(s, i);
      var inner := s[i + 1..i + n - 1];
      InnerOf(s, i, inner);
      Encloses(s, i, inner);
    }
  }

  lemma Encloses(s: string, i: nat, inner: string)
    requires i + |inner| + 2 <= |s| && CharAt(s, i, '\'') && CharAt(s, i + |inner| + 1, '\'') && s[i + 1..i + 1 + |inner|] == inner
    ensures At(s, i, "'" + (inner + "'"))
  {
    assert s[i..i + |inner| + 2] == [s[i]] + (s[i + 1..i + 1 + |inner|] + [s[i + |inner| + 1]]);
  }

  lemma AtOne(s: string, i: nat, c: char)
    requires i < |s|
    ensures At(s, i, [c]) <==> s[i] == c
  {
    assert s[i..i + 1] == [s[i]];
  }

  lemma InnerOf(s: string, i: nat, inner: string)
    requires CharLiteralLength(s, i) > 0 && inner == s[i + 1..i + CharLiteralLength(s, i) - 1]
    ensures CharInner(inner)
  {
    var j, n := i + 1, |inner|;
    assert forall k | 0 <= k < n :: inner[k] == s[j + k];
    if CharAt(s, j, '\\') && PairAt(s, j + 1, 'u', '{') {
      var close := IndexOf(s, "}", j + 1);
      assert n == close + 1 - j;
      AtChar(s, close, "}", 0);
      assert s[j + 1] == 'u' && s[j + 2] == '{';
      forall k | 0 <= k < n - 1 ensures inner[k] != '}' {
        if k > 0 { AtOne(s, j + k, '}'); }
      }
      assert inner[..3] == "\\u{";
      assert forall k | 0 <= k < n - 1 :: inner[..n - 1][k] == inner[k];
    }
  }

  lemma InnerIn(s: string, j: nat, inner: string)
    requires At(s, j, inner) && CharInner(inner) && CharAt(s, j + |inner|, '\'')
    ensures AfterChar(s, j) == Some(j + |inner|)
  {
    hide At, IndexOf;
    AtChar(s, j, inner, 0);
    if |inner| == 1 {
    } else if |inner| == 2 {
      AtChar(s, j, inner, 1);
    } else if inner[1] == 'x' {
      AtChar(s, j, inner, 1);
    } else {
      assert inner[0] == inner[..3][0] && inner[1] == inner[..3][1] && inner[2] == inner[..3][2];
      AtChar(s, j, inner, 1);
      AtChar(s, j, inner, 2);
      assert PairAt(s, j + 1, 'u', '{');
      CloseIsFirst(s, j, inner);
      assert AfterChar(s, j) == Some(IndexOf(s, "}", j + 1) + 1);
    }
  }

  lemma CloseIsFirst(s: string, i: nat, inner: string)
    requires At(s, i, inner) && |inner| >= 4 && inner[|inner| - 1] == '}' && '}' !in inner[..|inner| - 1]
    ensures IndexOf(s, "}", i + 1) == i + |inner| - 1 < |s|
  {
    var c := i + |inner| - 1;
    AtChar(s, i, inner, |inner| - 1);
    assert s[c..c + 1] == "}";
    forall j: nat | i + 1 <= j < c ensures !At(s, j, "}") {
      AtChar(s, i, inner, j - i);
      assert inner[j - i] == inner[..|inner| - 1][j - i];
      AtChar(s, j, "}", 0);
    }
    IndexIs(s, "}", i + 1, c);
  }

  lemma CharPath(s: string, i: nat, inner: string)
    requires At(s, i, Text(CharLit(inner))) && CharInner(inner)
    ensures Path(s, i, i + |inner| + 2, Blank(Text(CharLit(inner))))
  {
    hide At, Path, Blank, Blanked, CharLiteralLength, TurnEnd, CharInner;
    TurnsAtQuote(s, i);
    CharIn(s, i, inner);
    BlankPath(s, i, Text(CharLit(inner)));
  }

  lemma ByteCharPath(s: string, i: nat, inner: string)
    requires At(s, i, Text(ByteChar(inner))) && CharInner(inner)
    ensures Path(s, i, i + |inner| + 3, Blank(Text(ByteChar(inner))))
  {
    hide At, Path, Blank, Blanked, CharLiteralLength, TurnEnd, CharInner;
    TurnsAtQuote(s, i);
    AtSplit(s, i, "b", "'" + (inner + "'"));
    AtChar(s, i, "b", 0);
    CharIn(s, i + 1, inner);
    BlankPath(s, i, Text(ByteChar(inner)));
  }

  lemma RawPath(s: string, i: nat, n: nat, body: string)
    requires At(s, i, Text(RawStr(n, body))) && Fits(RawStr(n, body), s, i)
    ensures Path(s, i, i + |Text(RawStr(n, body))|, Blank(Text(RawStr(n, body))))
  {
    hide At, Path, Blank, Blanked, RustRawEnd, HashString, IndexOf;
    RawStringsEndAtTheirCloser(s, i, n, body);
    RawOpens(s, i, n, body);
    BlankPath(s, i, Text(RawStr(n, body)));
  }

  lemma RawOpens(s: string, i: nat, n: nat, body: string)
    requires At(s, i, Text(RawStr(n, body)))
    ensures PairAt(s, i, 'r', '"') || PairAt(s, i, 'r', '#')
  {
    var text := Text(RawStr(n, body));
    AtChar(s, i, text, 0);
    AtChar(s, i, text, 1);
    assert text[1] == if n == 0 then '"' else '#';
  }

  lemma BlockPath(s: string, i: nat, c: Comment)
    requires At(s, i, Text(Block(c))) && Unjoined(c)
    ensures Path(s, i, i + |Written(c)| + 4, Blank(Text(Block(c))))
  {
    hide At, Path, Blank, Blanked, RustBlockEnd, Written, Unjoined;
    RustCommentsNest(s, i, c);
    AtChar(s, i, Text(Block(c)), 0);
    AtChar(s, i, Text(Block(c)), 1);
    BlankPath(s, i, Text(Block(c)));
  }

  lemma LinePath(s: string, i: nat, body: string)
    requires At(s, i, "//" + body) && '\n' !in body
    requires i + |body| + 2 == |s| || CharAt(s, i + |body| + 2, '\n')
    ensures Path(s, i, i + |body| + 2, Blank("//" + body))
  {
    hide At, Path, Blank, Blanked, IndexOf;
    LineEndsThere(s, i, body);
    BlankPath(s, i, "//" + body);
  }

  // ---- the theorem ----

  lemma TokenStrips(s: string, i: nat, t: Token)
    requires Fits(t, s, i) && At(s, i, Text(t))
    ensures Path(s, i, i + |Text(t)|, Out(t))
  {
    hide At, Path, Scan, CharInner, Unjoined, IsCode, Blank, Blanked, IndexOf;
    match t
    case Keep(c) =>
      AtChar(s, i, [c], 0);
      KeepPath(s, i);
    case Str(body) => StrPath(s, i, body);
    case ByteStr(body) => ByteStrPath(s, i, body);
    case RawStr(n, body) => RawPath(s, i, n, body);
    case CharLit(inner) => CharPath(s, i, inner);
    case ByteChar(inner) => ByteCharPath(s, i, inner);
    case Block(c) => BlockPath(s, i, c);
    case Line(body) => LinePath(s, i, body);
    case LastLine(body) => LinePath(s, i, body);
  }

  lemma Then(s: string, i: nat, j: nat, e: nat, out: string, more: string)
    requires Path(s, i, j, out) && Path(s, j, e, more)
    ensures Path(s, i, e, out + more)
  {
    hide StripFrom;
    assert (out + more) + StripFrom(s, e) == out + (more + StripFrom(s, e));
  }

  lemma {:induction false} TokensStrip(s: string, i: nat, tokens: seq<Token>)
    requires AllFit(tokens, s, i) && At(s, i, Source(tokens))
    ensures Path(s, i, i + |Source(tokens)|, Cleaned(tokens))
    decreases |tokens|
  {
    hide Text, Out, Fits, StripFrom;
    if tokens == [] {
      assert "" + StripFrom(s, i) == StripFrom(s, i);
    } else {
      hide At, Path;
      var text, rest := Text(tokens[0]), Source(tokens[1..]);
      AtSplit(s, i, text, rest);
      TokenStrips(s, i, tokens[0]);
      TokensStrip(s, i + |text|, tokens[1..]);
      Then(s, i, i + |text|, i + |text| + |rest|, Out(tokens[0]), Cleaned(tokens[1..]));
    }
  }

  /** On a whole file: exactly its literals and comments are blank. */
  lemma ExactlyLiteralsGoBlank(tokens: seq<Token>)
    requires AllFit(tokens, Source(tokens), 0)
    ensures StripRust(Source(tokens)) == Cleaned(tokens)
  {
    hide AllFit, Source, Cleaned;
    var s := Source(tokens);
    assert s[0..0 + |s|] == s;
    TokensStrip(s, 0, tokens);
    assert Cleaned(tokens) + "" == Cleaned(tokens);
  }

  // ---- lifetimes ----

  predicate WordChar(c: char) {
    'a' <= c <= 'z' || 'A' <= c <= 'Z' || '0' <= c <= '9' || c == '_'
  }

  /** A word whose last character joins nothing that follows it stays as it is. */
  lemma NoPath(s: string, i: nat)
    requires i <= |s|
    ensures Path(s, i, i, "")
  {
    assert "" + StripFrom(s, i) == StripFrom(s, i);
  }

  lemma {:induction false} WordStaysCode(s: string, i: nat, word: string)
    requires At(s, i, word) && forall k | 0 <= k < |word| :: WordChar(word[k])
    requires i + |word| < |s| ==> s[i + |word|] != '"' && s[i + |word|] != '#' && s[i + |word|] != '\''
    ensures Path(s, i, i + |word|, word)
    decreases |word|
  {
    hide Path, OpensChar, StripFrom;
    if word == "" {
      NoPath(s, i);
    } else {
      hide At;
      assert word == [word[0]] + word[1..];
      AtSplit(s, i, [word[0]], word[1..]);
      AtChar(s, i, [word[0]], 0);
      if |word| > 1 { AtChar(s, i + 1, word[1..], 0); }
      KeepPath(s, i);
      WordStaysCode(s, i + 1, word[1..]);
      Then(s, i, i + 1, i + |word|, [word[0]], word[1..]);
    }
  }

  /** A lifetime comes out of the lexer unchanged wherever it stands in code. */
  lemma LifetimesStayCode(s: string, i: nat, name: string)
    requires At(s, i, "'" + name) && name != "" && forall k | 0 <= k < |name| :: WordChar(name[k])
    requires i + 1 + |name| < |s| ==>
               s[i + 1 + |name|] != '"' && s[i + 1 + |name|] != '#' && s[i + 1 + |name|] != '\''
    ensures StripFrom(s, i) == "'" + name + StripFrom(s, i + 1 + |name|)
  {
    hide At, OpensChar, StripFrom, IndexOf;
    AtSplit(s, i, "'", name);
    AtChar(s, i, "'", 0);
    AtChar(s, i + 1, name, 0);
    if |name| > 1 { AtChar(s, i + 1, name, 1); }
    assert CharLiteralLength(s, i) == 0;
    CharLiteralsExactly(s, i);
    KeepPath(s, i);
    WordStaysCode(s, i + 1, name);
    Then(s, i, i + 1, i + 1 + |name|, "'", name);
  }
}
