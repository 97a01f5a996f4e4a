/** What the TypeScript lexer makes of nested source text: every literal, comment and regex goes blank and
    all code stays, however deep in `${}` holes it stands. Whether a slash divides depends on what stands
    around it, so source text fits at a place in the file. */
module BlankingTsGrammar {
  import opened Strings
  import opened BlankingEnds
  import opened Blanking
  import opened BlankingTs

  datatype Source =
    | End
    | Plain(c: char, rest: Source)
    | Quoted(quote: char, body: string, rest: Source)
    | BlockComment(body: string, rest: Source)
    | LineComment(body: string, rest: Source)
    | LastComment(body: string)   // a line comment that ends the file
    | Divide(rest: Source)        // a slash that is code
    | Regex(text: string, rest: Source)
    | Braces(inner: Source, rest: Source)
    | TemplateLiteral(pieces: Pieces, rest: Source)

  datatype Pieces = Last(text: string) | Hole(text: string, inner: Source, more: Pieces)

  predicate TextFits(stop: Stop, text: string) {
    Scan(text, stop, 0) == |text|
  }

  predicate LoneSlash(s: string, i: nat) {
    CharAt(s, i, '/') && !CharAt(s, i + 1, '/') && !CharAt(s, i + 1, '*')
  }

  /** What precedes the slash allows a regex, and its body closes on its line. */
  ghost predicate OpensRegex(s: string, i: nat)
    requires i < |s|
  {
    RegexMayOpen(s, i) && exists c: nat :: ClosesAt(s, i, c)
  }

  /** `text` is the regex at `i`, its flags included. */
  ghost predicate RegexAt(s: string, i: nat, text: string)
    requires i < |s|
  {
    RegexMayOpen(s, i) && exists c: nat :: ClosesAt(s, i, c) && Flags(s, c + 1) == i + |text|
  }

  /** The text of `x`, which stands at `i` of the file `s`, is what `x` says it is. */
  ghost predicate Fits(x: Source, s: string, i: nat) {
    match x
    case End => true
    case Plain(c, rest) => c !in "/'\"`{}" && Fits(rest, s, i + 1)
    case Quoted(quote, body, rest) =>
      quote in "'\"" && TextFits(Quote(quote), body) && Fits(rest, s, i + |body| + 2)
    case BlockComment(body, rest) => IndexOf(body + "*/", "*/", 0) == |body| && Fits(rest, s, i + |body| + 4)
    case LineComment(body, rest) => '\n' !in body && Fits(rest, s, i + |body| + 3)
    case LastComment(body) => '\n' !in body && i + |body| + 2 == |s|
    case Divide(rest) => LoneSlash(s, i) && !OpensRegex(s, i) && Fits(rest, s, i + 1)
    case Regex(text, rest) => LoneSlash(s, i) && RegexAt(s, i, text) && Fits(rest, s, i + |text|)
    case Braces(inner, rest) => Fits(inner, s, i + 1) && Fits(rest, s, i + 2 + |Written(inner)|)
    case TemplateLiteral(pieces, rest) => PiecesFit(pieces, s, i + 1) && Fits(rest, s, i + 1 + |PiecesWritten(pieces)|)
  }

  ghost predicate PiecesFit(p: Pieces, s: string, i: nat) {
    match p
    case Last(text) => TextFits(Template, text)
    case Hole(text, inner, more) =>
      && TextFits(Template, text)
      && Fits(inner, s, i + |text| + 2)
      && PiecesFit(more, s, i + |text| + 3 + |Written(inner)|)
  }

  function Written(x: Source): string {
    match x
    case End => ""
    case Plain(c, rest) => [c] + Written(rest)
    case Quoted(quote, body, rest) => ([quote] + body + [quote]) + Written(rest)
    case BlockComment(body, rest) => ("/*" + (body + "*/")) + Written(rest)
    case LineComment(body, rest) => ("//" + body) + ("\n" + Written(rest))
    case LastComment(body) => "//" + body
    case Divide(rest) => "/" + Written(rest)
    case Regex(text, rest) => text + Written(rest)
    case Braces(inner, rest) => "{" + (Written(inner) + ("}" + Written(rest)))
    case TemplateLiteral(pieces, rest) => "`" + (PiecesWritten(pieces) + Written(rest))
  }

  function PiecesWritten(p: Pieces): string {
    match p
    case Last(text) => text + "`"
    case Hole(text, inner, more) => (text + "${") + (Written(inner) + ("}" + PiecesWritten(more)))
  }

  /** The same text with each literal and comment blank and each character of code in place. */
  function Cleaned(x: Source): string {
    match x
    case End => ""
    case Plain(c, rest) => [c] + Cleaned(rest)
    case Quoted(quote, body, rest) => Blank([quote] + body + [quote]) + Cleaned(rest)
    case BlockComment(body, rest) => Blank("/*" + (body + "*/")) + Cleaned(rest)
    case LineComment(body, rest) => Blank("//" + body) + ("\n" + Cleaned(rest))
    case LastComment(body) => Blank("//" + body)
    case Divide(rest) => "/" + Cleaned(rest)
    case Regex(text, rest) => Blank(text) + Cleaned(rest)
    case Braces(inner, rest) => "{" + (Cleaned(inner) + ("}" + Cleaned(rest)))
    case TemplateLiteral(pieces, rest) => " " + (PiecesCleaned(pieces) + Cleaned(rest))
  }

  function PiecesCleaned(p: Pieces): string {
    match p
    case Last(text) => Blank(text + "`")
    case Hole(text, inner, more) => Blank(text + "${") + (Cleaned(inner) + ("}" + PiecesCleaned(more)))
  }

  // ---- runs of the lexer ----

  /** The lexer's position, mode and stack between two turns. */
  datatype Point = Point(i: nat, mode: Mode, stack: seq<Frame>)

  /** From `a` the lexer gets to `b`, appending `out`. */
  predicate Path(s: string, a: Point, b: Point, out: string) {
    && a.i <= b.i <= |s|
    && StripFrom(s, a.i, a.mode, a.stack) == out + StripFrom(s, b.i, b.mode, b.stack)
  }

  lemma NoTurn(s: string, a: Point)
    requires a.i <= |s|
    ensures Path(s, a, a, "")
  {
    assert "" + StripFrom(s, a.i, a.mode, a.stack) == StripFrom(s, a.i, a.mode, a.stack);
  }

  lemma OneTurnPath(s: string, a: Point, turn: Turn)
    requires a.i < |s| && TurnAt(s, a.i, a.mode, a.stack) == turn && turn.end <= |s|
    ensures Path(s, a, Point(turn.end, turn.mode, turn.stack), Piece(s, a.i, turn))
  {
    hide TurnAt, Piece;
  }

  lemma Then(s: string, a: Point, b: Point, c: Point, out: string, more: string)
    requires Path(s, a, b, out) && Path(s, b, c, more)
    ensures Path(s, a, c, out + more)
  {
    hide StripFrom;
    assert (out + more) + StripFrom(s, c.i, c.mode, c.stack) == out + (more + StripFrom(s, c.i, c.mode, c.stack));
  }

  lemma Then3(s: string, a: Point, b: Point, c: Point, d: Point, x: string, y: string, z: string)
    requires Path(s, a, b, x) && Path(s, b, c, y) && Path(s, c, d, z)
    ensures Path(s, a, d, x + (y + z))
  {
    hide Path;
    Then(s, b, c, d, y, z);
    Then(s, a, b, d, x, y + z);
  }

  lemma Then4(s: string, a: Point, b: Point, c: Point, d: Point, e: Point, x: string, y: string, z: string, w: string)
    requires Path(s, a, b, x) && Path(s, b, c, y) && Path(s, c, d, z) && Path(s, d, e, w)
    ensures Path(s, a, e, x + (y + (z + w)))
  {
    hide Path;
    Then3(s, b, c, d, e, y, z, w);
    Then(s, a, b, e, x, y + (z + w));
  }

  // ---- one token in context ----

  lemma BlankTurn(s: string, a: Point, text: string, mode: Mode, stack: seq<Frame>)
    requires At(s, a.i, text) && text != "" && a.i < |s|
    requires TurnAt(s, a.i, a.mode, a.stack) == Turn(a.i + |text|, true, mode, stack)
    ensures Path(s, a, Point(a.i + |text|, mode, stack), Blank(text))
  {
    hide At, TurnAt, Path, Blank;
    BlankedIn(s, a.i, text);
    OneTurnPath(s, a, TurnAt(s, a.i, a.mode, a.stack));
  }

  /** A character of code, braces included. */
  lemma KeptTurn(s: string, i: nat, c: char, stack: seq<Frame>) returns (b: Point)
    requires At(s, i, [c]) && c !in "/'\"`"
    ensures Path(s, Point(i, Code, stack), b, [c]) && b.i == i + 1
    ensures c == '{' ==> b.mode == Code && b.stack == stack + [Brace]
    ensures c == '}' && stack != [] ==>
              b.mode == (if stack[|stack| - 1] == Tmpl then TemplateQuote else Code) && b.stack == stack[..|stack| - 1]
    ensures c !in "{}" ==> b.mode == Code && b.stack == stack
  {
    hide Path, At;
    AtChar(s, i, [c], 0);
    var turn := TurnAt(s, i, Code, stack);
    OneTurnPath(s, Point(i, Code, stack), turn);
    b := Point(turn.end, turn.mode, turn.stack);
  }

  lemma {:induction false} ScanIn(s: string, i: nat, text: string, stop: Stop, j: nat)
    requires At(s, i, text) && j <= |text| && Scan(text, stop, j) == |text|
    requires StopsAt(s, stop, i + |text|) && i + |text| < |s| && s[i + |text|] != '\\' && s[i + |text|] != '{'
    ensures Scan(s, stop, i + j) == i + |text|
    decreases |text| - j
  {
    hide At;
    if j < |text| {
      AtChar(s, i, text, j);
      if j + 1 < |text| { AtChar(s, i, text, j + 1); }
      ScanIn(s, i, text, stop, if text[j] == '\\' then j + 2 else j + 1);
    }
  }

  lemma QuotedPath(s: string, i: nat, quote: char, body: string, stack: seq<Frame>)
    requires quote in "'\"" && TextFits(Quote(quote), body) && At(s, i, [quote] + body + [quote])
    ensures Path(s, Point(i, Code, stack), Point(i + |body| + 2, Code, stack), Blank([quote] + body + [quote]))
  {
    hide At, Path, Blank;
    assert [quote] + body + [quote] == [quote] + (body + [quote]);
    AtSplit(s, i, [quote], body + [quote]);
    AtSplit(s, i + 1, body, [quote]);
    AtChar(s, i, [quote], 0);
    AtChar(s, i + 1 + |body|, [quote], 0);
    ScanIn(s, i + 1, body, Quote(quote), 0);
    BlankTurn(s, Point(i, Code, stack), [quote] + body + [quote], Code, stack);
  }

  lemma BlockPath(s: string, i: nat, body: string, stack: seq<Frame>)
    requires At(s, i, "/*" + (body + "*/")) && IndexOf(body + "*/", "*/", 0) == |body|
    ensures Path(s, Point(i, Code, stack), Point(i + |body| + 4, Code, stack), Blank("/*" + (body + "*/")))
  {
    hide IndexOf, At, Path, Blank;
    AtSplit(s, i, "/*", body + "*/");
    AtPair(s, i, "/*");
    CloseIn(s, i + 2, body);
    BlankTurn(s, Point(i, Code, stack), "/*" + (body + "*/"), Code, stack);
  }

  lemma CloseIn(s: string, from: nat, body: string)
    requires At(s, from, body + "*/") && IndexOf(body + "*/", "*/", 0) == |body|
    ensures IndexOf(s, "*/", from) == from + |body| < |s|
  {
    var all := body + "*/";
    AtSplit(s, from, body, "*/");
    forall j: nat | from <= j < from + |body| ensures !At(s, j, "*/") {
      assert !At(all, j - from, "*/");
      AtWithin(s, from, all, j - from, "*/");
    }
  }

  lemma LinePath(s: string, i: nat, body: string, stack: seq<Frame>)
    requires At(s, i, "//" + body) && '\n' !in body
    requires i + |body| + 2 == |s| || CharAt(s, i + |body| + 2, '\n')
    ensures Path(s, Point(i, Code, stack), Point(i + |body| + 2, Code, stack), Blank("//" + body))
  {
    hide Path, Blank, IndexOf;
    LineEndsThere(s, i, body);
    BlankTurn(s, Point(i, Code, stack), "//" + body, Code, stack);
  }

  lemma DividePath(s: string, i: nat, stack: seq<Frame>)
    requires i < |s| && LoneSlash(s, i) && !OpensRegex(s, i)
    ensures Path(s, Point(i, Code, stack), Point(i + 1, Code, stack), "/")
  {
    hide Path, ClosesAt, RegexMayOpen, RegexEnd;
    RegexEndIsFirstFreeSlash(s, i);
    OneTurnPath(s, Point(i, Code, stack), TurnAt(s, i, Code, stack));
  }

  lemma RegexPath(s: string, i: nat, text: string, stack: seq<Frame>)
    requires i < |s| && LoneSlash(s, i) && RegexAt(s, i, text) && At(s, i, text)
    ensures Path(s, Point(i, Code, stack), Point(i + |text|, Code, stack), Blank(text))
  {
    hide Path, ClosesAt, RegexMayOpen, RegexEnd, Blank, At;
    RegexEndIsFirstFreeSlash(s, i);
    BlankTurn(s, Point(i, Code, stack), text, Code, stack);
  }

  lemma TextPath(s: string, i: nat, text: string, stop: string, stack: seq<Frame>)
    requires TextFits(Template, text) && At(s, i, text + stop) && (stop == "`" || stop == "${")
    ensures Path(s, Point(i, TemplateQuote, stack),
                 Point(i + |text + stop|, Code, if stop == "`" then stack else stack + [Tmpl]), Blank(text + stop))
  {
    hide At, Path, Blank;
    AtSplit(s, i, text, stop);
    AtChar(s, i + |text|, stop, 0);
    if stop == "${" { AtChar(s, i + |text|, stop, 1); }
    ScanIn(s, i, text, Template, 0);
    BlankTurn(s, Point(i, TemplateQuote, stack), text + stop, Code, if stop == "`" then stack else stack + [Tmpl]);
  }

  lemma TickPath(s: string, i: nat, stack: seq<Frame>)
    requires At(s, i, "`")
    ensures Path(s, Point(i, Code, stack), Point(i + 1, TemplateQuote, stack), " ")
  {
    hide At, Path;
    AtChar(s, i, "`", 0);
    BlankTurn(s, Point(i, Code, stack), "`", TemplateQuote, stack);
    assert Blank("`") == " ";
  }

  // ---- the theorem ----

  predicate Strips(s: string, i: nat, x: Source, stack: seq<Frame>) {
    Path(s, Point(i, Code, stack), Point(i + |Written(x)|, Code, stack), Cleaned(x))
  }

  lemma {:induction false} CodeStrips(s: string, i: nat, x: Source, stack: seq<Frame>)
    requires Fits(x, s, i) && At(s, i, Written(x))
    ensures Strips(s, i, x, stack)
    decreases x, 1
  {
    hide *;
    match x
    case End => EndStrips(s, i, stack);
    case Plain(c, rest) => PlainStrips(s, i, c, rest, stack);
    case Quoted(quote, body, rest) => QuotedStrips(s, i, quote, body, rest, stack);
    case BlockComment(body, rest) => BlockStrips(s, i, body, rest, stack);
    case LineComment(body, rest) => LineStrips(s, i, body, rest, stack);
    case LastComment(body) => LastStrips(s, i, body, stack);
    case Divide(rest) => DivideStrips(s, i, rest, stack);
    case Regex(text, rest) => RegexStrips(s, i, text, rest, stack);
    case Braces(inner, rest) => BracesStrip(s, i, inner, rest, stack);
    case TemplateLiteral(pieces, rest) => TemplateStrips(s, i, pieces, rest, stack);
  }

  lemma StripsIs(s: string, i: nat, x: Source, stack: seq<Frame>, n: nat, out: string)
    requires n == |Written(x)| && out == Cleaned(x)
    ensures Strips(s, i, x, stack) <==> Path(s, Point(i, Code, stack), Point(i + n, Code, stack), out)
  {
    hide Path, Written, Cleaned;
  }

  lemma EndStrips(s: string, i: nat, stack: seq<Frame>)
    requires At(s, i, Written(End))
    ensures Strips(s, i, End, stack)
  {
    NoTurn(s, Point(i, Code, stack));
  }

  /** A token the lexer has passed, and the rest. */
  lemma {:induction false} ThenRest(s: string, i: nat, x: Source, token: string, out: string, rest: Source, stack: seq<Frame>)
    requires Fits(rest, s, i + |token|) && At(s, i + |token|, Written(rest))
    requires Path(s, Point(i, Code, stack), Point(i + |token|, Code, stack), out)
    requires Written(x) == token + Written(rest) && Cleaned(x) == out + Cleaned(rest)
    ensures Strips(s, i, x, stack)
    decreases rest, 2
  {
    hide *;
    var w, c := Written(rest), Cleaned(rest);
    var end := Point(i + |token| + |w|, Code, stack);
    CodeStrips(s, i + |token|, rest, stack);
    StripsIs(s, i + |token|, rest, stack, |w|, c);
    Then(s, Point(i, Code, stack), Point(i + |token|, Code, stack), end, out, c);
    StripsIs(s, i, x, stack, |token + w|, out + c);
  }

  lemma {:induction false} PlainStrips(s: string, i: nat, c: char, rest: Source, stack: seq<Frame>)
    requires Fits(Plain(c, rest), s, i) && At(s, i, Written(Plain(c, rest)))
    ensures Strips(s, i, Plain(c, rest), stack)
    decreases rest, 3
  {
    var x := Plain(c, rest);
    assert c !in "/'\"`{}" && Fits(rest, s, i + 1);
    assert Written(x) == [c] + Written(rest) && Cleaned(x) == [c] + Cleaned(rest);
    hide *;
    AtSplit(s, i, [c], Written(rest));
    var b := KeptTurn(s, i, c, stack);
    ThenRest(s, i, x, [c], [c], rest, stack);
  }

  lemma QuotedIs(quote: char, body: string, rest: Source, s: string, i: nat)
    requires Fits(Quoted(quote, body, rest), s, i)
    ensures quote in "'\"" && TextFits(Quote(quote), body) && Fits(rest, s, i + |body| + 2)
    ensures Written(Quoted(quote, body, rest)) == ([quote] + body + [quote]) + Written(rest)
    ensures Cleaned(Quoted(quote, body, rest)) == Blank([quote] + body + [quote]) + Cleaned(rest)
  {
    hide Blank, TextFits;
  }

  lemma {:induction false} QuotedStrips(s: string, i: nat, quote: char, body: string, rest: Source, stack: seq<Frame>)
    requires Fits(Quoted(quote, body, rest), s, i) && At(s, i, Written(Quoted(quote, body, rest)))
    ensures Strips(s, i, Quoted(quote, body, rest), stack)
    decreases rest, 3
  {
    var x, token := Quoted(quote, body, rest), [quote] + body + [quote];
    hide *;
    QuotedIs(quote, body, rest, s, i);
    assert |token| == |body| + 2;
    AtSplit(s, i, token, Written(rest));
    QuotedPath(s, i, quote, body, stack);
    ThenRest(s, i, x, token, Blank(token), rest, stack);
  }

  lemma CommentsAre(body: string, rest: Source, s: string, i: nat)
    ensures Fits(BlockComment(body, rest), s, i) ==>
              IndexOf(body + "*/", "*/", 0) == |body| && Fits(rest, s, i + |body| + 4)
    ensures Fits(LineComment(body, rest), s, i) ==> '\n' !in body && Fits(rest, s, i + |body| + 3)
    ensures Written(BlockComment(body, rest)) == ("/*" + (body + "*/")) + Written(rest)
    ensures Cleaned(BlockComment(body, rest)) == Blank("/*" + (body + "*/")) + Cleaned(rest)
    ensures Written(LineComment(body, rest)) == ("//" + body) + ("\n" + Written(rest))
    ensures Cleaned(LineComment(body, rest)) == Blank("//" + body) + ("\n" + Cleaned(rest))
  {
    hide IndexOf, Blank;
  }

  lemma {:induction false} BlockStrips(s: string, i: nat, body: string, rest: Source, stack: seq<Frame>)
    requires Fits(BlockComment(body, rest), s, i) && At(s, i, Written(BlockComment(body, rest)))
    ensures Strips(s, i, BlockComment(body, rest), stack)
    decreases rest, 3
  {
    var x, token := BlockComment(body, rest), "/*" + (body + "*/");
    hide *;
    CommentsAre(body, rest, s, i);
    assert |token| == |body| + 4;
    AtSplit(s, i, token, Written(rest));
    BlockPath(s, i, body, stack);
    ThenRest(s, i, x, token, Blank(token), rest, stack);
  }

  lemma IsChar(s: string, i: nat, c: char)
    requires i < |s| && s[i] == c
    ensures CharAt(s, i, c)
  {
  }

  lemma {:induction false} LineStrips(s: string, i: nat, body: string, rest: Source, stack: seq<Frame>)
    requires Fits(LineComment(body, rest), s, i) && At(s, i, Written(LineComment(body, rest)))
    ensures Strips(s, i, LineComment(body, rest), stack)
    decreases rest, 3
  {
    var x, token := LineComment(body, rest), "//" + body;
    var w, c := Written(rest), Cleaned(rest);
    var m, e := i + |token|, i + |token| + 1 + |w|;
    hide *;
    CommentsAre(body, rest, s, i);
    AtSplit3(s, i, token, "\n", w);
    AtChar(s, m, "\n", 0);
    assert CharAt(s, m, '\n') by { IsChar(s, m, '\n'); }
    LinePath(s, i, body, stack);
    var b := KeptTurn(s, m, '\n', stack);
    CodeStrips(s, m + 1, rest, stack);
    StripsIs(s, m + 1, rest, stack, |w|, c);
    Then3(s, Point(i, Code, stack), Point(m, Code, stack), b, Point(e, Code, stack), Blank(token), "\n", c);
    StripsIs(s, i, x, stack, e - i, Blank(token) + ("\n" + c));
  }

  lemma LastStrips(s: string, i: nat, body: string, stack: seq<Frame>)
    requires Fits(LastComment(body), s, i) && At(s, i, Written(LastComment(body)))
    ensures Strips(s, i, LastComment(body), stack)
  {
    LinePath(s, i, body, stack);
  }

  lemma DivideIs(rest: Source, s: string, i: nat)
    requires Fits(Divide(rest), s, i)
    ensures i < |s| && LoneSlash(s, i) && !OpensRegex(s, i) && Fits(rest, s, i + 1)
    ensures Written(Divide(rest)) == "/" + Written(rest) && Cleaned(Divide(rest)) == "/" + Cleaned(rest)
  {
    hide OpensRegex;
  }

  lemma RegexIs(text: string, rest: Source, s: string, i: nat)
    requires Fits(Regex(text, rest), s, i)
    ensures i < |s| && LoneSlash(s, i) && RegexAt(s, i, text) && Fits(rest, s, i + |text|)
    ensures Written(Regex(text, rest)) == text + Written(rest) && Cleaned(Regex(text, rest)) == Blank(text) + Cleaned(rest)
  {
    hide RegexAt, Blank;
  }

  lemma {:induction false} DivideStrips(s: string, i: nat, rest: Source, stack: seq<Frame>)
    requires Fits(Divide(rest), s, i) && At(s, i, Written(Divide(rest)))
    ensures Strips(s, i, Divide(rest), stack)
    decreases rest, 3
  {
    var x := Divide(rest);
    hide *;
    DivideIs(rest, s, i);
    AtSplit(s, i, "/", Written(rest));
    DividePath(s, i, stack);
    ThenRest(s, i, x, "/", "/", rest, stack);
  }

  lemma {:induction false} RegexStrips(s: string, i: nat, text: string, rest: Source, stack: seq<Frame>)
    requires Fits(Regex(text, rest), s, i) && At(s, i, Written(Regex(text, rest)))
    ensures Strips(s, i, Regex(text, rest), stack)
    decreases rest, 3
  {
    var x := Regex(text, rest);
    hide *;
    RegexIs(text, rest, s, i);
    AtSplit(s, i, text, Written(rest));
    RegexPath(s, i, text, stack);
    ThenRest(s, i, x, text, Blank(text), rest, stack);
  }

  lemma BracesAre(inner: Source, rest: Source, s: string, i: nat)
    requires Fits(Braces(inner, rest), s, i)
    ensures Fits(inner, s, i + 1) && Fits(rest, s, i + 2 + |Written(inner)|)
    ensures Written(Braces(inner, rest)) == "{" + (Written(inner) + ("}" + Written(rest)))
    ensures Cleaned(Braces(inner, rest)) == "{" + (Cleaned(inner) + ("}" + Cleaned(rest)))
  {
  }

  lemma TemplateIs(pieces: Pieces, rest: Source, s: string, i: nat)
    requires Fits(TemplateLiteral(pieces, rest), s, i)
    ensures PiecesFit(pieces, s, i + 1) && Fits(rest, s, i + 1 + |PiecesWritten(pieces)|)
    ensures Written(TemplateLiteral(pieces, rest)) == "`" + (PiecesWritten(pieces) + Written(rest))
    ensures Cleaned(TemplateLiteral(pieces, rest)) == " " + (PiecesCleaned(pieces) + Cleaned(rest))
  {
    hide PiecesFit, PiecesWritten, PiecesCleaned;
  }

  lemma HoleIs(text: string, inner: Source, more: Pieces, s: string, i: nat)
    requires PiecesFit(Hole(text, inner, more), s, i)
    ensures TextFits(Template, text) && Fits(inner, s, i + |text + "${"|)
    ensures PiecesFit(more, s, i + |text + "${"| + 1 + |Written(inner)|)
    ensures PiecesWritten(Hole(text, inner, more)) == (text + "${") + (Written(inner) + ("}" + PiecesWritten(more)))
    ensures PiecesCleaned(Hole(text, inner, more))
         == Blank(text + "${") + (Cleaned(inner) + ("}" + PiecesCleaned(more)))
  {
    hide Blank, Fits, TextFits, Written, Cleaned;
  }

  lemma PopsBack(stack: seq<Frame>, frame: Frame)
    ensures (stack + [frame])[..|stack + [frame]| - 1] == stack && (stack + [frame])[|stack + [frame]| - 1] == frame
  {
  }

  lemma {:induction false} BracesStrip(s: string, i: nat, inner: Source, rest: Source, stack: seq<Frame>)
    requires Fits(Braces(inner, rest), s, i) && At(s, i, Written(Braces(inner, rest)))
    ensures Strips(s, i, Braces(inner, rest), stack)
    decreases Braces(inner, rest), 0
  {
    var x := Braces(inner, rest);
    var code, tail, out, more := Written(inner), Written(rest), Cleaned(inner), Cleaned(rest);
    var n, e := i + 1 + |code|, i + 2 + |code| + |tail|;
    hide *;
    BracesAre(inner, rest, s, i);
    AtSplit4(s, i, "{", code, "}", tail);
    var b := KeptTurn(s, i, '{', stack);
    CodeStrips(s, i + 1, inner, stack + [Brace]);
    StripsIs(s, i + 1, inner, stack + [Brace], |code|, out);
    var d := KeptTurn(s, n, '}', stack + [Brace]);
    PopsBack(stack, Brace);
    CodeStrips(s, n + 1, rest, stack);
    StripsIs(s, n + 1, rest, stack, |tail|, more);
    Then4(s, Point(i, Code, stack), b, Point(n, Code, stack + [Brace]), d, Point(e, Code, stack), "{", out, "}", more);
    StripsIs(s, i, x, stack, e - i, "{" + (out + ("}" + more)));
  }

  lemma {:induction false} TemplateStrips(s: string, i: nat, pieces: Pieces, rest: Source, stack: seq<Frame>)
    requires Fits(TemplateLiteral(pieces, rest), s, i) && At(s, i, Written(TemplateLiteral(pieces, rest)))
    ensures Strips(s, i, TemplateLiteral(pieces, rest), stack)
    decreases TemplateLiteral(pieces, rest), 0
  {
    var x := TemplateLiteral(pieces, rest);
    var text, tail, out, more := PiecesWritten(pieces), Written(rest), PiecesCleaned(pieces), Cleaned(rest);
    var n, e := i + 1 + |text|, i + 1 + |text| + |tail|;
    hide *;
    TemplateIs(pieces, rest, s, i);
    AtSplit3(s, i, "`", text, tail);
    TickPath(s, i, stack);
    PiecesStrip(s, i + 1, pieces, stack);
    CodeStrips(s, n, rest, stack);
    StripsIs(s, n, rest, stack, |tail|, more);
    Then3(s, Point(i, Code, stack), Point(i + 1, TemplateQuote, stack), Point(n, Code, stack), Point(e, Code, stack),
          " ", out, more);
    StripsIs(s, i, x, stack, e - i, " " + (out + more));
  }

  lemma {:induction false} PiecesStrip(s: string, i: nat, p: Pieces, stack: seq<Frame>)
    requires PiecesFit(p, s, i) && At(s, i, PiecesWritten(p))
    ensures Path(s, Point(i, TemplateQuote, stack), Point(i + |PiecesWritten(p)|, Code, stack), PiecesCleaned(p))
    decreases p, 1
  {
    match p
    case Last(text) =>
      hide At, Path, TextFits, Blank;
      TextPath(s, i, text, "`", stack);
    case Hole(text, inner, more) =>
      hide *;
      HoleStrips(s, i, text, inner, more, stack);
  }

  lemma {:induction false} HoleStrips(s: string, i: nat, text: string, inner: Source, more: Pieces, stack: seq<Frame>)
    requires PiecesFit(Hole(text, inner, more), s, i) && At(s, i, PiecesWritten(Hole(text, inner, more)))
    ensures Path(s, Point(i, TemplateQuote, stack), Point(i + |PiecesWritten(Hole(text, inner, more))|, Code, stack),
                 PiecesCleaned(Hole(text, inner, more)))
    decreases Hole(text, inner, more), 0
  {
    var p, open := Hole(text, inner, more), text + "${";
    var code, pieces, out, tail := Written(inner), PiecesWritten(more), Cleaned(inner), PiecesCleaned(more);
    var m, n := i + |open|, i + |open| + |code|;
    hide *;
    HoleIs(text, inner, more, s, i);
    AtSplit4(s, i, open, code, "}", pieces);
    TextPath(s, i, text, "${", stack);
    CodeStrips(s, m, inner, stack + [Tmpl]);
    StripsIs(s, m, inner, stack + [Tmpl], |code|, out);
    var d := KeptTurn(s, n, '}', stack + [Tmpl]);
    PopsBack(stack, Tmpl);
    PiecesStrip(s, n + 1, more, stack);
    Then4(s, Point(i, TemplateQuote, stack), Point(m, Code, stack + [Tmpl]), Point(n, Code, stack + [Tmpl]), d,
          Point(n + 1 + |pieces|, Code, stack), Blank(open), out, "}", tail);
  }

  /** On a whole file: exactly its literals, comments and regexes are blank. */
  lemma ExactlyLiteralsGoBlank(x: Source)
    requires Fits(x, Written(x), 0)
    ensures StripTs(Written(x)) == Cleaned(x)
  {
    hide Fits, Written, Cleaned;
    var s := Written(x);
    assert s[0..0 + |s|] == s;
    CodeStrips(s, 0, x, []);
    StripsIs(s, 0, x, [], |s|, Cleaned(x));
    assert Cleaned(x) + "" == Cleaned(x);
  }
}
