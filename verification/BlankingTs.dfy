/** The TypeScript lexer of docker/check-tests.ts. */
module BlankingTs {
  import opened Options
  import opened BlankingEnds
  import opened Blanking

  // ---- regex literals ----

  predicate Space(c: char) {
    var n := c as int;
    9 <= n <= 13 || n in {0x20, 0xA0, 0x1680, 0x2028, 0x2029, 0x202F, 0x205F, 0x3000, 0xFEFF} || 0x2000 <= n <= 0x200A
  }

  predicate WordChar(c: char) {
    'a' <= c <= 'z' || 'A' <= c <= 'Z' || '0' <= c <= '9' || c == '_' || c == '$'
  }

  const REGEX_KEYWORDS: set<string> := {
    "await", "case", "delete", "do", "else", "in", "instanceof",
    "new", "of", "return", "throw", "typeof", "void", "yield"
  }

  /** One past the last character before `k` that is not white space; 0 when there is none. */
  function BackOverSpace(s: string, k: nat): (j: nat)
    requires k <= |s|
    ensures j <= k && (j > 0 ==> !Space(s[j - 1])) && forall i | j <= i < k :: Space(s[i])
  {
    if k > 0 && Space(s[k - 1]) then BackOverSpace(s, k - 1) else k
  }

  /** Where the run of word characters that ends at `k` begins. */
  function BackOverWord(s: string, k: nat): (j: nat)
    requires k <= |s|
    ensures j <= k && (j > 0 ==> !WordChar(s[j - 1])) && forall i | j <= i < k :: WordChar(s[i])
  {
    if k > 0 && WordChar(s[k - 1]) then BackOverWord(s, k - 1) else k
  }

  predicate SlashStartsRegex(s: string, at: nat)
    requires at < |s|
  {
    && !CharAt(s, at + 1, '=')
    && var j := BackOverSpace(s, at);
    if j == 0 then true
    else
      var prev := s[j - 1];
      if prev == '+' || prev == '-' then !CharAt(s, j - 2, prev)
      else if prev in "([{,=;!&|?:~^%<>*" then true
      else s[BackOverWord(s, j)..j] in REGEX_KEYWORDS
  }

  // ---- what may stand before a regex, read forwards ----

  /** The white space of the language, code point by code point. */
  predicate IsBlank(c: char) {
    c as int in {9, 10, 11, 12, 13, 32, 160, 5760, 8192, 8193, 8194, 8195, 8196, 8197, 8198, 8199, 8200, 8201, 8202,
                 8232, 8233, 8239, 8287, 12288, 65279}
  }

  /** Letters, digits, underscore and dollar sign, by code point. */
  predicate IsLetter(c: char) {
    var n := c as int;
    65 <= n <= 90 || 97 <= n <= 122 || 48 <= n <= 57 || n == 95 || n == 36
  }

  lemma SpaceIsListed(c: char)
    ensures Space(c) <==> IsBlank(c)
  {
  }

  lemma WordCharIsListed(c: char)
    ensures WordChar(c) <==> IsLetter(c)
  {
  }

  /** `text` ends in the whole word `word`. */
  predicate EndsInWord(text: string, word: string) {
    && word != "" && |word| <= |text| && text[|text| - |word|..] == word
    && (forall i | |text| - |word| <= i < |text| :: IsLetter(text[i]))
    && (|word| < |text| ==> !IsLetter(text[|text| - |word| - 1]))
  }

  predicate IsKeyword(word: string) {
    || word == "await" || word == "case" || word == "delete" || word == "do" || word == "else" || word == "in"
    || word == "instanceof" || word == "new" || word == "of" || word == "return" || word == "throw"
    || word == "typeof" || word == "void" || word == "yield"
  }

  predicate Opener(c: char) {
    || c == '(' || c == '[' || c == '{' || c == ',' || c == '=' || c == ';' || c == '!' || c == '&' || c == '|'
    || c == '?' || c == ':' || c == '~' || c == '^' || c == '%' || c == '<' || c == '>' || c == '*'
  }

  /** Code after which a slash opens a regex: nothing, an operator or an opening bracket, a single plus or
      minus, or one of the fourteen keywords as a whole word. */
  ghost predicate RegexMayFollow(text: string) {
    || text == ""
    || Opener(text[|text| - 1])
    || ((text[|text| - 1] == '+' || text[|text| - 1] == '-') && !(|text| >= 2 && text[|text| - 2] == text[|text| - 1]))
    || exists word :: EndsInWord(text, word) && IsKeyword(word)
  }

  /** `text` is what precedes `at`, white space before it left out. */
  predicate Precedes(s: string, at: nat, text: string) {
    && at <= |s| && |text| <= at && s[..|text|] == text
    && (forall i | |text| <= i < at :: IsBlank(s[i]))
    && (text != "" ==> !IsBlank(text[|text| - 1]))
  }

  lemma WhatPrecedes(s: string, at: nat, text: string)
    requires at < |s| && Precedes(s, at, text)
    ensures BackOverSpace(s, at) == |text|
  {
    var j := BackOverSpace(s, at);
    forall c ensures Space(c) <==> IsBlank(c) { SpaceIsListed(c); }
    hide Space, IsBlank, BackOverSpace;
    assert |text| > 0 ==> s[|text| - 1] == text[|text| - 1];
  }

  lemma {:induction false} WordInPrefix(s: string, text: string, n: nat)
    requires |text| <= |s| && s[..|text|] == text && n <= |text|
    ensures BackOverWord(s, n) == BackOverWord(text, n)
  {
    if n > 0 {
      assert s[n - 1] == text[n - 1];
      WordInPrefix(s, text, n - 1);
    }
  }

  /** The word a text ends in, if it ends in one. */
  lemma WordAtEnd(text: string)
    ensures var k := BackOverWord(text, |text|);
            && (k < |text| ==> EndsInWord(text, text[k..]))
            && forall word | EndsInWord(text, word) :: k < |text| && word == text[k..] && IsLetter(text[|text| - 1])
  {
    var k := BackOverWord(text, |text|);
    forall c ensures WordChar(c) <==> IsLetter(c) { WordCharIsListed(c); }
    hide WordChar, IsLetter, BackOverWord, EndsInWord;
    if k < |text| { WordThere(text, k); }
    forall word | EndsInWord(text, word) ensures k < |text| && word == text[k..] && IsLetter(text[|text| - 1]) {
      OneWord(text, word, k);
    }
  }

  predicate WordFrom(text: string, k: nat) {
    && k <= |text| && (k > 0 ==> !IsLetter(text[k - 1]))
    && forall i | k <= i < |text| :: IsLetter(text[i])
  }

  lemma WordThere(text: string, k: nat)
    requires k < |text| && WordFrom(text, k)
    ensures EndsInWord(text, text[k..])
  {
    hide IsLetter;
    assert |text| - |text[k..]| == k;
  }

  lemma OneWord(text: string, word: string, k: nat)
    requires EndsInWord(text, word) && WordFrom(text, k)
    ensures k == |text| - |word| && k < |text| && word == text[k..] && IsLetter(text[|text| - 1])
  {
    hide IsLetter;
    var at := |text| - |word|;
    assert WordFrom(text, at);
    OneWordStart(text, at, k);
  }

  lemma OneWordStart(text: string, j: nat, k: nat)
    requires WordFrom(text, j) && WordFrom(text, k)
    ensures j == k
  {
    hide IsLetter;
  }

  lemma KeywordsAre(word: string)
    ensures word in REGEX_KEYWORDS <==> IsKeyword(word)
  {
  }

  lemma OpenersAre(c: char)
    ensures c in "([{,=;!&|?:~^%<>*" <==> Opener(c)
    ensures Opener(c) || c == '+' || c == '-' ==> !IsLetter(c)
  {
  }

  /** The decision read forwards: a slash opens a regex body exactly when no equals sign follows it and the
      code before it ends in nothing, an operator, an opening bracket or a keyword. */
  lemma SlashIsClassified(s: string, at: nat, text: string)
    requires at < |s| && Precedes(s, at, text)
    ensures SlashStartsRegex(s, at) <==> !CharAt(s, at + 1, '=') && RegexMayFollow(text)
  {
    var n := |text|;
    WhatPrecedes(s, at, text);
    if n > 0 {
      assert s[n - 1] == text[n - 1];
      assert n >= 2 ==> s[n - 2] == text[n - 2];
      var k := BackOverWord(text, n);
      WordInPrefix(s, text, n);
      WordAtEnd(text);
      assert s[k..n] == text[k..];
      KeywordsAre(text[k..]);
      OpenersAre(text[n - 1]);
      hide BackOverSpace, BackOverWord, EndsInWord, IsLetter, Opener, IsKeyword, WordChar, Space, IsBlank, Precedes;
    }
  }

  /** A slash at `at` may open a regex. */
  ghost predicate RegexMayOpen(s: string, at: nat) {
    !CharAt(s, at + 1, '=') && exists text :: Precedes(s, at, text) && RegexMayFollow(text)
  }

  lemma SlashDecides(s: string, at: nat)
    requires at < |s|
    ensures SlashStartsRegex(s, at) <==> RegexMayOpen(s, at)
  {
    hide SlashStartsRegex, RegexMayFollow;
    var text := s[..BackOverSpace(s, at)];
    TextPrecedes(s, at, text);
    forall t | Precedes(s, at, t) ensures SlashStartsRegex(s, at) <==> !CharAt(s, at + 1, '=') && RegexMayFollow(t) {
      SlashIsClassified(s, at, t);
    }
  }

  lemma TextPrecedes(s: string, at: nat, text: string)
    requires at < |s| && text == s[..BackOverSpace(s, at)]
    ensures Precedes(s, at, text)
  {
    forall c ensures Space(c) <==> IsBlank(c) { SpaceIsListed(c); }
    hide Space, IsBlank, BackOverSpace;
  }

  /** The end of a regex body and its flags, scanning from `k`; `None` when it is not one. */
  function RegexBody(s: string, k: nat, inClass: bool): (end: Option<nat>)
    requires k <= |s| + 1
    ensures end.Some? ==> k < end.value <= |s|
    decreases |s| + 1 - k
  {
    if k >= |s| || s[k] == '\n' then None
    else if s[k] == '\\' then RegexBody(s, k + 2, inClass)
    else if inClass then RegexBody(s, k + 1, s[k] != ']')
    else if s[k] == '[' then RegexBody(s, k + 1, true)
    else if s[k] == '/' then Some(Flags(s, k + 1))
    else RegexBody(s, k + 1, false)
  }

  function Flags(s: string, k: nat): (e: nat)
    requires k <= |s|
    ensures k <= e <= |s| && (forall i | k <= i < e :: 'a' <= s[i] <= 'z') && (e < |s| ==> !('a' <= s[e] <= 'z'))
    decreases |s| - k
  {
    if k < |s| && 'a' <= s[k] <= 'z' then Flags(s, k + 1) else k
  }

  function RegexEnd(s: string, at: nat): (e: nat)
    requires at < |s|
    ensures at <= e <= |s| && e != at + 1
  {
    if !SlashStartsRegex(s, at) then at
    else
      var end := RegexBody(s, at + 1, false);
      if end.Some? then end.value else at
  }

  /** Whether `k` stands in a character class of the literal that opens at `at`: of the unescaped brackets
      before it, the last one opens. */
  predicate InClass(s: string, at: nat, k: nat)
    requires at < k <= |s|
    decreases k
  {
    k > at + 1
    && if !Escaped(s, at + 1, k - 1) && (s[k - 1] == '[' || s[k - 1] == ']') then s[k - 1] == '['
       else InClass(s, at, k - 1)
  }

  /** A slash that can close the literal: unescaped and in no class. */
  predicate FreeSlash(s: string, at: nat, k: nat) {
    at < k < |s| && s[k] == '/' && !Escaped(s, at + 1, k) && !InClass(s, at, k)
  }

  predicate FreeNewline(s: string, at: nat, k: nat) {
    at < k < |s| && s[k] == '\n' && !Escaped(s, at + 1, k)
  }

  predicate NothingFree(s: string, at: nat, k: nat) {
    forall j: nat | at < j < k :: !FreeSlash(s, at, j) && !FreeNewline(s, at, j)
  }

  /** The closing slash: the first free one, before any unescaped newline. */
  predicate ClosesAt(s: string, at: nat, k: nat) {
    FreeSlash(s, at, k) && NothingFree(s, at, k)
  }

  /** One step of the scan, as far as escapes and classes go. */
  lemma StepFacts(s: string, at: nat, k: nat)
    requires at < k < |s| && !Escaped(s, at + 1, k)
    ensures if s[k] == '\\' then
              && Escaped(s, at + 1, k + 1) && InClass(s, at, k + 1) == InClass(s, at, k)
              && (k + 2 <= |s| ==> !Escaped(s, at + 1, k + 2) && InClass(s, at, k + 2) == InClass(s, at, k))
            else
              && !Escaped(s, at + 1, k + 1)
              && InClass(s, at, k + 1) == (if s[k] == '[' then true else if s[k] == ']' then false else InClass(s, at, k))
  {
    assert Backslashes(s, at + 1, k + 1) == if s[k] == '\\' then Backslashes(s, at + 1, k) + 1 else 0;
    if s[k] == '\\' && k + 2 <= |s| {
      assert s[k + 1] == '\\' ==> Backslashes(s, at + 1, k + 2) == Backslashes(s, at + 1, k + 1) + 1;
    }
  }

  /** From a place the scan reaches with nothing free so far, the body closes where `ClosesAt` says. */
  lemma {:induction false} BodyCloses(s: string, at: nat, k: nat)
    requires at < k <= |s| && !Escaped(s, at + 1, k) && NothingFree(s, at, k)
    ensures var end := RegexBody(s, k, InClass(s, at, k));
            && (end.Some? <==> exists c: nat :: ClosesAt(s, at, c))
            && forall c: nat | ClosesAt(s, at, c) :: c >= k && end == Some(Flags(s, c + 1))
    decreases |s| - k
  {
    hide Flags;
    if k < |s| {
      StepFacts(s, at, k);
      hide InClass, Escaped;
      if s[k] == '\n' {
        assert FreeNewline(s, at, k);
      } else if s[k] == '\\' {
        if k + 2 <= |s| { BodyCloses(s, at, k + 2); }
      } else if FreeSlash(s, at, k) {
        assert ClosesAt(s, at, k);
      } else {
        BodyCloses(s, at, k + 1);
      }
    }
  }

  /** A slash opens a regex exactly when what precedes it allows one and its body closes; it then ends
      past its closing slash and the flags after it. */
  lemma RegexEndIsFirstFreeSlash(s: string, at: nat)
    requires at < |s|
    ensures RegexEnd(s, at) > at <==> RegexMayOpen(s, at) && exists c: nat :: ClosesAt(s, at, c)
    ensures RegexMayOpen(s, at) ==> forall c: nat | ClosesAt(s, at, c) :: RegexEnd(s, at) == Flags(s, c + 1)
  {
    hide SlashStartsRegex, RegexMayOpen, Flags;
    SlashDecides(s, at);
    BodyCloses(s, at, at + 1);
  }

  /** A slash taken for a regex blanks past the end of its line exactly when no free slash comes before the
      newline, a backslash escapes the newline, and the body closes further on. Every newline it blanks
      is escaped. */
  lemma RegexStaysOnItsLine(s: string, at: nat, n: nat)
    requires at < n < |s| && s[at] == '/' && s[n] == '\n' && '\n' !in s[at..n]
    ensures (exists j | at <= j < RegexEnd(s, at) :: s[j] == '\n')
            <==> && RegexMayOpen(s, at) && Escaped(s, at + 1, n)
                 && (forall j: nat | j < n :: !FreeSlash(s, at, j))
                 && exists c: nat :: ClosesAt(s, at, c)
    ensures forall j | at <= j < RegexEnd(s, at) && s[j] == '\n' :: j > at && Escaped(s, at + 1, j)
  {
    hide RegexMayOpen, RegexBody, RegexEnd, Escaped, InClass;
    RegexEndIsFirstFreeSlash(s, at);
    forall j | at <= j < n ensures s[j] != '\n' { assert s[at..n][j - at] == s[j]; }
    if RegexMayOpen(s, at) && exists c: nat :: ClosesAt(s, at, c) {
      var c: nat :| ClosesAt(s, at, c);
      assert RegexEnd(s, at) == Flags(s, c + 1);
      forall j | at <= j < RegexEnd(s, at) && s[j] == '\n' ensures j < c && Escaped(s, at + 1, j) {
        assert !FreeNewline(s, at, j);
      }
      if c > n { assert !FreeNewline(s, at, n); }
    }
  }

  /** Such a source: the literal runs on to the next line. */
  lemma EscapedNewlineIsCrossed()
    ensures RegexEnd("/\\\n/", 0) == 4
  {
    var s := "/\\\n/";
    assert Flags(s, 4) == 4;
    assert RegexBody(s, 3, false) == Some(4);
    assert RegexBody(s, 1, false) == Some(4);
  }

  /** A slash in a character class closes nothing, and the flags belong to the literal. */
  lemma ClassSlashIsBody()
    ensures RegexEnd("/[/]/g;", 0) == 6
  {
    var s := "/[/]/g;";
    assert Flags(s, 6) == 6 && Flags(s, 5) == 6;
    assert RegexBody(s, 4, false) == Some(6);
    assert RegexBody(s, 2, true) == Some(6);
    assert RegexBody(s, 1, false) == Some(6);
  }

  method DecideRegex(s: string, at: nat) returns (regex: bool)
    requires at < |s|
    ensures regex == SlashStartsRegex(s, at) && (regex <==> RegexMayOpen(s, at))
  {
    hide RegexMayOpen;
    SlashDecides(s, at);
    if CharAt(s, at + 1, '=') { return false; }
    var j := at;
    while j > 0 && Space(s[j - 1])
      invariant 0 <= j <= at && BackOverSpace(s, at) == BackOverSpace(s, j)
    {
      j := j - 1;
    }
    if j == 0 { return true; }
    var prev := s[j - 1];
    if prev == '+' || prev == '-' { return !CharAt(s, j - 2, prev); }
    if prev in "([{,=;!&|?:~^%<>*" { return true; }
    if !WordChar(prev) {
      assert s[j..j] == "";
      return false;
    }
    var k := j - 1;
    while k > 0 && WordChar(s[k - 1])
      invariant 0 <= k < j && BackOverWord(s, j) == BackOverWord(s, k)
    {
      k := k - 1;
    }
    return s[k..j] in REGEX_KEYWORDS;
  }

  method FindRegexEnd(s: string, at: nat) returns (e: nat)
    requires at < |s|
    ensures e == RegexEnd(s, at)
  {
    var regex := DecideRegex(s, at);
    if !regex { return at; }
    var k, inClass := at + 1, false;
    while k < |s|
      invariant at + 1 <= k <= |s| + 1 && RegexBody(s, at + 1, false) == RegexBody(s, k, inClass)
    {
      if s[k] == '\n' { return at; }
      if s[k] == '\\' {
        k := k + 2;
      } else if inClass {
        if s[k] == ']' { inClass := false; }
        k := k + 1;
      } else if s[k] == '[' {
        inClass := true;
        k := k + 1;
      } else if s[k] == '/' {
        k := k + 1;
        ghost var flags := k;
        while k < |s| && 'a' <= s[k] <= 'z'
          invariant flags <= k <= |s| && Flags(s, flags) == Flags(s, k)
        {
          k := k + 1;
        }
        return k;
      } else {
        k := k + 1;
      }
    }
    return at;
  }

  // ---- the lexer ----

  datatype Mode = Code | TemplateQuote
  datatype Frame = Brace | Tmpl

  /** What one turn of the loop at `i` does: blank up to `end`, or keep one character. */
  datatype Turn = Turn(end: nat, blank: bool, mode: Mode, stack: seq<Frame>)

  function TurnAt(s: string, i: nat, mode: Mode, stack: seq<Frame>): (turn: Turn)
    requires i < |s|
    ensures i < turn.end <= |s| + 1
    ensures turn.end == |s| + 1 ==> s[|s| - 1] == '\\'
    ensures !turn.blank ==> turn.end == i + 1
  {
    var c := s[i];
    if mode == TemplateQuote then
      var (end, kind) := TemplateChunk(s, i);
      Turn(end, true, Code, if kind == Expr then stack + [Tmpl] else stack)
    else if PairAt(s, i, '/', '/') then Turn(LineCommentEnd(s, i), true, Code, stack)
    else if PairAt(s, i, '/', '*') then Turn(TsBlockEnd(s, i), true, Code, stack)
    else if c == '/' then
      var end := RegexEnd(s, i);
      if end > i then Turn(end, true, Code, stack) else Turn(i + 1, false, Code, stack)
    else if c == '\'' || c == '"' then Turn(QuotedEnd(s, i), true, Code, stack)
    else if c == '`' then Turn(i + 1, true, TemplateQuote, stack)
    else if c == '{' then Turn(i + 1, false, Code, stack + [Brace])
    else if c == '}' then
      Turn(i + 1, false, if stack != [] && stack[|stack| - 1] == Tmpl then TemplateQuote else Code,
           if stack == [] then [] else stack[..|stack| - 1])
    else Turn(i + 1, false, Code, stack)
  }

  function Piece(s: string, i: nat, turn: Turn): string
    requires i < |s| && i < turn.end
  {
    if turn.blank then Blanked(s, i, turn.end) else [s[i]]
  }

  function StripFrom(s: string, i: nat, mode: Mode, stack: seq<Frame>): string
    requires i <= |s| + 1
    decreases |s| + 1 - i
  {
    if i >= |s| then ""
    else
      var turn := TurnAt(s, i, mode, stack);
      Piece(s, i, turn) + StripFrom(s, turn.end, turn.mode, turn.stack)
  }

  function StripTs(s: string): string {
    StripFrom(s, 0, Code, [])
  }

  method Strip(s: string) returns (parts: string)
    ensures parts == StripTs(s)
  {
    hide TurnAt, Piece;
    parts := "";
    var i, mode, stack := 0, Code, [];
    while i < |s|
      invariant 0 <= i <= |s| + 1 && parts + StripFrom(s, i, mode, stack) == StripTs(s)
      decreases |s| + 1 - i
    {
      ghost var before, piece := parts, Piece(s, i, TurnAt(s, i, mode, stack));
      parts, i, mode, stack := OneTurn(parts, s, i, mode, stack);
      assert before + (piece + StripFrom(s, i, mode, stack)) == parts + StripFrom(s, i, mode, stack);
    }
  }

  /** The body of the loop. */
  method OneTurn(parts: string, s: string, i: nat, mode: Mode, stack: seq<Frame>)
    returns (parts': string, i': nat, mode': Mode, stack': seq<Frame>)
    requires i < |s|
    ensures var turn := TurnAt(s, i, mode, stack);
            && i' == turn.end && mode' == turn.mode && stack' == turn.stack
            && parts' == parts + Piece(s, i, turn)
  {
    parts', i', mode', stack' := parts, i + 1, mode, stack;
    var c := s[i];
    if mode == TemplateQuote {
      var end, kind := FindTemplateChunk(s, i);
      parts' := AppendBlank(parts, s, i, end);
      if kind == Expr { stack' := stack + [Tmpl]; }
      i', mode' := end, Code;
    } else if PairAt(s, i, '/', '/') {
      i' := LineCommentEnd(s, i);
      parts' := AppendBlank(parts, s, i, i');
    } else if PairAt(s, i, '/', '*') {
      i' := TsBlockEnd(s, i);
      parts' := AppendBlank(parts, s, i, i');
    } else if c == '/' {
      var end := FindRegexEnd(s, i);
      if end > i {
        parts' := AppendBlank(parts, s, i, end);
        i' := end;
      } else {
        parts' := parts + [c];
      }
    } else if c == '\'' || c == '"' {
      i' := FindQuotedEnd(s, i);
      parts' := AppendBlank(parts, s, i, i');
    } else if c == '`' {
      assert Blanked(s, i, i + 1)[0] == ' ';
      parts', mode' := parts + " ", TemplateQuote;
    } else if c == '{' {
      stack', parts' := stack + [Brace], parts + [c];
    } else if c == '}' {
      if stack != [] {
        if stack[|stack| - 1] == Tmpl { mode' := TemplateQuote; }
        stack' := stack[..|stack| - 1];
      }
      parts' := parts + [c];
    } else {
      parts' := parts + [c];
    }
  }

  lemma {:induction false} StripAligns(s: string, i: nat, mode: Mode, stack: seq<Frame>)
    requires i <= |s|
    ensures Aligned(s, i, StripFrom(s, i, mode, stack))
    decreases |s| - i
  {
    hide Aligned, TurnAt;
    if i == |s| {
      EmptyAligns(s);
    } else {
      var turn := TurnAt(s, i, mode, stack);
      if turn.end <= |s| { StripAligns(s, turn.end, turn.mode, turn.stack); }
      var rest := StripFrom(s, turn.end, turn.mode, turn.stack);
      if turn.blank { BlankAligns(s, i, turn.end, rest); } else { KeepAligns(s, i, rest); }
    }
  }

  /** A literal that starts at `i`, or a template text that goes on there, is left open. */
  predicate OpenAt(s: string, i: nat, mode: Mode)
    requires i < |s|
  {
    if mode == TemplateQuote then LeftOpen(s, Template, i)
    else (s[i] == '\'' || s[i] == '"') && LeftOpen(s, Quote(s[i]), i + 1)
  }

  /** The turns of the loop come to a literal that is left open. */
  predicate ReachesOpen(s: string, i: nat, mode: Mode, stack: seq<Frame>)
    requires i <= |s| + 1
    decreases |s| + 1 - i
  {
    i < |s|
    && (OpenAt(s, i, mode)
        || var turn := TurnAt(s, i, mode, stack); ReachesOpen(s, turn.end, turn.mode, turn.stack))
  }

  lemma TurnOverrunsExactly(s: string, i: nat, mode: Mode, stack: seq<Frame>)
    requires i < |s|
    ensures TurnAt(s, i, mode, stack).end == |s| + 1 <==> OpenAt(s, i, mode)
  {
    OverrunsExactly(s, Template, i);
    if s[i] != '\\' { OverrunsExactly(s, Quote(s[i]), i + 1); }
    hide LeftOpen, Scan, RegexEnd, LineCommentEnd, TsBlockEnd;
  }

  lemma {:induction false} LengthFrom(s: string, i: nat, mode: Mode, stack: seq<Frame>)
    requires i <= |s|
    ensures |StripFrom(s, i, mode, stack)| == |s| - i + if ReachesOpen(s, i, mode, stack) then 1 else 0
    decreases |s| - i
  {
    hide TurnAt, OpenAt;
    if i < |s| {
      var turn := TurnAt(s, i, mode, stack);
      TurnOverrunsExactly(s, i, mode, stack);
      if turn.end <= |s| { LengthFrom(s, turn.end, turn.mode, turn.stack); }
    }
  }

  /** Positions survive: see `Aligned`; every index stays on its line; and the text grows, by one blank,
      exactly when its last literal never closes and ends in an unpaired backslash. */
  lemma PositionsSurvive(s: string, index: nat)
    ensures Aligned(s, 0, StripTs(s)) && LineOf(StripTs(s), index) == LineOf(s, index)
    ensures |StripTs(s)| == |s| + if ReachesOpen(s, 0, Code, []) then 1 else 0
  {
    StripAligns(s, 0, Code, []);
    LinesSurvive(s, StripTs(s), index);
    LengthFrom(s, 0, Code, []);
  }

  /** The extra blank does appear, a quote and a backslash make three; a last backslash alone adds none. */
  lemma LengthMayGrow()
    ensures |StripTs("\"\\")| == 3 && |StripTs("a\\")| == 2
  {
    var s := "\"\\";
    assert Scan(s, Quote('"'), 1) == 3;
    var t := "a\\";
    assert StripFrom(t, 2, Code, []) == "";
    assert StripFrom(t, 1, Code, []) == "\\";
  }
}
