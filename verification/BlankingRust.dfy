/** The Rust lexer of docker/check-tests.ts. */
module BlankingRust {
  import opened Options
  import opened Strings
  import opened BlankingEnds
  import opened Blanking

  /** Past the character a literal holds, escapes included; `None` when there is none. */
  function AfterChar(s: string, j: nat): (e: Option<nat>)
    requires j <= |s|
    ensures e.Some? ==> e.value > j
  {
    if CharAt(s, j, '\\') then
      if PairAt(s, j + 1, 'u', '{') then
        var close := IndexOf(s, "}", j + 1);
        if close == |s| then None else Some(close + 1)
      else if CharAt(s, j + 1, 'x') then Some(j + 4)
      else Some(j + 2)
    else if j == |s| || s[j] == '\n' then None
    else Some(j + 1)
  }

  function CharLiteralLength(s: string, at: nat): (n: nat)
    ensures n > 0 ==> n >= 3 && at + n <= |s| && CharAt(s, at, '\'') && CharAt(s, at + n - 1, '\'')
  {
    if !CharAt(s, at, '\'') then 0
    else
      var j := AfterChar(s, at + 1);
      if j.Some? && CharAt(s, j.value, '\'') then j.value + 1 - at else 0
  }

  method FindCharLiteralLength(s: string, at: nat) returns (n: nat)
    ensures n == CharLiteralLength(s, at)
  {
    if !CharAt(s, at, '\'') { return 0; }
    var j := at + 1;
    if CharAt(s, j, '\\') {
      j := j + 1;
      if PairAt(s, j, 'u', '{') {
        var end := IndexOf(s, "}", j);
        if end == |s| { return 0; }
        j := end + 1;
      } else if CharAt(s, j, 'x') {
        j := j + 3;
      } else {
        j := j + 1;
      }
    } else if j >= |s| || s[j] == '\n' {
      return 0;
    } else {
      j := j + 1;
    }
    if !CharAt(s, j, '\'') { return 0; }
    return j + 1 - at;
  }

  // ---- raw strings ----

  function Hashes(s: string, k: nat): (n: nat)
    requires k <= |s|
    ensures k + n <= |s| && (forall i | k <= i < k + n :: s[i] == '#') && !CharAt(s, k + n, '#')
    decreases |s| - k
  {
    if CharAt(s, k, '#') then Hashes(s, k + 1) + 1 else 0
  }

  function HashString(n: nat): (r: string)
    ensures |r| == n && forall i | 0 <= i < n :: r[i] == '#'
  {
    seq(n, _ => '#')
  }

  /** Past the first quote followed by as many hashes as opened the literal. */
  function RustRawEnd(s: string, at: nat): (end: Option<nat>)
    requires at < |s|
    ensures end.Some? ==> at + 1 < end.value <= |s|
  {
    var hashes := Hashes(s, at + 1);
    if !CharAt(s, at + 1 + hashes, '"') then None
    else
      var close := IndexOf(s, "\"" + HashString(hashes), at + 2 + hashes);
      Some(if close == |s| then |s| else close + 1 + hashes)
  }

  method FindRustRawEnd(s: string, at: nat) returns (end: Option<nat>)
    requires at < |s|
    ensures end == RustRawEnd(s, at)
  {
    hide IndexOf, At, HashString;
    var hashes := 0;
    while CharAt(s, at + 1 + hashes, '#')
      invariant at + 1 + hashes <= |s| && Hashes(s, at + 1) == hashes + Hashes(s, at + 1 + hashes)
      decreases |s| - hashes
    {
      hashes := hashes + 1;
    }
    if !CharAt(s, at + 1 + hashes, '"') { return None; }
    var close := IndexOf(s, "\"" + HashString(hashes), at + 1 + hashes + 1);
    if close == |s| { return Some(|s|); }
    return Some(close + 1 + hashes);
  }

  /** A raw string with `n` hashes ends right after its closer, whatever its body holds short of the
      closer: quotes, backslashes and fewer hashes included. */
  lemma RawStringsEndAtTheirCloser(s: string, at: nat, n: nat, body: string)
    requires At(s, at, "r" + HashString(n) + "\"" + body + "\"" + HashString(n))
    requires var closer := "\"" + HashString(n); forall j: nat | j < |body| :: !At(body + closer, j, closer)
    ensures RustRawEnd(s, at) == Some(at + 3 + n + |body| + n)
  {
    hide At, Hashes, HashString, IndexOf;
    var closer := "\"" + HashString(n);
    RawParts(s, at, n, body, closer);
    HashesAre(s, at + 1, n);
    CloserIsFirst(s, at + 2 + n, body, closer);
  }

  lemma RawParts(s: string, at: nat, n: nat, body: string, closer: string)
    requires closer == "\"" + HashString(n) && At(s, at, "r" + HashString(n) + "\"" + body + "\"" + HashString(n))
    ensures At(s, at + 1, HashString(n)) && CharAt(s, at + 1 + n, '"') && At(s, at + 2 + n, body + closer)
    ensures at + 2 + n + |body| < |s|
  {
    hide At, Hashes, HashString, IndexOf;
    var tail := body + closer;
    Unfold(n, body);
    AtSplit(s, at, "r", HashString(n) + ("\"" + tail));
    AtSplit(s, at + 1, HashString(n), "\"" + tail);
    AtSplit(s, at + 1 + n, "\"", tail);
    AtSplit(s, at + 2 + n, body, closer);
    AtChar(s, at + 1 + n, "\"", 0);
    AtChar(s, at + 2 + n + |body|, closer, 0);
  }

  lemma Unfold(n: nat, body: string)
    ensures "r" + HashString(n) + "\"" + body + "\"" + HashString(n)
         == "r" + (HashString(n) + ("\"" + (body + ("\"" + HashString(n)))))
  {
    hide HashString;
  }

  lemma {:induction false} HashesAre(s: string, k: nat, n: nat)
    requires At(s, k, HashString(n)) && CharAt(s, k + n, '"')
    ensures Hashes(s, k) == n
    decreases n
  {
    if n > 0 {
      assert HashString(n) == "#" + HashString(n - 1);
      AtSplit(s, k, "#", HashString(n - 1));
      AtChar(s, k, "#", 0);
      HashesAre(s, k + 1, n - 1);
    }
  }

  lemma CloserIsFirst(s: string, from: nat, body: string, closer: string)
    requires |closer| > 0 && At(s, from, body + closer)
    requires forall j: nat | j < |body| :: !At(body + closer, j, closer)
    ensures IndexOf(s, closer, from) == from + |body|
  {
    AtSplit(s, from, body, closer);
    var all := body + closer;
    forall j: nat | from <= j < from + |body| ensures !At(s, j, closer) {
      assert !At(all, j - from, closer);
      AtWithin(s, from, all, j - from, closer);
    }
  }

  // ---- the lexer ----

  function RustByteEnd(s: string, at: nat): (e: nat)
    requires PairAt(s, at, 'b', '"') || PairAt(s, at, 'b', '\'')
    ensures at < e <= |s| + 1
    ensures e == |s| + 1 ==> s[|s| - 1] == '\\'
  {
    if CharAt(s, at + 1, '\'') then at + 1 + CharLiteralLength(s, at + 1) else QuotedEnd(s, at + 1)
  }

  function TurnEnd(s: string, i: nat): (end: Option<nat>)
    requires i < |s|
    ensures end.Some? ==> i < end.value <= |s| + 1
    ensures end == Some(|s| + 1) ==> s[|s| - 1] == '\\'
  {
    if PairAt(s, i, '/', '/') then Some(LineCommentEnd(s, i))
    else if PairAt(s, i, '/', '*') then Some(RustBlockEnd(s, i, 0))
    else if PairAt(s, i, 'r', '"') || PairAt(s, i, 'r', '#') then RustRawEnd(s, i)
    else if PairAt(s, i, 'b', '"') || PairAt(s, i, 'b', '\'') then Some(RustByteEnd(s, i))
    else if s[i] == '"' then Some(QuotedEnd(s, i))
    else if s[i] == '\'' && CharLiteralLength(s, i) > 0 then Some(i + CharLiteralLength(s, i))
    else None
  }

  /** One turn of the loop: what it appends, and where it goes on. */
  function Piece(s: string, i: nat): (piece: (string, nat))
    requires i < |s|
    ensures i < piece.1 <= |s| + 1
  {
    var end := TurnEnd(s, i);
    if end.Some? then (Blanked(s, i, end.value), end.value) else ([s[i]], i + 1)
  }

  function StripFrom(s: string, i: nat): string
    requires i <= |s| + 1
    decreases |s| + 1 - i
  {
    if i >= |s| then "" else Piece(s, i).0 + StripFrom(s, Piece(s, i).1)
  }

  function StripRust(s: string): string {
    StripFrom(s, 0)
  }

  method Strip(s: string) returns (parts: string)
    ensures parts == StripRust(s)
  {
    hide Piece;
    parts := "";
    var i := 0;
    while i < |s|
      invariant 0 <= i <= |s| + 1 && parts + StripFrom(s, i) == StripRust(s)
      decreases |s| + 1 - i
    {
      ghost var before, piece := parts, Piece(s, i);
      parts, i := OneTurn(parts, s, i);
      assert before + (piece.0 + StripFrom(s, i)) == parts + StripFrom(s, i);
    }
  }

  /** The body of the loop. */
  method OneTurn(parts: string, s: string, i: nat) returns (parts': string, i': nat)
    requires i < |s|
    ensures parts' == parts + Piece(s, i).0 && i' == Piece(s, i).1
  {
    parts', i' := parts + [s[i]], i + 1;
    if PairAt(s, i, '/', '/') {
      i' := LineCommentEnd(s, i);
      parts' := AppendBlank(parts, s, i, i');
    } else if PairAt(s, i, '/', '*') {
      i' := FindRustBlockEnd(s, i);
      parts' := AppendBlank(parts, s, i, i');
    } else if PairAt(s, i, 'r', '"') || PairAt(s, i, 'r', '#') {
      var end := FindRustRawEnd(s, i);
      if end.Some? {
        i' := end.value;
        parts' := AppendBlank(parts, s, i, i');
      }
    } else if PairAt(s, i, 'b', '"') || PairAt(s, i, 'b', '\'') {
      i' := FindRustByteEnd(s, i);
      parts' := AppendBlank(parts, s, i, i');
    } else if s[i] == '"' {
      i' := FindQuotedEnd(s, i);
      parts' := AppendBlank(parts, s, i, i');
    } else if s[i] == '\'' {
      var literal := FindCharLiteralLength(s, i);
      if literal > 0 {
        i' := i + literal;
        parts' := AppendBlank(parts, s, i, i');
      }
    }
  }

  method FindRustByteEnd(s: string, at: nat) returns (e: nat)
    requires PairAt(s, at, 'b', '"') || PairAt(s, at, 'b', '\'')
    ensures e == RustByteEnd(s, at)
  {
    if CharAt(s, at + 1, '\'') {
      var literal := FindCharLiteralLength(s, at + 1);
      if literal > 0 { return at + 1 + literal; }
      return at + 1;
    }
    e := FindQuotedEnd(s, at + 1);
  }

  lemma {:induction false} StripAligns(s: string, i: nat)
    requires i <= |s|
    ensures Aligned(s, i, StripFrom(s, i))
    decreases |s| - i
  {
    hide Aligned, TurnEnd;
    if i == |s| {
      assert Aligned(s, |s|, "") by { EmptyAligns(s); }
    } else {
      var end, next := TurnEnd(s, i), Piece(s, i).1;
      if next <= |s| { StripAligns(s, next); }
      if end.Some? { BlankAligns(s, i, next, StripFrom(s, next)); } else { KeepAligns(s, i, StripFrom(s, next)); }
    }
  }

  /** A string or byte string that starts at `i` is left open. */
  predicate OpenAt(s: string, i: nat)
    requires i < |s|
  {
    || (s[i] == '"' && LeftOpen(s, Quote('"'), i + 1))
    || (PairAt(s, i, 'b', '"') && LeftOpen(s, Quote('"'), i + 2))
  }

  /** The turns of the loop come to a literal that is left open. */
  predicate ReachesOpen(s: string, i: nat)
    requires i <= |s| + 1
    decreases |s| + 1 - i
  {
    i < |s| && (OpenAt(s, i) || ReachesOpen(s, Piece(s, i).1))
  }

  lemma TurnOverrunsExactly(s: string, i: nat)
    requires i < |s|
    ensures Piece(s, i).1 == |s| + 1 <==> OpenAt(s, i)
  {
    OverrunsExactly(s, Quote('"'), i + 1);
    if i + 2 <= |s| { OverrunsExactly(s, Quote('"'), i + 2); }
    hide LeftOpen, Scan, RustRawEnd, LineCommentEnd, RustBlockEnd, CharLiteralLength, Blanked;
  }

  lemma {:induction false} LengthFrom(s: string, i: nat)
    requires i <= |s|
    ensures |StripFrom(s, i)| == |s| - i + if ReachesOpen(s, i) then 1 else 0
    decreases |s| - i
  {
    hide TurnEnd, OpenAt;
    if i < |s| {
      var next := Piece(s, i).1;
      TurnOverrunsExactly(s, i);
      if next <= |s| { LengthFrom(s, next); }
    }
  }

  /** Positions survive: see `Aligned`; every index stays on its line; and the text grows, by one blank,
      exactly when its last string never closes and ends in an unpaired backslash. */
  lemma PositionsSurvive(s: string, index: nat)
    ensures Aligned(s, 0, StripRust(s)) && LineOf(StripRust(s), index) == LineOf(s, index)
    ensures |StripRust(s)| == |s| + if ReachesOpen(s, 0) then 1 else 0
  {
    StripAligns(s, 0);
    LinesSurvive(s, StripRust(s), index);
    LengthFrom(s, 0);
  }

  /** A byte-literal prefix before a quote that opens no literal goes blank: code is lost there. */
  lemma LoneBytePrefixGoesBlank()
    ensures StripRust("b'a") == " 'a"
  {
    var s := "b'a";
    assert StripFrom(s, 3) == "";
    assert StripFrom(s, 2) == "a";
    assert CharLiteralLength(s, 1) == 0;
    assert StripFrom(s, 1) == "'a";
    assert Blanked(s, 0, 1) == [BlankAt(s, 0)];
    assert TurnEnd(s, 0) == Some(1);
  }
}
