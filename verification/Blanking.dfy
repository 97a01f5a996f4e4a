/** What both lexers of docker/check-tests.ts keep: the source's length, newlines and code. */
module Blanking {
  import opened BlankingEnds
  import opened Strings

  function BlankAt(s: string, k: nat): char {
    if CharAt(s, k, '\n') then '\n' else ' '
  }

  /** `source[from..to]` blanked; past the source counts as one more blank. */
  function Blanked(s: string, from: nat, to: nat): (out: string)
    requires from <= to
    ensures |out| == to - from && forall k | 0 <= k < to - from :: out[k] == BlankAt(s, from + k)
  {
    seq(to - from, k requires 0 <= k < to - from => BlankAt(s, from + k))
  }

  /** Each character but a newline gone blank. */
  function Blank(text: string): string {
    seq(|text|, k requires 0 <= k < |text| => if text[k] == '\n' then '\n' else ' ')
  }

  /** A part of the source goes blank as it would on its own. */
  lemma BlankedIn(s: string, i: nat, text: string)
    requires At(s, i, text)
    ensures i + |text| <= |s| && Blanked(s, i, i + |text|) == Blank(text)
  {
    forall k | 0 <= k < |text| ensures BlankAt(s, i + k) == Blank(text)[k] { AtChar(s, i, text, k); }
  }

  method AppendBlank(parts: string, s: string, from: nat, to: nat) returns (longer: string)
    requires from <= to
    ensures longer == parts + Blanked(s, from, to)
    ensures |longer| == |parts| + (to - from) && longer[..|parts|] == parts
    ensures forall k | from <= k < to ::
              longer[|parts| + (k - from)] == if k < |s| && s[k] == '\n' then '\n' else ' '
  {
    longer := parts;
    var k := from;
    while k < to
      invariant from <= k <= to && longer == parts + Blanked(s, from, k)
    {
      longer := longer + [if CharAt(s, k, '\n') then '\n' else ' '];
      assert Blanked(s, from, k + 1) == Blanked(s, from, k) + [BlankAt(s, k)];
      k := k + 1;
    }
  }

  /** `out` stands for `s[i..]`: each index holds the original character or a blank, newlines stay, and
      there is at most one more blank, only after a last backslash. */
  predicate Aligned(s: string, i: nat, out: string)
    requires i <= |s|
  {
    var n := |s| - i;
    && n <= |out| <= n + 1
    && (forall k | 0 <= k < n :: out[k] == s[i + k] || (out[k] == ' ' && s[i + k] != '\n'))
    && (|out| == n + 1 ==> out[n] == ' ' && n > 0 && s[|s| - 1] == '\\')
  }

  lemma EmptyAligns(s: string)
    ensures Aligned(s, |s|, "")
  {
  }

  lemma KeepAligns(s: string, i: nat, out: string)
    requires i < |s| && Aligned(s, i + 1, out)
    ensures Aligned(s, i, [s[i]] + out)
  {
    var all := [s[i]] + out;
    assert forall k | 0 < k < |all| :: all[k] == out[k - 1];
  }

  lemma BlankAligns(s: string, i: nat, e: nat, out: string)
    requires i < e <= |s| + 1 && i < |s|
    requires if e <= |s| then Aligned(s, e, out) else out == "" && s[|s| - 1] == '\\'
    ensures Aligned(s, i, Blanked(s, i, e) + out)
  {
    var blank, n := Blanked(s, i, e), |s| - i;
    var all := blank + out;
    assert forall k | e - i <= k < |all| :: all[k] == out[k - (e - i)];
    forall k | 0 <= k < n ensures all[k] == s[i + k] || (all[k] == ' ' && s[i + k] != '\n') {
      if k < e - i {
        assert all[k] == blank[k];
      } else {
        assert s[i + k] == s[e + (k - (e - i))];
      }
    }
    if |all| == n + 1 {
      if e <= |s| { assert all[n] == out[|s| - e]; } else { assert all[n] == BlankAt(s, i + n); }
    }
  }

  /** The number of the line `index` is on. */
  function LineOf(s: string, index: nat): nat {
    if index == 0 then 1
    else LineOf(s, index - 1) + if CharAt(s, index - 1, '\n') then 1 else 0
  }

  /** That number is one more than the newlines before the index. */
  lemma {:induction false} LineCountsNewlines(s: string, index: nat)
    requires index <= |s|
    ensures LineOf(s, index) == 1 + multiset(s[..index])['\n']
  {
    if index > 0 {
      LineCountsNewlines(s, index - 1);
      assert s[..index] == s[..index - 1] + [s[index - 1]];
    }
  }

  method CountLine(s: string, index: nat) returns (line: nat)
    ensures line == LineOf(s, index)
  {
    line := 1;
    var i := 0;
    while i < index
      invariant 0 <= i <= index && line == LineOf(s, i)
    {
      if CharAt(s, i, '\n') { line := line + 1; }
      i := i + 1;
    }
  }

  /** Every index is on the same line of the source and of the blanked text. */
  lemma {:induction false} LinesSurvive(s: string, out: string, index: nat)
    requires Aligned(s, 0, out)
    ensures LineOf(out, index) == LineOf(s, index)
  {
    if index > 0 {
      LinesSurvive(s, out, index - 1);
      assert CharAt(out, index - 1, '\n') <==> CharAt(s, index - 1, '\n');
    }
  }
}
