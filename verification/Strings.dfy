/** Parts of strings and where they stand, and the order of strings. */
module Strings {
  predicate At(s: string, i: nat, part: string) {
    i + |part| <= |s| && s[i..i + |part|] == part
  }

  lemma AtChar(s: string, i: nat, part: string, j: nat)
    requires j < |part|
    ensures At(s, i, part) ==> i + j < |s| && s[i + j] == part[j]
  {
    if At(s, i, part) { assert s[i..i + |part|][j] == s[i + j]; }
  }

  lemma AtSplit(s: string, i: nat, a: string, b: string)
    requires At(s, i, a + b)
    ensures At(s, i, a) && At(s, i + |a|, b)
  {
    assert s[i..i + |a|] == s[i..i + |a + b|][..|a|];
    assert s[i + |a|..i + |a| + |b|] == s[i..i + |a + b|][|a|..];
  }

  lemma AtSplit3(s: string, i: nat, a: string, b: string, c: string)
    requires At(s, i, a + (b + c))
    ensures At(s, i, a) && At(s, i + |a|, b) && At(s, i + |a| + |b|, c)
  {
    hide At;
    AtSplit(s, i, a, b + c);
    AtSplit(s, i + |a|, b, c);
  }

  lemma AtSplit4(s: string, i: nat, a: string, b: string, c: string, d: string)
    requires At(s, i, a + (b + (c + d)))
    ensures At(s, i, a) && At(s, i + |a|, b) && At(s, i + |a| + |b|, c) && At(s, i + |a| + |b| + |c|, d)
  {
    hide At;
    AtSplit3(s, i, a, b, c + d);
    AtSplit(s, i + |a| + |b|, c, d);
  }

  /** A part of a part stands in the whole. */
  lemma AtWithin(s: string, i: nat, part: string, j: nat, piece: string)
    requires At(s, i, part) && j + |piece| <= |part|
    ensures At(s, i + j, piece) <==> At(part, j, piece)
  {
    var here, there := part[j..j + |piece|], s[i + j..i + j + |piece|];
    assert s[i..i + |part|] == part;
    assert forall k | 0 <= k < |piece| :: here[k] == part[j + k] && there[k] == s[i + j + k];
    assert here == there;
  }

  /** The first place at or after `from` where `part` stands, or the end of the string. */
  function IndexOf(s: string, part: string, from: nat): (i: nat)
    ensures i <= |s| && (i < |s| ==> from <= i && At(s, i, part))
    ensures forall j: nat | from <= j < i && j < |s| :: !At(s, j, part)
    decreases |s| - from
  {
    if from >= |s| then |s| else if At(s, from, part) then from else IndexOf(s, part, from + 1)
  }

  lemma IndexIs(s: string, part: string, from: nat, i: nat)
    requires from <= i < |s| && At(s, i, part) && forall j: nat | from <= j < i :: !At(s, j, part)
    ensures IndexOf(s, part, from) == i
  {
  }

  // ---- the order by code unit ----

  predicate Before(a: string, b: string) {
    && b != []
    && (a == [] || a[0] < b[0] || (a[0] == b[0] && Before(a[1..], b[1..])))
  }

  lemma {:induction false} BeforeIsStrict(a: string, b: string)
    ensures Before(a, b) ==> !Before(b, a) && a != b
    ensures a == b || Before(a, b) || Before(b, a)
  {
    if a != [] && b != [] && a[0] == b[0] {
      BeforeIsStrict(a[1..], b[1..]);
      assert a == [a[0]] + a[1..] && b == [b[0]] + b[1..];
    }
  }

  lemma {:induction false} BeforeIsTransitive(a: string, b: string, c: string)
    ensures Before(a, b) && Before(b, c) ==> Before(a, c)
  {
    if a != [] && b != [] && c != [] {
      BeforeIsTransitive(a[1..], b[1..], c[1..]);
    }
  }

  /** Up to `i` the two agree, and there `a` ends or holds the lower code unit. */
  predicate LowerFrom(a: string, b: string, i: nat) {
    i <= |a| && i < |b| && a[..i] == b[..i] && (i == |a| || a[i] < b[i])
  }

  /** The order is the lexicographic one. */
  lemma {:induction false} BeforeIsLexicographic(a: string, b: string)
    ensures Before(a, b) <==> exists i: nat :: LowerFrom(a, b, i)
  {
    forall i: nat | LowerFrom(a, b, i) && i > 0 ensures a != [] && b != [] && a[0] == b[0] {
      assert a[..i][0] == b[..i][0];
    }
    if a == [] || b == [] || a[0] != b[0] {
      if Before(a, b) { assert LowerFrom(a, b, 0); }
    } else {
      BeforeIsLexicographic(a[1..], b[1..]);
      if Before(a, b) {
        var i: nat :| LowerFrom(a[1..], b[1..], i);
        assert a[..i + 1] == [a[0]] + a[1..][..i] && b[..i + 1] == [b[0]] + b[1..][..i];
        assert LowerFrom(a, b, i + 1);
      }
      forall i: nat | LowerFrom(a, b, i) ensures Before(a, b) {
        assert i > 0;
        assert a[1..][..i - 1] == a[..i][1..] && b[1..][..i - 1] == b[..i][1..];
        assert LowerFrom(a[1..], b[1..], i - 1);
      }
    }
  }
}
