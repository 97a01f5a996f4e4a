/** The scan of a Sentry envelope (`parseSentryEnvelope` in apps/noite/src/lib/sentry-envelope.ts). A
    `char` is one Unicode scalar value. `decode` stands for the parse of one line as a JSON object. */
module Envelope {
  import opened Options

  /** What the scan reads of an item header; `itemType` is "" when it names none. */
  datatype Wire = Wire(itemType: string, length: Option<int>)

  /** Events are the payload lines in order; how one is mapped to a stored event is left out. */
  datatype Parsed = Parsed(events: seq<string>, dropped: seq<string>)

  function Width(c: char): nat {
    var n := c as int;
    if n < 0x80 then 1 else if n < 0x800 then 2 else if n < 0x10000 then 3 else 4
  }

  /** The length of `s` in UTF-8. */
  function Bytes(s: string): nat {
    if s == "" then 0 else Width(s[0]) + Bytes(s[1..])
  }

  /** The UTF-8 encoding of one scalar value (section 3 of RFC 3629). */
  function Encode(c: char): seq<int> {
    var n := c as int;
    if n <= 0x7F then [n]
    else if n <= 0x7FF then [0xC0 + n / 64, 0x80 + n % 64]
    else if n <= 0xFFFF then [0xE0 + n / 64 / 64, 0x80 + n / 64 % 64, 0x80 + n % 64]
    else [0xF0 + n / 64 / 64 / 64, 0x80 + n / 64 / 64 % 64, 0x80 + n / 64 % 64, 0x80 + n % 64]
  }

  function Utf8(s: string): seq<int> {
    if s == "" then [] else Encode(s[0]) + Utf8(s[1..])
  }

  /** The scalar value encoded at the head of `octets`. */
  function DecodeFirst(octets: seq<int>): int
    requires octets != []
  {
    var a := octets[0];
    if a < 0x80 then a
    else if a < 0xE0 && |octets| >= 2 then (a - 0xC0) * 64 + (octets[1] - 0x80)
    else if a < 0xF0 && |octets| >= 3 then ((a - 0xE0) * 64 + (octets[1] - 0x80)) * 64 + (octets[2] - 0x80)
    else if |octets| >= 4 then
      (((a - 0xF0) * 64 + (octets[1] - 0x80)) * 64 + (octets[2] - 0x80)) * 64 + (octets[3] - 0x80)
    else -1
  }

  /** The width counted is that of the encoding, and the encoding is one. */
  lemma WidthIsEncoded(c: char, rest: seq<int>)
    ensures |Encode(c)| == Width(c) && DecodeFirst(Encode(c) + rest) == c as int
    ensures forall i | 0 <= i < |Encode(c)| :: 0 <= Encode(c)[i] < 256
  {
    var n := c as int;
    var a := n / 64;
    var b := a / 64;
    assert n == a * 64 + n % 64 && a == b * 64 + a % 64 && b == b / 64 * 64 + b % 64;
    var octets := Encode(c) + rest;
    assert forall i | 0 <= i < |Encode(c)| :: octets[i] == Encode(c)[i];
  }

  lemma {:induction false} BytesAreUtf8(s: string)
    ensures Bytes(s) == |Utf8(s)|
  {
    if s != "" {
      WidthIsEncoded(s[0], []);
      BytesAreUtf8(s[1..]);
    }
  }

  /** Different texts are different octets. */
  lemma {:induction false} Utf8IsInjective(a: string, b: string)
    requires Utf8(a) == Utf8(b)
    ensures a == b
  {
    hide Encode, DecodeFirst;
    if a != "" && b != "" {
      WidthIsEncoded(a[0], Utf8(a[1..]));
      WidthIsEncoded(b[0], Utf8(b[1..]));
      assert a[0] == b[0];
      assert Utf8(a[1..]) == Utf8(a)[|Encode(a[0])|..] == Utf8(b)[|Encode(b[0])|..] == Utf8(b[1..]);
      Utf8IsInjective(a[1..], b[1..]);
      assert a == [a[0]] + a[1..] && b == [b[0]] + b[1..];
    } else {
      if a != "" { WidthIsEncoded(a[0], Utf8(a[1..])); }
      if b != "" { WidthIsEncoded(b[0], Utf8(b[1..])); }
    }
  }

  function Lines(text: string): (lines: seq<string>)
    ensures lines != []
  {
    if text == "" then [""]
    else
      var rest := Lines(text[1..]);
      if text[0] == '\n' then [""] + rest else [[text[0]] + rest[0]] + rest[1..]
  }

  function Label(itemType: string): string {
    if itemType == "" then "unknown" else itemType
  }

  /** Where the scan goes on after a sized item: past the first lines that cover `length` bytes. */
  function Skip(lines: seq<string>, i: nat, skipped: nat, length: int): (j: nat)
    requires i <= |lines|
    ensures i <= j <= |lines|
    decreases |lines| - i
  {
    if i < |lines| && skipped < length then Skip(lines, i + 1, skipped + Bytes(lines[i]) + 1, length) else i
  }

  function Add(events: seq<string>, dropped: seq<string>, rest: Parsed): Parsed {
    Parsed(events + rest.events, dropped + rest.dropped)
  }

  function Scan(lines: seq<string>, i: nat, decode: string -> Option<Wire>): Parsed
    requires i <= |lines|
    decreases |lines| - i
  {
    if i == |lines| then Parsed([], [])
    else
      var header := decode(lines[i]);
      if header.None? then Scan(lines, i + 1, decode)
      else if header.value.length.Some? then
        Add([], [Label(header.value.itemType)],
            Scan(lines, Skip(lines, i + 1, 0, header.value.length.value), decode))
      else if i + 1 == |lines| then Parsed([], [])
      else if decode(lines[i + 1]).None? then Scan(lines, i + 2, decode)
      else if header.value.itemType == "event" then Add([lines[i + 1]], [], Scan(lines, i + 2, decode))
      else Add([], [Label(header.value.itemType)], Scan(lines, i + 2, decode))
  }

  /** `None` is the error for an envelope whose first line is not an object. */
  function Parse(text: string, decode: string -> Option<Wire>): Option<Parsed> {
    var lines := Lines(text);
    if decode(lines[0]).None? then None else Some(Scan(lines, 1, decode))
  }

  method ParseEnvelope(text: string, decode: string -> Option<Wire>) returns (parsed: Option<Parsed>)
    ensures parsed == Parse(text, decode)
  {
    var lines := Lines(text);
    if decode(lines[0]).None? { return None; }
    var dropped: seq<string>, events: seq<string> := [], [];
    var i := 1;
    while i < |lines|
      invariant 1 <= i <= |lines| && Add(events, dropped, Scan(lines, i, decode)) == Scan(lines, 1, decode)
      decreases |lines| - i
    {
      ghost var from := i;
      var header := decode(lines[i]);
      i := i + 1;
      if header.None? { continue; }
      if header.value.length.Some? {
        i := SkipSized(lines, i, header.value.length.value);
        AddTwice(events, dropped, [], [Label(header.value.itemType)], Scan(lines, i, decode));
        events, dropped := events + [], dropped + [Label(header.value.itemType)];
        continue;
      }
      if i >= |lines| { break; }
      var payload := lines[i];
      i := i + 1;
      if decode(payload).None? { continue; }
      if header.value.itemType == "event" {
        AddTwice(events, dropped, [payload], [], Scan(lines, i, decode));
        events, dropped := events + [payload], dropped + [];
      } else {
        AddTwice(events, dropped, [], [Label(header.value.itemType)], Scan(lines, i, decode));
        events, dropped := events + [], dropped + [Label(header.value.itemType)];
      }
    }
    AddTwice(events, dropped, [], [], Parsed([], []));
    return Some(Parsed(events, dropped));
  }

  method SkipSized(lines: seq<string>, from: nat, length: int) returns (i: nat)
    requires from <= |lines|
    ensures i == Skip(lines, from, 0, length)
  {
    i := from;
    var skipped: nat := 0;
    while i < |lines| && skipped < length
      invariant from <= i <= |lines| && Skip(lines, from, 0, length) == Skip(lines, i, skipped, length)
    {
      skipped := skipped + Bytes(lines[i]) + 1;
      i := i + 1;
    }
  }

  lemma AddTwice(events: seq<string>, dropped: seq<string>, e: seq<string>, d: seq<string>, rest: Parsed)
    ensures Add(events, dropped, Add(e, d, rest)) == Add(events + e, dropped + d, rest)
    ensures Add(events, dropped, Parsed([], [])) == Parsed(events, dropped)
  {
    assert events + (e + rest.events) == (events + e) + rest.events;
    assert dropped + (d + rest.dropped) == (dropped + d) + rest.dropped;
  }

  // ---- lines and bytes ----

  lemma {:induction false} LinesJoin(a: string, b: string)
    ensures Lines(a + ("\n" + b)) == Lines(a) + Lines(b)
  {
    var text := a + ("\n" + b);
    if a == "" {
      assert text[1..] == b;
    } else {
      assert text[1..] == a[1..] + ("\n" + b);
      LinesJoin(a[1..], b);
    }
  }

  lemma {:induction false} OneLine(s: string)
    requires '\n' !in s
    ensures Lines(s) == [s]
  {
    if s != "" {
      OneLine(s[1..]);
      assert s == [s[0]] + s[1..];
    }
  }

  /** What skipping `lines[i..j]` counts. */
  function Cost(lines: seq<string>, i: nat, j: nat): nat
    requires i <= j <= |lines|
    decreases j - i
  {
    if i == j then 0 else Bytes(lines[i]) + 1 + Cost(lines, i + 1, j)
  }

  lemma {:induction false} LinesCost(p: string)
    ensures Cost(Lines(p), 0, |Lines(p)|) == Bytes(p) + 1
  {
    if p != "" {
      var rest, all := Lines(p[1..]), Lines(p);
      LinesCost(p[1..]);
      if p[0] == '\n' {
        CostShift(all, 1, |all|, rest, 0);
      } else {
        CostShift(all, 1, |all|, rest, 1);
        assert all[0][0] == p[0] && all[0][1..] == rest[0];
      }
    }
  }

  /** Equal stretches cost the same. */
  lemma {:induction false} CostShift(a: seq<string>, i: nat, j: nat, b: seq<string>, k: nat)
    requires i <= j <= |a| && k + (j - i) <= |b| && a[i..j] == b[k..k + (j - i)]
    ensures Cost(a, i, j) == Cost(b, k, k + (j - i))
    decreases j - i
  {
    if i < j {
      assert a[i] == a[i..j][0] == b[k..k + (j - i)][0] == b[k];
      assert a[i + 1..j] == a[i..j][1..] == b[k + 1..k + (j - i)];
      CostShift(a, i + 1, j, b, k + 1);
    }
  }

  lemma {:induction false} CostSnoc(lines: seq<string>, i: nat, j: nat)
    requires i < j <= |lines|
    ensures Cost(lines, i, j) == Cost(lines, i, j - 1) + Bytes(lines[j - 1]) + 1
    decreases j - i
  {
    if i + 1 < j { CostSnoc(lines, i + 1, j); }
  }

  /** The skip ends at `j` exactly when the lines up to `j` cover the length and one line fewer does not. */
  lemma {:induction false} SkipEnds(lines: seq<string>, i: nat, skipped: nat, length: int, j: nat)
    requires i <= j <= |lines|
    requires skipped + Cost(lines, i, j) >= length && (j > i ==> skipped + Cost(lines, i, j - 1) < length)
    ensures Skip(lines, i, skipped, length) == j
    decreases j - i
  {
    if i < j {
      if i + 1 < j {
        CostGrows(lines, i, j - 1);
        SkipEnds(lines, i + 1, skipped + Bytes(lines[i]) + 1, length, j);
      } else {
        assert Cost(lines, i, i) == 0 && Cost(lines, j, j) == 0;
        SkipEnds(lines, j, skipped + Bytes(lines[i]) + 1, length, j);
      }
    }
  }

  lemma CostGrows(lines: seq<string>, i: nat, j: nat)
    requires i < j <= |lines|
    ensures Cost(lines, i, j) == Bytes(lines[i]) + 1 + Cost(lines, i + 1, j)
  {
  }

  // ---- envelopes as written ----

  /** A sized item, an item whose payload is the next line, or a line that is no object. */
  datatype Item =
    | Sized(header: string, payload: string)
    | Unsized(header: string, payload: string)
    | Noise(line: string)

  /** A sized item declares its payload's length in bytes; nothing is asked of the payload. */
  predicate Fits(item: Item, decode: string -> Option<Wire>) {
    match item
    case Sized(h, p) => '\n' !in h && decode(h).Some? && decode(h).value.length == Some(|Utf8(p)|)
    case Unsized(h, p) => '\n' !in h && '\n' !in p && decode(h).Some? && decode(h).value.length.None?
    case Noise(line) => '\n' !in line && decode(line).None?
  }

  predicate AllFit(items: seq<Item>, decode: string -> Option<Wire>) {
    forall i | 0 <= i < |items| :: Fits(items[i], decode)
  }

  function ItemText(item: Item): string {
    if item.Noise? then item.line else item.header + ("\n" + item.payload)
  }

  function Written(header: string, items: seq<Item>): string
    decreases |items|
  {
    if items == [] then header else header + ("\n" + Written(ItemText(items[0]), items[1..]))
  }

  /** What one item adds: an event, a dropped entry or nothing. */
  function ItemWorth(item: Item, decode: string -> Option<Wire>): Parsed
    requires Fits(item, decode)
  {
    if item.Noise? || (item.Unsized? && decode(item.payload).None?) then Parsed([], [])
    else if item.Unsized? && decode(item.header).value.itemType == "event" then Parsed([item.payload], [])
    else
      var itemType := decode(item.header).value.itemType;
      Parsed([], [if itemType == "" then "unknown" else itemType])
  }

  function Worth(items: seq<Item>, decode: string -> Option<Wire>): Parsed
    requires AllFit(items, decode)
  {
    if items == [] then Parsed([], [])
    else
      var own := ItemWorth(items[0], decode);
      Add(own.events, own.dropped, Worth(items[1..], decode))
  }

  function LinesOf(items: seq<Item>): seq<string> {
    if items == [] then [] else Lines(ItemText(items[0])) + LinesOf(items[1..])
  }

  lemma {:induction false} WrittenLines(header: string, items: seq<Item>)
    ensures Lines(Written(header, items)) == Lines(header) + LinesOf(items)
    decreases |items|
  {
    if items != [] {
      LinesJoin(header, Written(ItemText(items[0]), items[1..]));
      WrittenLines(ItemText(items[0]), items[1..]);
    }
  }

  /** One sized item: the scan ends up right past its payload, at most over one blank line. */
  lemma SizedIsSkipped(lines: seq<string>, i: nat, h: string, p: string, decode: string -> Option<Wire>)
    requires Fits(Sized(h, p), decode) && decode("").None?
    requires i + 1 + |Lines(p)| <= |lines| && lines[i] == h && lines[i + 1..i + 1 + |Lines(p)|] == Lines(p)
    ensures Scan(lines, i, decode)
         == Add([], [Label(decode(h).value.itemType)], Scan(lines, i + 1 + |Lines(p)|, decode))
  {
    hide Bytes, Lines, Utf8;
    var n := |Lines(p)|;
    var from, end, length := i + 1, i + 1 + n, Bytes(p);
    BytesAreUtf8(p);
    LinesCost(p);
    assert Lines(p)[0..n] == Lines(p);
    CostShift(lines, from, end, Lines(p), 0);
    CostSnoc(lines, from, end);
    if Bytes(lines[end - 1]) > 0 {
      SkipEnds(lines, from, 0, length, end);
    } else {
      NoBytes(lines[end - 1]);
      if from < end - 1 { CostSnoc(lines, from, end - 1); }
      SkipEnds(lines, from, 0, length, end - 1);
    }
  }

  lemma NoBytes(s: string)
    requires Bytes(s) == 0
    ensures s == ""
  {
  }

  /** One item, wherever it stands. */
  lemma ItemIsScanned(lines: seq<string>, i: nat, item: Item, decode: string -> Option<Wire>)
    requires Fits(item, decode) && decode("").None?
    requires var own := Lines(ItemText(item)); i + |own| <= |lines| && lines[i..i + |own|] == own
    ensures var own := ItemWorth(item, decode);
            Scan(lines, i, decode) == Add(own.events, own.dropped, Scan(lines, i + |Lines(ItemText(item))|, decode))
  {
    hide Lines, Bytes, Skip;
    var own := Lines(ItemText(item));
    assert lines[i] == lines[i..i + |own|][0];
    match item
    case Noise(line) => OneLine(line);
    case Unsized(h, p) =>
      LinesJoin(h, p);
      OneLine(h);
      OneLine(p);
      assert lines[i + 1] == lines[i..i + |own|][1];
    case Sized(h, p) =>
      LinesJoin(h, p);
      OneLine(h);
      assert lines[i + 1..i + |own|] == lines[i..i + |own|][1..] == Lines(p);
      SizedIsSkipped(lines, i, h, p, decode);
  }

  lemma {:induction false} ScanIsWorth(lines: seq<string>, i: nat, items: seq<Item>, decode: string -> Option<Wire>)
    requires i <= |lines| && lines[i..] == LinesOf(items) && AllFit(items, decode) && decode("").None?
    ensures Scan(lines, i, decode) == Worth(items, decode)
    decreases |items|
  {
    hide Lines, Fits, ItemText, ItemWorth, Add;
    if items != [] {
      var own := Lines(ItemText(items[0]));
      var next := i + |own|;
      assert lines[i..] == own + LinesOf(items[1..]);
      assert lines[i..next] == lines[i..][..|own|] == own;
      assert lines[next..] == lines[i..][|own|..] == LinesOf(items[1..]);
      ScanIsWorth(lines, next, items[1..], decode);
      ItemIsScanned(lines, i, items[0], decode);
    }
  }

  /** An envelope is read for exactly what its items are worth, whatever newlines or object-like text its
      sized payloads hold. */
  lemma ScanNeverDesyncs(header: string, items: seq<Item>, decode: string -> Option<Wire>)
    requires '\n' !in header && decode(header).Some? && decode("").None? && AllFit(items, decode)
    ensures Parse(Written(header, items), decode) == Some(Worth(items, decode))
  {
    hide Scan, LinesOf, Written, Lines, Worth;
    var lines := Lines(Written(header, items));
    WrittenLines(header, items);
    OneLine(header);
    assert lines[1..] == LinesOf(items);
    ScanIsWorth(lines, 1, items, decode);
  }

  /** An envelope whose first line is no object is rejected, whatever follows. */
  lemma BadHeaderIsRejected(header: string, rest: string, decode: string -> Option<Wire>)
    requires '\n' !in header
    ensures decode(header).None? <==> Parse(header, decode).None?
    ensures decode(header).None? <==> Parse(header + ("\n" + rest), decode).None?
  {
    hide Scan;
    OneLine(header);
    LinesJoin(header, rest);
  }

  function WithoutSized(items: seq<Item>): seq<Item> {
    if items == [] then []
    else if items[0].Sized? then WithoutSized(items[1..])
    else [items[0]] + WithoutSized(items[1..])
  }

  lemma {:induction false} SizedAreWorthOneDrop(items: seq<Item>, decode: string -> Option<Wire>)
    requires AllFit(items, decode)
    ensures AllFit(WithoutSized(items), decode)
    ensures Worth(items, decode).events == Worth(WithoutSized(items), decode).events
    ensures |Worth(items, decode).dropped|
         == |Worth(WithoutSized(items), decode).dropped| + (|items| - |WithoutSized(items)|)
  {
    if items != [] {
      var rest := WithoutSized(items[1..]);
      SizedAreWorthOneDrop(items[1..], decode);
      if !items[0].Sized? { assert ([items[0]] + rest)[1..] == rest; }
    }
  }

  /** Deleting the sized items changes no event and takes away exactly one dropped entry for each. */
  lemma SizedItemsOnlyDrop(header: string, items: seq<Item>, decode: string -> Option<Wire>)
    requires '\n' !in header && decode(header).Some? && decode("").None? && AllFit(items, decode)
    ensures var with := Parse(Written(header, items), decode);
            var less := Parse(Written(header, WithoutSized(items)), decode);
            && with.Some? && less.Some? && with.value.events == less.value.events
            && |with.value.dropped| == |less.value.dropped| + (|items| - |WithoutSized(items)|)
  {
    hide Parse, Worth, Written, WithoutSized, AllFit;
    SizedAreWorthOneDrop(items, decode);
    ScanNeverDesyncs(header, items, decode);
    ScanNeverDesyncs(header, WithoutSized(items), decode);
  }

  lemma PayloadIsSkipped(lines: seq<string>, i: nat, p: string, length: int)
    requires i + |Lines(p)| < |lines| && lines[i..i + |Lines(p)|] == Lines(p)
    ensures Skip(lines, i, 0, length) == i + |Lines(p)|
            <==> Bytes(p) - Bytes(Lines(p)[|Lines(p)| - 1]) < length <= Bytes(p) + 1
  {
    LinesCost(p);
    hide Bytes, Lines, Utf8;
    var n := |Lines(p)|;
    assert Lines(p)[0..n] == Lines(p);
    CostShift(lines, i, i + n, Lines(p), 0);
    CostSnoc(lines, i, i + n);
    assert lines[i + n - 1] == lines[i..i + n][n - 1];
    SkipCovers(lines, i, 0, length);
    if Bytes(p) - Bytes(Lines(p)[n - 1]) < length <= Bytes(p) + 1 { SkipEnds(lines, i, 0, length, i + n); }
  }

  /** With lines after it, a payload is skipped whole exactly when the declared length ends within its
      last line, the newline counted. */
  lemma WholePayloadIsSkippedExactly(lines: seq<string>, i: nat, p: string, length: int)
    requires i + |Lines(p)| < |lines| && lines[i..i + |Lines(p)|] == Lines(p)
    ensures Skip(lines, i, 0, length) == i + |Lines(p)|
            <==> |Utf8(p)| - |Utf8(Lines(p)[|Lines(p)| - 1])| < length <= |Utf8(p)| + 1
  {
    hide *;
    PayloadIsSkipped(lines, i, p, length);
    BytesAreUtf8(p);
    BytesAreUtf8(Lines(p)[|Lines(p)| - 1]);
  }

  lemma {:induction false} SkipCovers(lines: seq<string>, i: nat, skipped: nat, length: int)
    requires i <= |lines|
    ensures var j := Skip(lines, i, skipped, length);
            && (j < |lines| ==> skipped + Cost(lines, i, j) >= length)
            && (j > i ==> skipped + Cost(lines, i, j - 1) < length)
    decreases |lines| - i
  {
    if i < |lines| && skipped < length {
      SkipCovers(lines, i + 1, skipped + Bytes(lines[i]) + 1, length);
    }
  }
}
