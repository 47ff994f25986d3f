/** The mixed slot-mapping parser, the printed form it documents, and how they invert
    one another. Digits outside ASCII are not part of this model. */
module SlotParser {
  import opened Options
  import opened Whitespace
  import opened Numerals
  import opened Splitting
  import opened SlotMapping

  // ----- removing whitespace -----

  /** "".join(s.split()) */
  function Clean(s: string): string {
    if s == [] then []
    else Clean(s[..|s| - 1]) + (if IsWhite(s[|s| - 1]) then [] else [s[|s| - 1]])
  }

  lemma {:induction false} CleanConcat(a: string, b: string)
    ensures Clean(a + b) == Clean(a) + Clean(b)
  {
    if b == [] {
      assert a + b == a;
    } else {
      var n := |b| - 1;
      assert (a + b)[..|a + b| - 1] == a + b[..n];
      CleanConcat(a, b[..n]);
    }
  }

  lemma {:induction false} CleanWhite(w: string)
    requires forall i :: 0 <= i < |w| ==> IsWhite(w[i])
    ensures Clean(w) == []
  {
    if w != [] { CleanWhite(w[..|w| - 1]); }
  }

  lemma {:induction false} CleanSolid(s: string)
    requires forall i :: 0 <= i < |s| ==> !IsWhite(s[i])
    ensures Clean(s) == s
  {
    if s != [] {
      CleanSolid(s[..|s| - 1]);
      assert s == s[..|s| - 1] + [s[|s| - 1]];
    }
  }

  // ----- splitting at commas outside brackets -----

  datatype Scan = Scan(parts: seq<string>, buffer: string, inBrackets: bool)

  /** One character of the splitting loop; None is a ValueError. */
  function ScanChar(st: Scan, c: char): Option<Scan> {
    if c == '[' then
      (if st.inBrackets then None else Some(st.(inBrackets := true, buffer := st.buffer + [c])))
    else if c == ']' then
      (if !st.inBrackets then None else Some(Scan(st.parts + [st.buffer + [c]], "", false)))
    else if c == ',' && !st.inBrackets then
      Some(if st.buffer == "" then st else Scan(st.parts + [st.buffer], "", false))
    else Some(st.(buffer := st.buffer + [c]))
  }

  function ScanAll(st: Scan, s: string): Option<Scan>
    decreases |s|
  {
    if s == [] then Some(st)
    else
      var next := ScanChar(st, s[0]);
      if next.None? then None else ScanAll(next.value, s[1..])
  }

  function Parts(s: string): Option<seq<string>> {
    var end := ScanAll(Scan([], "", false), s);
    if end.None? || end.value.inBrackets then None
    else Some(end.value.parts + if end.value.buffer == "" then [] else [end.value.buffer])
  }

  // ----- one part -----

  /** The regular expression ^\[(\d+),(\d+)\]$ */
  function MatchRange(part: string): Option<(nat, nat)> {
    if |part| < 2 || part[0] != '[' || part[|part| - 1] != ']' then None
    else
      var inner := part[1..|part| - 1];
      var k := IndexOf(inner, ',');
      if k < |inner| && IsDigits(inner[..k]) && IsDigits(inner[k + 1..])
      then Some((Value(inner[..k], 10), Value(inner[k + 1..], 10)))
      else None
  }

  function ParsePart(part: string): Option<Item> {
    var range := MatchRange(part);
    if range.Some? then
      (if range.value.0 > range.value.1 then None else Some(Range(range.value.0, range.value.1)))
    else
      var n := ParseInt(part, 10);
      if n.None? then None else Some(Single(n.value))
  }

  function ParseParts(parts: seq<string>): Option<seq<Item>> {
    if parts == [] then Some([])
    else
      var n := |parts| - 1;
      var front, last := ParseParts(parts[..n]), ParsePart(parts[n]);
      if front.None? || last.None? then None else Some(front.value + [last.value])
  }

  /** The whole parser; None is the error dictionary. */
  function Parse(s: string): Option<seq<int>> {
    var parts := Parts(Clean(s));
    if parts.None? then None
    else
      var items := ParseParts(parts.value);
      if items.None? then None else Some(Decompressed(items.value))
  }

  /** Whitespace anywhere in the text makes no difference. */
  lemma WhitespaceIrrelevant(a: string, w: string, b: string)
    requires forall i :: 0 <= i < |w| ==> IsWhite(w[i])
    ensures Parse(a + w + b) == Parse(a + b)
  {
    CleanConcat(a + w, b);
    CleanConcat(a, w);
    CleanConcat(a, b);
    CleanWhite(w);
    assert Clean(a + w + b) == Clean(a) + [] + Clean(b) == Clean(a + b);
  }

  // ----- the printed form -----

  function Text(item: Item): string {
    match item
    case Single(n) => Show(n, 10)
    case Range(a, b) => "[" + Show(a, 10) + "," + Show(b, 10) + "]"
  }

  function Texts(items: seq<Item>): seq<string> {
    seq(|items|, i requires 0 <= i < |items| => Text(items[i]))
  }

  function Print(items: seq<Item>): string {
    if items == [] then ""
    else Text(items[0]) + if |items| == 1 then "" else "," + Print(items[1..])
  }

  predicate Plain(s: string) {
    forall i :: 0 <= i < |s| ==> s[i] != '[' && s[i] != ']' && s[i] != ',' && !IsWhite(s[i])
  }

  lemma ShowPlain(n: int)
    ensures Show(n, 10) != [] && Plain(Show(n, 10))
  {
    ShownIsSolid(n, 10);
    var s := Show(n, 10);
    assert forall i :: 0 <= i < |s| ==> s[i] == '-' || IsDigit(s[i], 10);
  }

  lemma {:induction false} PrintSolid(items: seq<Item>)
    ensures forall i :: 0 <= i < |Print(items)| ==> !IsWhite(Print(items)[i])
  {
    if items != [] {
      PrintSolid(items[1..]);
      match items[0]
      case Single(n) => ShowPlain(n);
      case Range(a, b) =>
        ShowPlain(a);
        ShowPlain(b);
    }
  }

  /** Characters other than commas and brackets, or anything but brackets inside brackets,
      pile up in the buffer. */
  lemma {:induction false} ScanText(st: Scan, p: string, rest: string)
    requires forall i :: 0 <= i < |p| ==> p[i] != '[' && p[i] != ']' && (st.inBrackets || p[i] != ',')
    ensures ScanAll(st, p + rest) == ScanAll(st.(buffer := st.buffer + p), rest)
    decreases |p|
  {
    if p == [] {
      assert p + rest == rest && st.buffer + p == st.buffer;
    } else {
      assert (p + rest)[1..] == p[1..] + rest;
      var next := st.(buffer := st.buffer + [p[0]]);
      assert ScanChar(st, p[0]) == Some(next);
      ScanText(next, p[1..], rest);
      assert st.buffer + [p[0]] + p[1..] == st.buffer + p;
    }
  }

  lemma ScanStep(st: Scan, c: char, rest: string)
    ensures ScanAll(st, [c] + rest) == if ScanChar(st, c).None? then None else ScanAll(ScanChar(st, c).value, rest)
  {
    assert ([c] + rest)[1..] == rest;
  }

  lemma ScanItem(parts: seq<string>, item: Item, rest: string)
    ensures ScanAll(Scan(parts, "", false), Text(item) + rest)
         == ScanAll(if item.Single? then Scan(parts, Text(item), false)
             else Scan(parts + [Text(item)], "", false), rest)
  {
    hide Show, ScanAll;
    var st := Scan(parts, "", false);
    match item
    case Single(n) =>
      ShowPlain(n);
      ScanText(st, Text(item), rest);
      assert "" + Text(item) == Text(item);
    case Range(a, b) =>
      ShowPlain(a);
      ShowPlain(b);
      ScanBracketed(parts, Show(a, 10) + "," + Show(b, 10), rest);
      assert "[" + (Show(a, 10) + "," + Show(b, 10)) + "]" == Text(item);
  }

  lemma ScanBracketed(parts: seq<string>, inner: string, rest: string)
    requires forall i :: 0 <= i < |inner| ==> inner[i] != '[' && inner[i] != ']'
    ensures ScanAll(Scan(parts, "", false), "[" + inner + "]" + rest)
         == ScanAll(Scan(parts + ["[" + inner + "]"], "", false), rest)
  {
    hide ScanAll;
    assert "[" + inner + "]" + rest == ['['] + (inner + ([']'] + rest));
    ScanStep(Scan(parts, "", false), '[', inner + ([']'] + rest));
    assert "" + ['['] == "[";
    ScanText(Scan(parts, "[", true), inner, [']'] + rest);
    ScanStep(Scan(parts, "[" + inner, true), ']', rest);
    assert "[" + inner + [']'] == "[" + inner + "]";
  }

  /** Splitting a printed list gives its items' texts back. */
  lemma {:induction false} ScanPrint(parts: seq<string>, items: seq<Item>)
    ensures var end := ScanAll(Scan(parts, "", false), Print(items));
            && end.Some? && !end.value.inBrackets
            && end.value.parts + (if end.value.buffer == "" then [] else [end.value.buffer]) == parts + Texts(items)
    decreases |items|
  {
    if items != [] {
      var first := items[0];
      TextNonEmpty(first);
      PrintStep(items);
      TextsStep(items);
      TextsStep([]);
      if |items| == 1 {
        hide Text, Print, Texts;
        ScanItem(parts, first, "");
      } else {
        ScanMore(parts, first, Print(items[1..]));
        ScanPrint(parts + [Text(first)], items[1..]);
        hide *;
        assert parts + [Text(first)] + Texts(items[1..]) == parts + ([Text(first)] + Texts(items[1..]));
      }
    }
  }

  lemma PrintStep(items: seq<Item>)
    requires items != []
    ensures Print(items) == Text(items[0]) + if |items| == 1 then "" else [','] + Print(items[1..])
  {
    hide Text, Texts;
  }

  lemma TextsStep(items: seq<Item>)
    ensures Texts([]) == []
    ensures items != [] ==> Texts(items) == [Text(items[0])] + Texts(items[1..])
  {
    hide Text;
  }

  /** An item with a comma behind it becomes one more part. */
  lemma ScanMore(parts: seq<string>, item: Item, rest: string)
    ensures ScanAll(Scan(parts, "", false), Text(item) + ([','] + rest))
            == ScanAll(Scan(parts + [Text(item)], "", false), rest)
  {
    hide Text, ScanAll;
    TextNonEmpty(item);
    ScanItem(parts, item, [','] + rest);
    ScanStep(if item.Single? then Scan(parts, Text(item), false) else Scan(parts + [Text(item)], "", false), ',', rest);
  }

  lemma TextNonEmpty(item: Item)
    ensures Text(item) != ""
  {
    if item.Single? { ShowPlain(item.slot); }
  }

  predicate Printable(item: Item) {
    item.Range? ==> 0 <= item.start <= item.end
  }

  /** A printed item parses back exactly when it is a single slot or a range of
      non-negative slots; any other range is rejected. */
  lemma ItemParsesIff(item: Item)
    ensures ParsePart(Text(item)) == if Printable(item) then Some(item) else None
  {
    hide Show, MatchRange, ParseInt;
    match item
    case Single(n) =>
      ShowPlain(n);
      NoBracketNoRange(Show(n, 10));
      ShowParse(n, 10);
    case Range(a, b) =>
      RangeMatches(a, b);
      BracketIsNoInteger(Show(a, 10) + "," + Show(b, 10) + "]");
      assert Text(item) == "[" + (Show(a, 10) + "," + Show(b, 10) + "]");
  }

  lemma NoBracketNoRange(s: string)
    requires s != [] && s[0] != '['
    ensures MatchRange(s) == None
  {
  }

  lemma RangeMatches(a: int, b: int)
    ensures MatchRange(Text(Range(a, b))) == if a >= 0 && b >= 0 then Some((a as nat, b as nat)) else None
  {
    hide Show, Value, IsDigits, Digits;
    var t := Text(Range(a, b));
    var x, y := Show(a, 10), Show(b, 10);
    ShowPlain(a);
    ShowPlain(b);
    var inner := t[1..|t| - 1];
    assert inner == x + "," + y;
    var k := IndexOf(inner, ',');
    assert inner[|x|] == ',';
    assert forall i :: 0 <= i < |x| ==> inner[i] == x[i];
    assert k == |x|;
    assert inner[..k] == x && inner[k + 1..] == y;
    ShowDigits(a);
    ShowDigits(b);
  }

  lemma ShowDigits(n: int)
    ensures IsDigits(Show(n, 10)) <==> n >= 0
    ensures n >= 0 ==> Value(Show(n, 10), 10) == n
  {
    var s := Show(n, 10);
    if n >= 0 {
      DigitsValue(n, 10);
      assert forall i :: 0 <= i < |s| ==> IsDigit(s[i], 10);
    } else {
      assert s[0] == '-';
    }
  }

  lemma BracketIsNoInteger(tail: string)
    requires tail != [] && !IsWhite(tail[|tail| - 1])
    ensures ParseInt("[" + tail, 10) == None
  {
    var s := "[" + tail;
    assert Strip(s) == s;
    assert !IsDigit(s[0], 10);
  }

  ghost predicate AllPrintable(items: seq<Item>) {
    forall i :: 0 <= i < |items| ==> Printable(items[i])
  }

  lemma {:induction false} TextsParseIff(items: seq<Item>)
    ensures ParseParts(Texts(items)) == if AllPrintable(items) then Some(items) else None
  {
    hide ParsePart, Text, Printable;
    if items != [] {
      var n := |items| - 1;
      TextsParseIff(items[..n]);
      ItemParsesIff(items[n]);
      assert Texts(items)[..n] == Texts(items[..n]);
      assert items == items[..n] + [items[n]];
      assert forall i :: 0 <= i < n ==> items[..n][i] == items[i];
      assert AllPrintable(items) <==> AllPrintable(items[..n]) && Printable(items[n]);
    }
  }

  /** The parser inverts the printed form of any item list exactly when every range in it
      is non-negative and not reversed; otherwise it reports an error. */
  lemma ParsePrintIff(items: seq<Item>)
    ensures Parse(Print(items)) ==
              if AllPrintable(items) then Some(Decompressed(items)) else None
  {
    hide ScanAll, ParseParts, Print, Texts, Clean, Decompressed, AllPrintable;
    PrintSolid(items);
    CleanSolid(Print(items));
    ScanPrint([], items);
    assert [] + Texts(items) == Texts(items);
    TextsParseIff(items);
  }

  /** For every list of natural slots: compress, print, parse gives the list back. */
  method RoundTrip(slots: seq<int>) returns (back: Option<seq<int>>)
    requires forall i :: 0 <= i < |slots| ==> slots[i] >= 0
    ensures back == Some(slots)
  {
    var items := Compress(slots);
    back := ParseMixedSlotMapping(Print(items));
    ParsePrintIff(items);
    forall i | 0 <= i < |items| ensures Printable(items[i]) {
      ItemSlots(items, i);
    }
  }

  /** A canonical range's first slot is one of the slots. */
  lemma {:induction false} ItemSlots(items: seq<Item>, i: nat)
    requires Canonical(items) && i < |items|
    ensures items[i].Range? ==> items[i].start <= items[i].end && items[i].start in Decompressed(items)
    decreases |items|
  {
    hide Canonical, Decompressed, Span;
    var n := |items| - 1;
    CanonicalFront(items);
    LastOf(items);
    if i < n {
      ItemSlots(items[..n], i);
    } else if items[n].Range? {
      SpanStart(items[n].start, items[n].end);
    }
  }

  lemma SpanStart(start: int, end: int)
    requires start <= end
    ensures start in Span(start, end)
  {
    assert Span(start, end)[0] == start;
  }

  // ----- the loops -----

  method ParseMixedSlotMapping(s: string) returns (slots: Option<seq<int>>)
    ensures slots == Parse(s)
  {
    var clean := RemoveWhitespace(s);
    var parts := SplitParts(clean);
    if parts.None? {
      return None;
    }
    var compressed: seq<Item> := [];
    for i := 0 to |parts.value|
      invariant ParseParts(parts.value[..i]) == Some(compressed)
    {
      assert parts.value[..i + 1][..i] == parts.value[..i];
      var item := ParsePart(parts.value[i]);
      if item.None? {
        ParsePartsFails(parts.value, i);
        return None;
      }
      compressed := compressed + [item.value];
    }
    assert parts.value[..|parts.value|] == parts.value;
    var out := Decompress(compressed);
    slots := Some(out);
  }

  lemma {:induction false} ParsePartsFails(parts: seq<string>, i: nat)
    requires i < |parts| && ParsePart(parts[i]) == None
    ensures ParseParts(parts) == None
    decreases |parts|
  {
    var n := |parts| - 1;
    if i < n { ParsePartsFails(parts[..n], i); }
  }

  method RemoveWhitespace(s: string) returns (clean: string)
    ensures clean == Clean(s)
  {
    clean := "";
    for i := 0 to |s|
      invariant clean == Clean(s[..i])
    {
      assert s[..i + 1][..i] == s[..i];
      if !IsWhite(s[i]) {
        clean := clean + [s[i]];
      }
    }
    assert s[..|s|] == s;
  }

  method SplitParts(clean: string) returns (r: Option<seq<string>>)
    ensures r == Parts(clean)
  {
    var parts, buffer, inBrackets := [], "", false;
    assert clean[0..] == clean;
    for i := 0 to |clean|
      invariant ScanAll(Scan(parts, buffer, inBrackets), clean[i..]) == ScanAll(Scan([], "", false), clean)
    {
      var c := clean[i];
      assert clean[i..][1..] == clean[i + 1..] && clean[i..][0] == c;
      if c == '[' {
        if inBrackets {
          return None;
        }
        inBrackets, buffer := true, buffer + [c];
      } else if c == ']' {
        if !inBrackets {
          return None;
        }
        inBrackets, parts, buffer := false, parts + [buffer + [c]], "";
      } else if c == ',' && !inBrackets {
        if buffer != "" {
          parts, buffer := parts + [buffer], "";
        }
      } else {
        buffer := buffer + [c];
      }
    }
    assert clean[|clean|..] == [];
    assert ScanAll(Scan([], "", false), clean) == Some(Scan(parts, buffer, inBrackets));
    assert parts + [] == parts;
    if buffer != "" {
      parts := parts + [buffer];
    }
    if inBrackets {
      return None;
    }
    r := Some(parts);
  }
}
