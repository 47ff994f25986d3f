/** Which texts the slot-mapping parser accepts, and as what: a grammar read from left to right,
    and the proof that the splitting loop with its buffer and the per-part matching accept
    exactly its texts. */
module SlotGrammar {
  import opened Options
  import opened Whitespace
  import opened Numerals
  import opened Splitting
  import opened SlotMapping
  import opened SlotParser

  /** The inside of a bracket: two runs of digits around the first comma, not descending. */
  function ReadRange(inner: string): Option<Item> {
    var k := IndexOf(inner, ',');
    if k == |inner| || !IsDigits(inner[..k]) || !IsDigits(inner[k + 1..]) then None
    else
      var a, b := Value(inner[..k], 10), Value(inner[k + 1..], 10);
      if a <= b then Some(Range(a, b)) else None
  }

  /** The items of a text without whitespace. Commas may be missing behind a bracket, and may be
      repeated anywhere; an integer runs up to the next comma; anything else is an error. */
  function Read(s: string): Option<seq<Item>>
    decreases |s|
  {
    if s == "" then Some([])
    else if s[0] == ',' then Read(s[1..])
    else if s[0] == '[' then
      var k := IndexOf(s, ']');
      if k == |s| then None else Then(ReadRange(s[1..k]), Read(s[k + 1..]))
    else
      var k := IndexOf(s, ',');
      var n := ParseInt(s[..k], 10);
      Then(if n.None? then None else Some(Single(n.value)), Read(s[k..]))
  }

  function Then(item: Option<Item>, rest: Option<seq<Item>>): Option<seq<Item>> {
    if item.None? || rest.None? then None else Some([item.value] + rest.value)
  }

  /** The parts a scan ends with. */
  function Ended(end: Option<Scan>): Option<seq<string>> {
    if end.None? || end.value.inBrackets then None
    else Some(end.value.parts + if end.value.buffer == "" then [] else [end.value.buffer])
  }

  /** What a scan from here on comes to. */
  function Outcome(st: Scan, s: string): Option<seq<Item>> {
    var parts := Ended(ScanAll(st, s));
    if parts.None? then None else ParseParts(parts.value)
  }

  function Joined(front: Option<seq<Item>>, rest: Option<seq<Item>>): Option<seq<Item>> {
    if front.None? || rest.None? then None else Some(front.value + rest.value)
  }

  // ----- parts only accumulate -----

  lemma PartsSnoc(parts: seq<string>, p: string)
    ensures ParseParts(parts + [p])
         == if ParsePart(p).None? then None else Joined(ParseParts(parts), Some([ParsePart(p).value]))
  {
    hide ParsePart;
    assert (parts + [p])[..|parts|] == parts;
  }

  lemma {:induction false} BadPartStays(parts: seq<string>, more: seq<string>)
    requires ParseParts(parts) == None
    ensures ParseParts(parts + more) == None
    decreases |more|
  {
    hide ParsePart;
    if more == [] {
      assert parts + more == parts;
    } else {
      var n := |more| - 1;
      BadPartStays(parts, more[..n]);
      assert parts + more == parts + more[..n] + [more[n]];
      PartsSnoc(parts + more[..n], more[n]);
    }
  }

  lemma {:induction false} PartsKept(st: Scan, s: string)
    ensures ScanAll(st, s).Some? ==> st.parts <= ScanAll(st, s).value.parts
    decreases |s|
  {
    if s != "" {
      var next := ScanChar(st, s[0]);
      if next.Some? { PartsKept(next.value, s[1..]); }
    }
  }

  /** One part that does not parse spoils everything behind it. */
  lemma BadOutcome(st: Scan, s: string)
    requires ParseParts(st.parts) == None
    ensures Outcome(st, s) == None
  {
    hide ParseParts, ScanAll;
    PartsKept(st, s);
    var parts := Ended(ScanAll(st, s));
    if parts.Some? {
      assert parts.value == st.parts + parts.value[|st.parts|..];
      BadPartStays(st.parts, parts.value[|st.parts|..]);
    }
  }

  // ----- bracketed and unbracketed parts -----

  predicate NoBracket(s: string) {
    forall i :: 0 <= i < |s| ==> s[i] != '[' && s[i] != ']'
  }

  /** An integer contains no bracket. */
  lemma IntegersHaveNoBracket(s: string)
    requires ParseInt(s, 10).Some?
    ensures NoBracket(s)
  {
    hide Value, Strip;
    var l, r := StripAt(s);
    var t := s[l..r];
    forall i | 0 <= i < |s| ensures s[i] != '[' && s[i] != ']' {
      assert !IsDigit('[', 10) && !IsDigit(']', 10);
      if l <= i < r { assert s[i] == t[i - l] && (i > l ==> s[i] == t[1..][i - l - 1]); }
    }
  }

  lemma RangeHasNoBracket(inner: string)
    requires ReadRange(inner).Some?
    ensures NoBracket(inner)
  {
    hide Value;
    var k := IndexOf(inner, ',');
    forall i | 0 <= i < |inner| ensures inner[i] != '[' && inner[i] != ']' {
      if i < k { assert inner[i] == inner[..k][i]; }
      if i > k { assert inner[i] == inner[k + 1..][i - k - 1]; }
    }
  }

  lemma BracketPart(inner: string)
    ensures ParsePart("[" + inner + "]") == ReadRange(inner)
  {
    hide Value, IsDigits, ParseInt;
    var part := "[" + inner + "]";
    assert part[1..|part| - 1] == inner;
    assert part == "[" + (inner + "]");
    BracketIsNoInteger(inner + "]");
  }

  lemma PlainPart(text: string)
    requires text != "" && text[0] != '['
    ensures ParsePart(text) == if ParseInt(text, 10).None? then None else Some(Single(ParseInt(text, 10).value))
  {
    hide ParseInt;
    NoBracketNoRange(text);
  }

  // ----- the scan against the grammar -----

  /** Inside a bracket the scan goes on to the closing one, or fails. */
  lemma {:induction false} ScanInside(parts: seq<string>, buffer: string, t: string)
    ensures var k, end := IndexOf(t, ']'), ScanAll(Scan(parts, buffer, true), t);
            if k == |t| || !NoBracket(t[..k]) then Ended(end) == None
            else end == ScanAll(Scan(parts + [buffer + t[..k] + "]"], "", false), t[k + 1..])
    decreases |t|
  {
    if t != "" {
      if t[0] != ']' { IndexBehind(t, ']'); }
      var k := IndexOf(t, ']');
      if t[0] == ']' {
        assert buffer + t[..0] == buffer;
      } else if t[0] == '[' {
        if k < |t| { assert t[..k][0] == '['; }
      } else {
        ScanInside(parts, buffer + [t[0]], t[1..]);
        InsideStep(buffer, t, k);
      }
    }
  }

  lemma InsideStep(buffer: string, t: string, k: nat)
    requires t != "" && t[0] != '[' && t[0] != ']' && 0 < k <= |t|
    ensures NoBracket(t[..k]) <==> NoBracket(t[1..][..k - 1])
    ensures buffer + [t[0]] + t[1..][..k - 1] == buffer + t[..k]
    ensures k < |t| ==> t[1..][k..] == t[k + 1..]
  {
    assert t[..k] == [t[0]] + t[1..][..k - 1];
  }

  lemma JoinedThen(front: Option<seq<Item>>, item: Option<Item>, rest: Option<seq<Item>>)
    ensures var first := if item.None? then None else Joined(front, Some([item.value]));
            Joined(first, rest) == Joined(front, Then(item, rest))
    ensures Joined(front, Some([])) == front
  {
    if front.Some? {
      assert front.value + [] == front.value;
      if item.Some? && rest.Some? {
        assert front.value + [item.value] + rest.value == front.value + ([item.value] + rest.value);
      }
    }
  }

  /** A bracket behind other characters, or a closing one first, is an error. */
  lemma BracketSpoils(parts: seq<string>, text: string, rest: string)
    requires text != "" && text[0] != '[' && !NoBracket(text) && forall i :: 0 <= i < |text| ==> text[i] != ','
    ensures Outcome(Scan(parts, "", false), text + rest) == None
  {
    hide ScanAll, ParseParts, ParsePart;
    var b := FirstBracket(text);
    var tail := text[b + 1..] + rest;
    assert text + rest == text[..b] + ([text[b]] + tail);
    ScanText(Scan(parts, "", false), text[..b], [text[b]] + tail);
    assert "" + text[..b] == text[..b];
    ScanStep(Scan(parts, text[..b], false), text[b], tail);
    if text[b] == '[' {
      ScanInside(parts, text[..b] + "[", tail);
      var k := IndexOf(tail, ']');
      if k < |tail| && NoBracket(tail[..k]) {
        var part := text[..b] + "[" + tail[..k] + "]";
        assert part[0] == text[0] && part[b] == '[';
        PlainPart(part);
        if ParseInt(part, 10).Some? { IntegersHaveNoBracket(part); }
        PartsSnoc(parts, part);
        BadOutcome(Scan(parts + [part], "", false), tail[k + 1..]);
      }
    }
  }

  lemma FirstBracket(text: string) returns (b: nat)
    requires !NoBracket(text)
    ensures b < |text| && NoBracket(text[..b]) && (text[b] == '[' || text[b] == ']')
  {
    b := 0;
    while text[b] != '[' && text[b] != ']'
      invariant b < |text| && forall i :: 0 <= i < b ==> text[i] != '[' && text[i] != ']'
      decreases |text| - b
    {
      if b + 1 == |text| { assert NoBracket(text); }
      b := b + 1;
    }
  }

  /** From here the scan comes to what the grammar reads. */
  ghost predicate ScansRight(parts: seq<string>, s: string) {
    Outcome(Scan(parts, "", false), s) == Joined(ParseParts(parts), Read(s))
  }

  lemma IndexBehind(s: string, c: char)
    requires s != "" && s[0] != c
    ensures IndexOf(s, c) == IndexOf(s[1..], c) + 1
  {
  }

  lemma Slices(s: string, k: nat)
    requires 0 < k <= |s|
    ensures s == [s[0]] + s[1..] && s[1..][..k - 1] == s[1..k]
    ensures k < |s| ==> s[1..][k..] == s[k + 1..] && s[..k + 1] == [s[0]] + s[1..k] + [s[k]]
  {
  }

  lemma BracketText(s: string)
    requires s != "" && s[0] == '['
    ensures var k, t := IndexOf(s, ']'), s[1..];
      && 0 < k <= |s| && s == ['['] + t && IndexOf(t, ']') == k - 1 && t[..k - 1] == s[1..k]
      && (k < |s| ==> t[k..] == s[k + 1..] && s[k] == ']' && "[" + s[1..k] + "]" == s[..k + 1])
  {
    IndexBehind(s, ']');
    var k := IndexOf(s, ']');
    hide *;
    Slices(s, k);
  }

  lemma BracketScan(parts: seq<string>, s: string)
    requires s != "" && s[0] == '['
    ensures var k, end := IndexOf(s, ']'), Ended(ScanAll(Scan(parts, "", false), s));
      && 0 < k <= |s|
      && if k == |s| || !NoBracket(s[1..k]) then end == None
         else end == Ended(ScanAll(Scan(parts + [s[..k + 1]], "", false), s[k + 1..]))
  {
    BracketText(s);
    OpenBracket(parts, s[1..]);
    hide *;
    ScanInside(parts, "[", s[1..]);
  }

  lemma OpenBracket(parts: seq<string>, t: string)
    ensures ScanAll(Scan(parts, "", false), ['['] + t) == ScanAll(Scan(parts, "[", true), t)
  {
    ScanStep(Scan(parts, "", false), '[', t);
    assert "" + ['['] == "[";
  }

  lemma ReadBracket(s: string)
    requires s != "" && s[0] == '['
    ensures var k := IndexOf(s, ']');
      && 0 < k <= |s| && (k == |s| ==> Read(s) == None)
      && (k < |s| ==> Read(s) == Then(ParsePart(s[..k + 1]), Read(s[k + 1..])))
      && (k < |s| && !NoBracket(s[1..k]) ==> Read(s) == None)
  {
    hide ReadRange, ParsePart, NoBracket, IndexOf;
    BracketText(s);
    var k := IndexOf(s, ']');
    if k < |s| {
      BracketPart(s[1..k]);
      if ReadRange(s[1..k]).Some? { RangeHasNoBracket(s[1..k]); }
    }
  }

  lemma BracketReads(parts: seq<string>, s: string)
    requires s != "" && s[0] == '['
    requires var k := IndexOf(s, ']');
             k < |s| && NoBracket(s[1..k]) ==> ScansRight(parts + [s[..k + 1]], s[k + 1..])
    ensures ScansRight(parts, s)
  {
    hide ScanAll, ParseParts, ParsePart, Read, IndexOf, NoBracket;
    BracketScan(parts, s);
    ReadBracket(s);
    var k := IndexOf(s, ']');
    if k < |s| && NoBracket(s[1..k]) {
      PartsSnoc(parts, s[..k + 1]);
      JoinedThen(ParseParts(parts), ParsePart(s[..k + 1]), Read(s[k + 1..]));
    }
  }

  lemma ReadPlain(s: string)
    requires s != "" && s[0] != '[' && s[0] != ','
    ensures var k := IndexOf(s, ',');
      && 0 < k <= |s| && (forall i :: 0 <= i < k ==> s[i] != ',') && (k < |s| ==> s[k] == ',')
      && (NoBracket(s[..k]) ==>
            Read(s) == Then(ParsePart(s[..k]), if k == |s| then Some([]) else Read(s[k + 1..])))
      && (!NoBracket(s[..k]) ==> Read(s) == None)
  {
    hide ParsePart, ParseInt, IndexOf;
    var k := IndexOf(s, ',');
    if NoBracket(s[..k]) {
      PlainPart(s[..k]);
      if k < |s| { assert s[k..][1..] == s[k + 1..]; }
    } else if ParseInt(s[..k], 10).Some? {
      IntegersHaveNoBracket(s[..k]);
    }
  }

  lemma PlainReads(parts: seq<string>, s: string)
    requires s != "" && s[0] != '[' && s[0] != ','
    requires var k := IndexOf(s, ',');
             NoBracket(s[..k]) && k < |s| ==> ScansRight(parts + [s[..k]], s[k + 1..])
    ensures ScansRight(parts, s)
  {
    hide ScanAll, ParseParts, ParsePart, ParseInt, Read, IndexOf, NoBracket;
    ReadPlain(s);
    var k := IndexOf(s, ',');
    var text := s[..k];
    if NoBracket(text) {
      PartsSnoc(parts, text);
      JoinedThen(ParseParts(parts), ParsePart(text), if k == |s| then Some([]) else Read(s[k + 1..]));
      JoinedThen(ParseParts(parts + [text]), None, None);
      PlainScan(parts, s, k);
    } else {
      assert s == text + s[k..];
      BracketSpoils(parts, text, s[k..]);
    }
  }

  lemma PlainScan(parts: seq<string>, s: string, k: nat)
    requires 0 < k <= |s| && NoBracket(s[..k]) && (forall i :: 0 <= i < k ==> s[i] != ',') && (k < |s| ==> s[k] == ',')
    ensures Ended(ScanAll(Scan(parts, "", false), s))
         == if k == |s| then Some(parts + [s[..k]]) else Ended(ScanAll(Scan(parts + [s[..k]], "", false), s[k + 1..]))
  {
    var text, rest := s[..k], s[k..];
    assert s == text + rest;
    ScanText(Scan(parts, "", false), text, rest);
    assert "" + text == text;
    hide ScanAll;
    if k < |s| {
      assert rest == [','] + s[k + 1..];
      ScanStep(Scan(parts, text, false), ',', s[k + 1..]);
    } else {
      EmptyScan(parts, text);
    }
  }

  lemma EmptyScan(parts: seq<string>, text: string)
    ensures ScanAll(Scan(parts, text, false), "") == Some(Scan(parts, text, false)) && Read("") == Some([])
  {
  }

  lemma {:induction false} ScanReads(parts: seq<string>, s: string)
    ensures ScansRight(parts, s)
    decreases |s|
  {
    hide ParseParts, ParsePart, ReadRange, ParseInt;
    if s == "" {
      assert parts + [] == parts;
      JoinedThen(ParseParts(parts), None, None);
    } else if s[0] == ',' {
      ScanReads(parts, s[1..]);
    } else if s[0] == '[' {
      var k := IndexOf(s, ']');
      if k < |s| && NoBracket(s[1..k]) { ScanReads(parts + [s[..k + 1]], s[k + 1..]); }
      BracketReads(parts, s);
    } else {
      var k := IndexOf(s, ',');
      if NoBracket(s[..k]) && k < |s| { ScanReads(parts + [s[..k]], s[k + 1..]); }
      PlainReads(parts, s);
    }
  }

  /** The parser is the grammar: a text is accepted exactly when it reads, and as those slots. */
  lemma ParseReads(s: string)
    ensures Parse(s) == if Read(Clean(s)).None? then None else Some(Decompressed(Read(Clean(s)).value))
  {
    hide ScanAll, ParseParts, Clean, Read, Decompressed;
    ScanReads([], Clean(s));
    assert ParseParts([]) == Some([]) by { NoParts(); }
    if Read(Clean(s)).Some? { assert [] + Read(Clean(s)).value == Read(Clean(s)).value; }
  }

  lemma NoParts()
    ensures ParseParts([]) == Some([])
  {
  }

  /** Taking the whitespace out keeps the other characters in their order. */
  lemma {:induction false} CleanKeeps(s: string) returns (places: seq<nat>)
    ensures |places| == |Clean(s)| && forall x, y :: 0 <= x < y < |places| ==> places[x] < places[y]
    ensures forall x :: 0 <= x < |places| ==> places[x] < |s| && Clean(s)[x] == s[places[x]] && !IsWhite(s[places[x]])
    ensures forall i: nat :: i < |s| && !IsWhite(s[i]) ==> i in places
  {
    hide IsWhite;
    if s == "" {
      places := [];
    } else {
      var n := |s| - 1;
      var front := CleanKeeps(s[..n]);
      if IsWhite(s[n]) {
        places := front;
        assert Clean(s) == Clean(s[..n]) + [];
      } else {
        places := front + [n];
        assert Clean(s) == Clean(s[..n]) + [s[n]];
      }
      forall i: nat | i < |s| && !IsWhite(s[i]) ensures i in places {
        if i < n { assert s[..n][i] == s[i]; }
      }
    }
  }
}
