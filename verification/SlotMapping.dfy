/** Slot lists, their compressed form, and the textual form with its parser. */
module SlotMapping {
  datatype Item = Single(slot: int) | Range(start: int, end: int) {
    function First(): int { if Single? then slot else start }
    function Last(): int { if Single? then slot else end }
  }

  /** start, start + 1, ..., end */
  function Span(start: int, end: int): (r: seq<int>)
    ensures |r| == if start <= end then end - start + 1 else 0
    ensures forall i :: 0 <= i < |r| ==> r[i] == start + i
    decreases end - start
  {
    if start > end then [] else Span(start, end - 1) + [end]
  }

  // ----- decompression -----

  function Expand(item: Item): seq<int> {
    if item.Single? then [item.slot] else Span(item.start, item.end)
  }

  function Decompressed(items: seq<Item>): seq<int> {
    if items == [] then [] else Decompressed(items[..|items| - 1]) + Expand(items[|items| - 1])
  }

  method Decompress(items: seq<Item>) returns (slots: seq<int>)
    ensures slots == Decompressed(items)
  {
    slots := [];
    for i := 0 to |items|
      invariant slots == Decompressed(items[..i])
    {
      assert items[..i + 1][..i] == items[..i];
      slots := slots + Expand(items[i]);
    }
    assert items[..|items|] == items;
  }

  lemma {:induction false} DecompressedConcat(a: seq<Item>, b: seq<Item>)
    ensures Decompressed(a + b) == Decompressed(a) + Decompressed(b)
  {
    hide Expand;
    if b == [] {
      assert a + b == a;
    } else {
      var n := |b| - 1;
      assert (a + b)[..|a + b| - 1] == a + b[..n] && (a + b)[|a + b| - 1] == b[n];
      DecompressedConcat(a, b[..n]);
      assert Decompressed(a) + (Decompressed(b[..n]) + Expand(b[n]))
          == (Decompressed(a) + Decompressed(b[..n])) + Expand(b[n]);
    }
  }

  // ----- compression -----

  /** The helper that closes a run: a range from three elements on, singles otherwise. */
  function Closed(start: int, end: int): (r: seq<Item>)
    requires start <= end
  {
    if end - start + 1 >= 3 then [Range(start, end)]
    else if end == start then [Single(start)]
    else [Single(start), Single(end)]
  }

  method AppendRangeOrElements(result: seq<Item>, start: int, end: int) returns (r: seq<Item>)
    requires start <= end
    ensures r == result + Closed(start, end)
  {
    r := result;
    if end - start + 1 >= 3 {
      r := r + [Range(start, end)];
    } else {
      for i := start to end + 1
        invariant r == result + if i == start then []
                                else if i == start + 1 then [Single(start)]
                                else [Single(start), Single(start + 1)]
      {
        r := r + [Single(i)];
      }
    }
  }

  /** Nothing is left uncompressed and nothing is compressed that should not be: ranges
      span at least three slots, and two neighbours continue one another only when they
      are a pair of singles that continues no further on either side. */
  ghost predicate Canonical(items: seq<Item>) {
    && (forall i :: 0 <= i < |items| && items[i].Range? ==> items[i].end - items[i].start >= 2)
    && (forall i :: 0 <= i < |items| - 1 && Continues(items[i], items[i + 1]) ==>
       items[i].Single? && items[i + 1].Single?)
    && (forall i :: 0 <= i < |items| - 2 ==>
       !(Continues(items[i], items[i + 1]) && Continues(items[i + 1], items[i + 2])))
  }

  predicate Continues(a: Item, b: Item) {
    b.First() == a.Last() + 1
  }

  lemma ClosedExpands(start: int, end: int)
    requires start <= end
    ensures Decompressed(Closed(start, end)) == Span(start, end)
  {
    var c := Closed(start, end);
    assert c[..|c| - 1] == if |c| == 1 then [] else [Single(start)];
    assert [Single(start)][..0] == [];
    if |c| == 2 {
      assert Decompressed([Single(start)]) == [start];
      assert Span(start, end) == Span(start, start) + [end];
    }
  }

  lemma OneMoreItem(items: seq<Item>, item: Item)
    requires Canonical(items) && (item.Range? ==> item.end - item.start >= 2)
    requires var n := |items|;
             n > 0 && Continues(items[n - 1], item)
             ==> items[n - 1].Single? && item.Single? && (n > 1 ==> !Continues(items[n - 2], items[n - 1]))
    ensures Canonical(items + [item])
  {
    var n := |items|;
    var r := items + [item];
    forall i | 0 <= i < n ensures Continues(r[i], r[i + 1]) ==> r[i].Single? && r[i + 1].Single? {
      if i + 1 < n { assert r[i] == items[i] && r[i + 1] == items[i + 1]; }
    }
    forall i | 0 <= i < n - 1 ensures !(Continues(r[i], r[i + 1]) && Continues(r[i + 1], r[i + 2])) {
      if i + 2 < n { assert r[i] == items[i] && r[i + 1] == items[i + 1] && r[i + 2] == items[i + 2]; }
    }
  }

  /** Appending a closed run that does not continue the last item keeps the form canonical. */
  lemma ClosedKeepsCanonical(items: seq<Item>, start: int, end: int)
    requires Canonical(items) && start <= end
    requires items != [] ==> items[|items| - 1].Last() + 1 != start
    ensures Canonical(items + Closed(start, end))
    ensures (items + Closed(start, end))[|items + Closed(start, end)| - 1].Last() == end
  {
    hide Canonical;
    if end - start + 1 >= 3 {
      OneMoreItem(items, Range(start, end));
    } else {
      OneMoreItem(items, Single(start));
      if end > start {
        OneMoreItem(items + [Single(start)], Single(end));
        assert items + [Single(start)] + [Single(end)] == items + Closed(start, end);
      }
    }
  }

  lemma EmptyIsCanonical()
    ensures Canonical([]) && Decompressed([]) == []
  {
  }

  /** The state of the loop: `result` covers all of `seen` but the run start .. end. */
  ghost predicate Open(result: seq<Item>, start: int, end: int, seen: seq<int>) {
    && start <= end && Canonical(result)
    && Decompressed(result) + Span(start, end) == seen
    && (result != [] ==> result[|result| - 1].Last() + 1 != start)
  }

  method CloseRun(result: seq<Item>, start: int, end: int, ghost seen: seq<int>) returns (r: seq<Item>)
    requires Open(result, start, end, seen)
    ensures Decompressed(r) == seen && Canonical(r) && r != [] && r[|r| - 1].Last() == end
  {
    ClosedExpands(start, end);
    DecompressedConcat(result, Closed(start, end));
    ClosedKeepsCanonical(result, start, end);
    hide Canonical, Decompressed, Span;
    r := AppendRangeOrElements(result, start, end);
  }

  lemma OpenRun(result: seq<Item>, slot: int, seen: seq<int>)
    requires Canonical(result) && Decompressed(result) == seen
    requires result != [] ==> result[|result| - 1].Last() + 1 != slot
    ensures Open(result, slot, slot, seen + [slot])
  {
    assert Span(slot, slot) == [slot];
  }

  lemma ExtendRun(result: seq<Item>, start: int, end: int, seen: seq<int>)
    requires Open(result, start, end, seen)
    ensures Open(result, start, end + 1, seen + [end + 1])
  {
  }

  /** The compression loop. Its result expands to the input and is canonical. */
  method Compress(slots: seq<int>) returns (result: seq<Item>)
    ensures Decompressed(result) == slots && Canonical(result)
  {
    EmptyIsCanonical();
    hide Open, Canonical, Decompressed;
    if slots == [] {
      return [];
    }
    result := [];
    var rangeStart, rangeEnd := slots[0], slots[0];
    OpenRun([], slots[0], []);
    assert [] + [slots[0]] == slots[..1];
    for i := 1 to |slots|
      invariant Open(result, rangeStart, rangeEnd, slots[..i])
    {
      var slot := slots[i];
      assert slots[..i + 1] == slots[..i] + [slot];
      if slot == rangeEnd + 1 {
        ExtendRun(result, rangeStart, rangeEnd, slots[..i]);
        rangeEnd := slot;
      } else {
        result := CloseRun(result, rangeStart, rangeEnd, slots[..i]);
        OpenRun(result, slot, slots[..i]);
        rangeStart, rangeEnd := slot, slot;
      }
    }
    assert slots[..|slots|] == slots;
    result := CloseRun(result, rangeStart, rangeEnd, slots);
  }

  // ----- the canonical form is unique -----

  /** Length of the consecutive run at the end of a slot list. */
  function TailRun(s: seq<int>): nat {
    if s == [] then 0
    else if |s| == 1 || s[|s| - 2] + 1 != s[|s| - 1] then 1
    else 1 + TailRun(s[..|s| - 1])
  }

  lemma TailRunStep(s: seq<int>, x: int)
    ensures TailRun(s + [x]) == if s != [] && s[|s| - 1] + 1 == x then TailRun(s) + 1 else 1
  {
    assert (s + [x])[..|s|] == s;
  }

  lemma SpanStep(before: seq<int>, start: int, end: int)
    requires start <= end
    ensures before + Span(start, end) == before + Span(start, end - 1) + [end]
    ensures var s := before + Span(start, end - 1);
            s != [] ==> s[|s| - 1] == if start < end then end - 1 else before[|before| - 1]
  {
    var front := Span(start, end - 1);
    assert before + (front + [end]) == before + front + [end];
    if start < end { assert (before + front)[|before + front| - 1] == front[|front| - 1]; }
  }

  lemma {:induction false} TailRunOfSpan(before: seq<int>, start: int, end: int)
    requires start <= end && (before != [] ==> before[|before| - 1] + 1 != start)
    ensures TailRun(before + Span(start, end)) == end - start + 1
    decreases end - start
  {
    hide TailRun, Span;
    SpanStep(before, start, end);
    TailRunStep(before + Span(start, end - 1), end);
    if start < end { TailRunOfSpan(before, start, end - 1); }
  }

  /** A canonical list splits into a canonical front and its last item, and its expansion
      ends with that item's last slot. */
  lemma CanonicalFront(items: seq<Item>)
    requires Canonical(items) && items != []
    ensures Canonical(items[..|items| - 1])
    ensures items[|items| - 1].Range? ==> items[|items| - 1].start <= items[|items| - 1].end
    ensures Decompressed(items) != [] && Decompressed(items)[|Decompressed(items)| - 1] == items[|items| - 1].Last()
  {
    var n := |items| - 1;
    var front := items[..n];
    assert forall i :: 0 <= i < n ==> front[i] == items[i];
    forall i | 0 <= i < n - 1 && Continues(front[i], front[i + 1]) ensures front[i].Single? && front[i + 1].Single? {
      assert Continues(items[i], items[i + 1]);
    }
    forall i | 0 <= i < n - 2 ensures !(Continues(front[i], front[i + 1]) && Continues(front[i + 1], front[i + 2])) {
      assert !(Continues(items[i], items[i + 1]) && Continues(items[i + 1], items[i + 2]));
    }
  }

  lemma NonEmpty(items: seq<Item>)
    requires Canonical(items)
    ensures items == [] <==> Decompressed(items) == []
  {
    if items != [] { CanonicalFront(items); }
  }

  lemma LastOf(items: seq<Item>)
    requires items != []
    ensures Decompressed(items) == Decompressed(items[..|items| - 1]) + Expand(items[|items| - 1])
  {
  }

  /** What canonicity says about the last items. */
  lemma LastNeighbours(items: seq<Item>)
    requires Canonical(items) && items != []
    ensures var n := |items| - 1;
            && (items[n].Range? ==> items[n].end - items[n].start >= 2)
            && (n > 0 && Continues(items[n - 1], items[n]) ==> items[n - 1].Single? && items[n].Single?)
            && (n > 1 && Continues(items[n - 1], items[n]) ==> !Continues(items[n - 2], items[n - 1]))
  {
    var n := |items| - 1;
    if n > 1 {
      assert !(Continues(items[n - 2], items[n - 1]) && Continues(items[n - 1], items[n]));
    }
  }

  /** The run at the end of the slots decides what the last item is. */
  lemma LastItemByRun(items: seq<Item>)
    requires Canonical(items) && items != []
    ensures Decompressed(items) != []
    ensures var s := Decompressed(items);
            var end := s[|s| - 1];
            items[|items| - 1] == if TailRun(s) >= 3 then Range(end - TailRun(s) + 1, end) else Single(end)
  {
    hide Canonical, Decompressed, Span, TailRun;
    CanonicalFront(items);
    LastNeighbours(items);
    LastOf(items);
    var n := |items| - 1;
    var front, last := items[..n], items[n];
    NonEmpty(front);
    if n > 0 {
      CanonicalFront(front);
      assert front[n - 1] == items[n - 1];
    }
    if last.Range? {
      TailRunOfSpan(Decompressed(front), last.start, last.end);
    } else if n > 0 && Continues(items[n - 1], last) {
      PairAtEnd(items);
    } else {
      assert Span(last.slot, last.slot) == [last.slot];
      TailRunOfSpan(Decompressed(front), last.slot, last.slot);
    }
  }

  lemma PairAtEnd(items: seq<Item>)
    requires Canonical(items) && |items| >= 2 && Continues(items[|items| - 2], items[|items| - 1])
    ensures TailRun(Decompressed(items)) == 2
  {
    hide Canonical, Decompressed, TailRun;
    var n := |items| - 1;
    var init := items[..n];
    var front := init[..n - 1];
    var x := items[n].First();
    LastNeighbours(items);
    CanonicalFront(items);
    CanonicalFront(init);
    NonEmpty(front);
    if n > 1 { CanonicalFront(front); }
    LastOf(items);
    LastOf(init);
    assert n > 1 ==> front[n - 2] == items[n - 2];
    var before := Decompressed(front);
    assert Span(x - 1, x) == [x - 1, x];
    assert Decompressed(items) == before + [x - 1] + [x] == before + [x - 1, x];
    TailRunOfSpan(before, x - 1, x);
  }

  /** Two canonical lists with the same slots are the same list, so `Compress` has only
      one possible result. */
  lemma {:induction false} CanonicalUnique(a: seq<Item>, b: seq<Item>)
    requires Canonical(a) && Canonical(b) && Decompressed(a) == Decompressed(b)
    ensures a == b
  {
    hide Canonical, Decompressed, TailRun, Expand;
    NonEmpty(a);
    NonEmpty(b);
    if a != [] && b != [] {
      CanonicalFront(a);
      CanonicalFront(b);
      LastItemByRun(a);
      LastItemByRun(b);
      LastOf(a);
      LastOf(b);
      var m, n := |a| - 1, |b| - 1;
      assert a[m] == b[n];
      SameFront(Decompressed(a[..m]), Decompressed(b[..n]), Expand(a[m]));
      CanonicalUnique(a[..m], b[..n]);
      assert a == a[..m] + [a[m]] && b == b[..n] + [b[n]];
    }
  }

  lemma SameFront(x: seq<int>, y: seq<int>, tail: seq<int>)
    requires x + tail == y + tail
    ensures x == y
  {
    assert |x| == |y|;
    assert x == (x + tail)[..|x|] && y == (y + tail)[..|y|];
  }
}
