/** `str.split(c)` and `c.join(parts)` for a one-character separator. */
module Splitting {
  import opened Whitespace

  predicate Avoids(s: string, c: char) {
    forall i :: 0 <= i < |s| ==> s[i] != c
  }

  function IndexOf(s: string, c: char): (k: nat)
    ensures k <= |s| && (k < |s| ==> s[k] == c) && forall i :: 0 <= i < k ==> s[i] != c
  {
    if s == [] || s[0] == c then 0 else 1 + IndexOf(s[1..], c)
  }

  function Split(s: string, c: char): (parts: seq<string>)
    ensures parts != []
    decreases |s|
  {
    var k := IndexOf(s, c);
    if k == |s| then [s] else [s[..k]] + Split(s[k + 1..], c)
  }

  function Join(parts: seq<string>, c: char): string
    requires parts != []
  {
    if |parts| == 1 then parts[0] else parts[0] + [c] + Join(parts[1..], c)
  }

  ghost predicate AllAvoid(parts: seq<string>, c: char) {
    forall i :: 0 <= i < |parts| ==> Avoids(parts[i], c)
  }

  lemma IndexOfFirst(a: string, c: char, rest: string)
    requires Avoids(a, c)
    ensures IndexOf(a + [c] + rest, c) == |a|
  {
    var s := a + [c] + rest;
    assert s[|a|] == c;
    assert forall i :: 0 <= i < |a| ==> s[i] == a[i];
  }

  lemma SplitFirst(a: string, c: char, rest: string)
    requires Avoids(a, c)
    ensures Split(a, c) == [a]
    ensures Split(a + [c] + rest, c) == [a] + Split(rest, c)
  {
    var s := a + [c] + rest;
    IndexOfFirst(a, c, rest);
    assert s[..|a|] == a && s[|a| + 1..] == rest;
  }

  /** Splitting a joined list gives it back when no part contains the separator. */
  lemma {:induction false} SplitJoin(parts: seq<string>, c: char)
    requires parts != [] && AllAvoid(parts, c)
    ensures Split(Join(parts, c), c) == parts
    decreases |parts|
  {
    hide Split;
    if |parts| == 1 {
      SplitFirst(parts[0], c, "");
    } else {
      SplitFirst(parts[0], c, Join(parts[1..], c));
      SplitJoin(parts[1..], c);
      assert parts == [parts[0]] + parts[1..];
    }
  }

  /** No part of a split contains the separator. */
  lemma {:induction false} SplitAvoids(s: string, c: char)
    ensures AllAvoid(Split(s, c), c)
    decreases |s|
  {
    var k := IndexOf(s, c);
    if k < |s| {
      SplitAvoids(s[k + 1..], c);
      var rest := Split(s[k + 1..], c);
      forall i | 0 <= i < |Split(s, c)| ensures Avoids(Split(s, c)[i], c) {
        if i > 0 { assert Split(s, c)[i] == rest[i - 1]; }
      }
    }
  }

  lemma {:induction false} JoinSplit(s: string, c: char)
    ensures Join(Split(s, c), c) == s
    decreases |s|
  {
    var k := IndexOf(s, c);
    if k < |s| {
      JoinSplit(s[k + 1..], c);
      var rest := Split(s[k + 1..], c);
      assert ([s[..k]] + rest)[1..] == rest;
      assert s == s[..k] + [c] + s[k + 1..];
    }
  }

  lemma {:induction false} JoinAppend(parts: seq<string>, last: string, c: char)
    requires parts != []
    ensures Join(parts + [last], c) == Join(parts, c) + [c] + last
    decreases |parts|
  {
    if |parts| > 1 {
      JoinAppend(parts[1..], last, c);
      assert (parts + [last])[1..] == parts[1..] + [last];
    } else {
      assert (parts + [last])[1..] == [last];
    }
  }

  lemma {:induction false} SplitConcat(a: string, c: char, rest: string)
    ensures Split(a + [c] + rest, c) == Split(a, c) + Split(rest, c)
    decreases |a|
  {
    hide Split;
    var k := IndexOf(a, c);
    if k == |a| {
      SplitFirst(a, c, rest);
    } else {
      var head, tail := a[..k], a[k + 1..];
      assert a == head + [c] + tail;
      SplitFirst(head, c, tail);
      SplitConcat(tail, c, rest);
      SplitFirst(head, c, tail + [c] + rest);
      assert a + [c] + rest == head + [c] + (tail + [c] + rest);
    }
  }

  /** A part without the separator comes back as one, at its place or later, whatever the
      other parts contain. */
  lemma {:induction false} PartAppears(parts: seq<string>, c: char, n: nat) returns (i: nat)
    requires n < |parts| && Avoids(parts[n], c)
    ensures n <= i < |Split(Join(parts, c), c)| && Split(Join(parts, c), c)[i] == parts[n]
    decreases n
  {
    hide Split;
    if |parts| > 1 { SplitConcat(parts[0], c, Join(parts[1..], c)); }
    if n == 0 {
      SplitFirst(parts[0], c, "");
      i := 0;
    } else {
      var later := PartAppears(parts[1..], c, n - 1);
      i := |Split(parts[0], c)| + later;
    }
  }

  // ----- splitting a stripped text -----

  /** As many parts, all but the last from `start` on the same, the last one a prefix. */
  ghost predicate Shortened(short: seq<string>, parts: seq<string>, start: nat) {
    && |short| == |parts|
    && (forall i :: start <= i < |parts| ==> short[i] <= parts[i])
    && (forall i :: start <= i < |parts| - 1 ==> short[i] == parts[i])
  }

  lemma DropFirst(s: string, c: char)
    requires s != "" && s[0] != c
    ensures Shortened(Split(s[1..], c), Split(s, c), 1)
  {
    var k := IndexOf(s, c);
    assert k < |s| ==> s[1..][k..] == s[k + 1..];
  }

  lemma ShortenedBehind(short: seq<string>, parts: seq<string>, head: string)
    requires Shortened(short, parts, 0)
    ensures Shortened([head] + short, [head] + parts, 0)
  {
  }

  lemma ShortenedTwice(a: seq<string>, b: seq<string>, c: seq<string>)
    requires Shortened(a, b, 1) && Shortened(b, c, 1)
    ensures Shortened(a, c, 1)
  {
    forall i | 1 <= i < |c| ensures a[i] <= c[i] { assert a[i] <= b[i] <= c[i]; }
  }

  lemma {:induction false} DropLast(s: string, c: char)
    requires s != "" && s[|s| - 1] != c
    ensures Shortened(Split(s[..|s| - 1], c), Split(s, c), 0)
    decreases |s|
  {
    hide Split;
    var k, t := IndexOf(s, c), s[..|s| - 1];
    if k < |s| {
      var head, tail := s[..k], s[k + 1..];
      assert s == head + [c] + tail;
      assert t == head + [c] + tail[..|tail| - 1];
      SplitFirst(head, c, tail);
      SplitFirst(head, c, tail[..|tail| - 1]);
      DropLast(tail, c);
      ShortenedBehind(Split(tail[..|tail| - 1], c), Split(tail, c), head);
    } else {
      SplitFirst(t, c, "");
      SplitFirst(s, c, "");
    }
  }

  /** Stripping keeps the number of parts and shortens only the first and the last one. */
  lemma {:induction false} SplitStripped(s: string, c: char)
    requires !IsWhite(c)
    ensures Shortened(Split(Strip(s), c), Split(s, c), 1)
    decreases |s|
  {
    hide Split, Strip, IsWhite, Shortened;
    StripStep(s);
    if s == "" || (!IsWhite(s[0]) && !IsWhite(s[|s| - 1])) {
      TrimmedIsFixed(s);
      UnshortenedParts(Split(s, c));
    } else {
      var shorter := if IsWhite(s[0]) then s[1..] else s[..|s| - 1];
      SplitStripped(shorter, c);
      if IsWhite(s[0]) { DropFirst(s, c); } else { DropLast(s, c); LaterStart(Split(shorter, c), Split(s, c)); }
      ShortenedTwice(Split(Strip(s), c), Split(shorter, c), Split(s, c));
    }
  }

  lemma UnshortenedParts(parts: seq<string>)
    ensures Shortened(parts, parts, 1)
  {
  }

  lemma LaterStart(short: seq<string>, parts: seq<string>)
    requires Shortened(short, parts, 0)
    ensures Shortened(short, parts, 1)
  {
  }

  // ----- splitting the beginning of a text -----

  /** Some of the parts, all but the last one whole. */
  ghost predicate CutShort(short: seq<string>, parts: seq<string>) {
    && 0 < |short| <= |parts| && short[|short| - 1] <= parts[|short| - 1]
    && forall i :: 0 <= i < |short| - 1 ==> short[i] == parts[i]
  }

  lemma CutBehind(short: seq<string>, parts: seq<string>, head: string)
    requires CutShort(short, parts)
    ensures CutShort([head] + short, [head] + parts)
  {
  }

  lemma {:induction false} SplitPrefix(t: string, s: string, c: char)
    requires t <= s
    ensures CutShort(Split(t, c), Split(s, c))
    decreases |t|
  {
    hide Split, CutShort;
    var k := IndexOf(s, c);
    if k < |t| {
      var head, tail, more := s[..k], t[k + 1..], s[k + 1..];
      assert s == head + [c] + more && t == head + [c] + tail;
      assert more[..|tail|] == tail;
      SplitFirst(head, c, tail);
      SplitFirst(head, c, more);
      SplitPrefix(tail, more, c);
      CutBehind(Split(tail, c), Split(more, c), head);
    } else {
      SplitFirst(t, c, "");
      CutInFirst(t, s, c);
    }
  }

  lemma CutInFirst(t: string, s: string, c: char)
    requires t <= s && |t| <= IndexOf(s, c)
    ensures CutShort([t], Split(s, c))
  {
  }
}
