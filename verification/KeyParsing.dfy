/** Key strings field by field: what `to_string` writes, which strings `from_string` accepts, and
    as which keys. */
module KeyParsing {
  import opened Options
  import opened Numerals
  import opened Splitting
  import opened CacheKeys

  // ----- the string written -----

  function TagSuffix(tags: seq<Tag>): string {
    if tags == [] then "" else TagSuffix(tags[..|tags| - 1]) + "@" + tags[|tags| - 1].0 + "%" + tags[|tags| - 1].1
  }

  lemma {:induction false} JoinTags(fields: seq<string>, tags: seq<Tag>)
    requires fields != []
    ensures Join(fields + TagTexts(tags), '@') == Join(fields, '@') + TagSuffix(tags)
    decreases |tags|
  {
    hide Join;
    if tags == [] {
      assert fields + TagTexts(tags) == fields;
    } else {
      var n := |tags| - 1;
      JoinTags(fields, tags[..n]);
      assert fields + TagTexts(tags) == (fields + TagTexts(tags[..n])) + [TagText(tags[n])];
      JoinAppend(fields + TagTexts(tags[..n]), TagText(tags[n]), '@');
      var front := Join(fields, '@') + TagSuffix(tags[..n]);
      Regroup(front, tags[n].0, tags[n].1);
      Reassociate(Join(fields, '@'), TagSuffix(tags[..n]), "@", tags[n].0, tags[n].1);
    }
  }

  lemma Reassociate(a: string, b: string, at: string, name: string, value: string)
    ensures a + b + at + name + "%" + value == a + (b + at + name + "%" + value)
  {
  }

  lemma Regroup(a: string, name: string, value: string)
    ensures a + ['@'] + (name + "%" + value) == a + "@" + name + "%" + value
  {
  }

  /** `model@world_size@worker_id@chunk_hash@dtype`, the hash in hexadecimal, the layer number
      behind it in a layer key, and then `@name%value` for each tag. */
  lemma StringForm(k: Key)
    ensures ToString(k)
         == k.model + "@" + Show(k.worldSize, 10) + "@" + Show(k.workerId, 10) + "@" + Show(k.chunkHash, 16)
            + "@" + DTypeName(k.dtype) + (if k.layer.Some? then "@" + Show(k.layer.value, 10) else "")
            + TagSuffix(k.tags)
  {
    hide Show, DTypeName, TagSuffix;
    var a, b, c, d := Show(k.worldSize, 10), Show(k.workerId, 10), Show(k.chunkHash, 16), DTypeName(k.dtype);
    JoinFive(k.model, a, b, c, d);
    var five := [k.model, a, b, c, d];
    if k.layer.Some? {
      JoinAppend(five, Show(k.layer.value, 10), '@');
      JoinTags(five + [Show(k.layer.value, 10)], k.tags);
    } else {
      JoinTags(five, k.tags);
      assert five + [] == five;
    }
  }

  lemma JoinFive(m: string, a: string, b: string, c: string, d: string)
    ensures Join([m, a, b, c, d], '@') == m + "@" + a + "@" + b + "@" + c + "@" + d
  {
    assert Join([m], '@') == m;
    JoinAppend([m], a, '@');
    JoinAppend([m, a], b, '@');
    JoinAppend([m, a, b], c, '@');
    JoinAppend([m, a, b, c], d, '@');
    hide Join;
    assert [m] + [a] == [m, a] && [m, a] + [b] == [m, a, b] && [m, a, b] + [c] == [m, a, b, c]
        && [m, a, b, c] + [d] == [m, a, b, c, d];
  }

  // ----- tags read -----

  /** Part i is a tag of this name: what stands before its first percent sign. */
  predicate Names(parts: seq<string>, i: int, name: string) {
    && 0 <= i < |parts| && Avoids(name, '%') && |name| < |parts[i]|
    && parts[i][..|name|] == name && parts[i][|name|] == '%'
  }

  ghost predicate FirstNaming(parts: seq<string>, i: int, name: string) {
    Names(parts, i, name) && forall j :: 0 <= j < i ==> !Names(parts, j, name)
  }

  ghost predicate LastNaming(parts: seq<string>, i: int, name: string) {
    Names(parts, i, name) && forall j :: i < j < |parts| ==> !Names(parts, j, name)
  }

  /** Tag x takes its place from the first part of its name and its value from the last. */
  ghost predicate TagFrom(parts: seq<string>, t: Tag, first: int, last: int) {
    FirstNaming(parts, first, t.0) && LastNaming(parts, last, t.0) && parts[last] == t.0 + "%" + t.1
  }

  /** The tags of these parts: one for each name, in the order the names come up. */
  ghost predicate TagsOf(parts: seq<string>, tags: seq<Tag>, firsts: seq<nat>, lasts: seq<nat>) {
    && |firsts| == |lasts| == |tags|
    && (forall x :: 0 <= x < |tags| ==> TagFrom(parts, tags[x], firsts[x], lasts[x]))
    && (forall x, y :: 0 <= x < y < |tags| ==> firsts[x] < firsts[y])
    && (forall i :: 0 <= i < |parts| ==> Named(parts, i, tags))
  }

  ghost predicate Named(parts: seq<string>, i: int, tags: seq<Tag>) {
    exists x :: 0 <= x < |tags| && Names(parts, i, tags[x].0)
  }

  lemma OneName(parts: seq<string>, i: int, a: string, b: string)
    requires Names(parts, i, a) && Names(parts, i, b)
    ensures a == b
  {
    assert parts[i][..|a|] == a && parts[i][..|b|] == b;
  }

  lemma NameOf(parts: seq<string>, i: int, t: Tag)
    requires 0 <= i < |parts| && ParseTag(parts[i]) == Some(t)
    ensures Names(parts, i, t.0) && parts[i] == t.0 + "%" + t.1
  {
    var k := IndexOf(parts[i], '%');
    assert parts[i] == parts[i][..k] + "%" + parts[i][k + 1..];
  }

  lemma {:induction false} SetTagAt(tags: seq<Tag>, t: Tag) returns (p: nat)
    ensures p <= |tags| && forall i :: 0 <= i < p ==> tags[i].0 != t.0
    ensures p < |tags| ==> tags[p].0 == t.0 && SetTag(tags, t) == tags[p := t]
    ensures p == |tags| ==> SetTag(tags, t) == tags + [t]
    decreases |tags|
  {
    if tags == [] {
      p := 0;
    } else if tags[0].0 == t.0 {
      p := 0;
      assert tags[0 := t] == [t] + tags[1..];
    } else {
      var q := SetTagAt(tags[1..], t);
      p := q + 1;
      assert tags == [tags[0]] + tags[1..];
      assert p < |tags| ==> tags[p := t] == [tags[0]] + tags[1..][q := t];
    }
  }

  lemma TagLater(parts: seq<string>, t: Tag, first: int, last: int)
    requires parts != [] && TagFrom(parts[..|parts| - 1], t, first, last) && !Names(parts, |parts| - 1, t.0)
    ensures TagFrom(parts, t, first, last)
  {
    var n := |parts| - 1;
    forall j | 0 <= j < n ensures Names(parts[..n], j, t.0) <==> Names(parts, j, t.0) {
      assert parts[..n][j] == parts[j];
    }
  }

  lemma TagAgain(parts: seq<string>, was: Tag, first: int, last: int, t: Tag)
    requires parts != [] && TagFrom(parts[..|parts| - 1], was, first, last)
    requires ParseTag(parts[|parts| - 1]) == Some(t) && t.0 == was.0
    ensures TagFrom(parts, t, first, |parts| - 1)
  {
    var n := |parts| - 1;
    NameOf(parts, n, t);
    forall j | 0 <= j < n ensures Names(parts[..n], j, t.0) <==> Names(parts, j, t.0) {
      assert parts[..n][j] == parts[j];
    }
  }

  lemma TagNew(parts: seq<string>, front: seq<string>, tags: seq<Tag>, t: Tag)
    requires parts != [] && front == parts[..|parts| - 1] && ParseTag(parts[|front|]) == Some(t)
    requires forall i :: 0 <= i < |front| ==> Named(front, i, tags)
    requires forall x :: 0 <= x < |tags| ==> tags[x].0 != t.0
    ensures TagFrom(parts, t, |front|, |front|)
  {
    NameOf(parts, |front|, t);
    forall j | 0 <= j < |front| ensures !Names(parts, j, t.0) {
      assert Named(front, j, tags);
      var x :| 0 <= x < |tags| && Names(front, j, tags[x].0);
      assert Names(parts, j, tags[x].0);
      if Names(parts, j, t.0) { OneName(parts, j, tags[x].0, t.0); }
    }
  }

  lemma StillNamed(parts: seq<string>, i: int, before: seq<Tag>, tags: seq<Tag>)
    requires parts != [] && 0 <= i < |parts| - 1 && Named(parts[..|parts| - 1], i, before)
    requires |before| <= |tags| && forall x :: 0 <= x < |before| ==> tags[x].0 == before[x].0
    ensures Named(parts, i, tags)
  {
    var x :| 0 <= x < |before| && Names(parts[..|parts| - 1], i, before[x].0);
    assert Names(parts, i, tags[x].0);
  }

  lemma OthersStay(parts: seq<string>, n: nat, tags: seq<Tag>, firsts: seq<nat>, lasts: seq<nat>, t: Tag, p: nat)
    requires n < |parts| && n + 1 == |parts| && TagsOf(parts[..n], tags, firsts, lasts)
    requires ParseTag(parts[n]) == Some(t) && p <= |tags|
    requires (forall i :: 0 <= i < p ==> tags[i].0 != t.0) && (p < |tags| ==> tags[p].0 == t.0)
    ensures forall x :: 0 <= x < |tags| && x != p ==> TagFrom(parts, tags[x], firsts[x], lasts[x])
    ensures forall x :: 0 <= x < |tags| && x != p ==> tags[x].0 != t.0
  {
    hide ParseTag, Named, Names, TagFrom;
    NameOf(parts, n, t);
    forall x | 0 <= x < |tags| && x != p
      ensures TagFrom(parts, tags[x], firsts[x], lasts[x]) && tags[x].0 != t.0
    {
      OtherName(parts[..n], tags, firsts, lasts, t, x, p);
      NotNamed(parts, t, tags[x].0);
      TagLater(parts, tags[x], firsts[x], lasts[x]);
    }
  }

  lemma AllNamed(parts: seq<string>, n: nat, before: seq<Tag>, tags: seq<Tag>, p: nat, t: Tag)
    requires n < |parts| && n + 1 == |parts| && ParseTag(parts[n]) == Some(t)
    requires (forall i :: 0 <= i < n ==> Named(parts[..n], i, before)) && p < |tags| && tags[p] == t
    requires |before| <= |tags| && forall x :: 0 <= x < |before| ==> tags[x].0 == before[x].0
    ensures forall i :: 0 <= i < |parts| ==> Named(parts, i, tags)
  {
    hide ParseTag, Named, Names;
    NameOf(parts, n, t);
    LastNamed(parts, tags, p, t);
    forall i | 0 <= i < n ensures Named(parts, i, tags) { StillNamed(parts, i, before, tags); }
  }

  lemma TagReplaced(parts: seq<string>, n: nat, tags: seq<Tag>, firsts: seq<nat>, lasts: seq<nat>, t: Tag, p: nat)
    requires n < |parts| && n + 1 == |parts| && TagsOf(parts[..n], tags, firsts, lasts)
    requires ParseTag(parts[n]) == Some(t) && p < |tags|
    requires (forall i :: 0 <= i < p ==> tags[i].0 != t.0) && tags[p].0 == t.0
    ensures TagsOf(parts, tags[p := t], firsts, lasts[p := n])
  {
    hide ParseTag, TagFrom, Named, Names;
    OthersStay(parts, n, tags, firsts, lasts, t, p);
    AllNamed(parts, n, tags, tags[p := t], p, t);
    TagAgain(parts, tags[p], firsts[p], lasts[p], t);
  }

  lemma TagAppended(parts: seq<string>, n: nat, tags: seq<Tag>, firsts: seq<nat>, lasts: seq<nat>, t: Tag)
    requires n < |parts| && n + 1 == |parts| && TagsOf(parts[..n], tags, firsts, lasts)
    requires ParseTag(parts[n]) == Some(t) && forall i :: 0 <= i < |tags| ==> tags[i].0 != t.0
    ensures TagsOf(parts, tags + [t], firsts + [n], lasts + [n])
  {
    hide ParseTag, TagFrom, Named, Names;
    OthersStay(parts, n, tags, firsts, lasts, t, |tags|);
    AllNamed(parts, n, tags, tags + [t], |tags|, t);
    TagNew(parts, parts[..n], tags, t);
    FirstsBefore(parts[..n], tags, firsts, lasts);
  }

  /** Tags behind one another: a later one of the same name takes the earlier one's place. */
  lemma {:induction false} TagsRead(parts: seq<string>) returns (firsts: seq<nat>, lasts: seq<nat>)
    requires ParseTags(parts).Some?
    ensures TagsOf(parts, ParseTags(parts).value, firsts, lasts)
    decreases |parts|
  {
    hide ParseTag, SetTag, TagFrom, Named;
    if parts == [] {
      firsts, lasts := [], [];
    } else {
      var n := |parts| - 1;
      var front, t := ParseTags(parts[..n]).value, ParseTag(parts[n]).value;
      var fs, ls := TagsRead(parts[..n]);
      hide TagsOf;
      SameLengths(parts[..n], front, fs, ls);
      var p := SetTagAt(front, t);
      if p < |front| {
        TagReplaced(parts, n, front, fs, ls, t, p);
        firsts, lasts := fs, ls[p := n];
      } else {
        TagAppended(parts, n, front, fs, ls, t);
        firsts, lasts := fs + [n], ls + [n];
      }
    }
  }

  lemma SameLengths(parts: seq<string>, tags: seq<Tag>, firsts: seq<nat>, lasts: seq<nat>)
    requires TagsOf(parts, tags, firsts, lasts)
    ensures |firsts| == |lasts| == |tags|
  {
  }

  lemma LastNamed(parts: seq<string>, tags: seq<Tag>, p: nat, t: Tag)
    requires parts != [] && Names(parts, |parts| - 1, t.0) && p < |tags| && tags[p] == t
    ensures Named(parts, |parts| - 1, tags)
  {
  }

  lemma NotNamed(parts: seq<string>, t: Tag, name: string)
    requires parts != [] && Names(parts, |parts| - 1, t.0) && name != t.0
    ensures !Names(parts, |parts| - 1, name)
  {
    if Names(parts, |parts| - 1, name) { OneName(parts, |parts| - 1, name, t.0); }
  }

  lemma OtherName(parts: seq<string>, tags: seq<Tag>, firsts: seq<nat>, lasts: seq<nat>, t: Tag, x: nat, p: nat)
    requires TagsOf(parts, tags, firsts, lasts) && x < |tags| && x != p
    requires forall i :: 0 <= i < p && i < |tags| ==> tags[i].0 != t.0
    requires p < |tags| ==> tags[p].0 == t.0
    ensures tags[x].0 != t.0
  {
    assert TagFrom(parts, tags[x], firsts[x], lasts[x]);
    assert p < x ==> TagFrom(parts, tags[p], firsts[p], lasts[p]) && firsts[p] < firsts[x];
  }

  lemma FirstsBefore(parts: seq<string>, tags: seq<Tag>, firsts: seq<nat>, lasts: seq<nat>)
    requires TagsOf(parts, tags, firsts, lasts)
    ensures forall x :: 0 <= x < |firsts| ==> firsts[x] < |parts|
  {
    forall x | 0 <= x < |firsts| ensures firsts[x] < |parts| { assert TagFrom(parts, tags[x], firsts[x], lasts[x]); }
  }

  lemma {:induction false} TagsReadIff(parts: seq<string>)
    ensures ParseTags(parts).Some? <==> forall i :: 0 <= i < |parts| ==> '%' in parts[i]
    decreases |parts|
  {
    hide SetTag;
    if parts != [] {
      var n := |parts| - 1;
      TagsReadIff(parts[..n]);
      assert forall i :: 0 <= i < n ==> parts[..n][i] == parts[i];
    }
  }

  // ----- keys read -----

  /** The key these parts stand for. */
  ghost predicate PartsOf(parts: seq<string>, layered: bool, k: Key) {
    var n := if layered then 6 else 5;
    && |parts| >= n && parts[0] == k.model && k.layer.Some? == layered
    && IsText(parts[1], 10, k.worldSize) && IsText(parts[2], 10, k.workerId) && IsText(parts[3], 16, k.chunkHash)
    && parts[4] == DTypeName(k.dtype) && NamedBack(k.dtype)
    && (layered ==> IsText(parts[5], 10, k.layer.value))
    && exists firsts, lasts :: TagsOf(parts[n..], k.tags, firsts, lasts)
  }

  /** Every part is there and can be read. */
  ghost predicate Readable(parts: seq<string>, layered: bool) {
    var n := if layered then 6 else 5;
    && |parts| >= n
    && IsNumber(parts[1], 10) && IsNumber(parts[2], 10) && IsNumber(parts[3], 16)
    && (layered ==> IsNumber(parts[5], 10))
    && (exists d :: NamedBack(d) && parts[4] == DTypeName(d))
    && forall i :: n <= i < |parts| ==> '%' in parts[i]
  }

  ghost predicate IsNumber(s: string, base: nat) {
    exists n: int :: IsText(s, base, n)
  }

  lemma NumberIff(s: string, base: nat)
    requires BaseOk(base)
    ensures ParseInt(s, base).Some? <==> IsNumber(s, base)
    ensures ParseInt(s, base).Some? ==> IsText(s, base, ParseInt(s, base).value)
  {
    hide ParseInt, IsText;
    forall n: int ensures ParseInt(s, base) == Some(n) <==> IsText(s, base, n) { ParseIntIff(s, base, n); }
    if ParseInt(s, base).Some? { assert IsText(s, base, ParseInt(s, base).value); }
  }

  lemma DTypeIff(s: string)
    ensures DTypeOf(s).Some? <==> exists d :: NamedBack(d) && s == DTypeName(d)
    ensures DTypeOf(s).Some? ==> NamedBack(DTypeOf(s).value) && s == DTypeName(DTypeOf(s).value)
  {
    if DTypeOf(s).Some? {
      var d := DTypeOf(s).value;
      assert NamedBack(d) && s == DTypeName(d);
    }
  }

  lemma PartsRead(parts: seq<string>, layered: bool)
    ensures FromParts(parts, layered).Some? <==> Readable(parts, layered)
    ensures FromParts(parts, layered).Some? ==> PartsOf(parts, layered, FromParts(parts, layered).value)
  {
    hide ParseInt, ParseTags, DTypeOf, DTypeName, IsText, IsNumber, TagsOf;
    var n := if layered then 6 else 5;
    if |parts| >= n {
      NumberIff(parts[1], 10);
      NumberIff(parts[2], 10);
      NumberIff(parts[3], 16);
      if layered { NumberIff(parts[5], 10); }
      DTypeIff(parts[4]);
      TagsReadIff(parts[n..]);
      assert (forall i :: n <= i < |parts| ==> '%' in parts[i]) <==> ParseTags(parts[n..]).Some? by {
        assert forall i :: 0 <= i < |parts| - n ==> parts[n..][i] == parts[n + i];
        assert forall i :: n <= i < |parts| ==> parts[i] == parts[n..][i - n];
      }
      if ParseTags(parts[n..]).Some? {
        var firsts, lasts := TagsRead(parts[n..]);
      }
    }
  }

  /** `from_string` accepts a string exactly when the parts between its at signs can be read,
      and then returns a key they stand for. */
  lemma StringRead(s: string, layered: bool)
    ensures FromString(s, layered).Some? <==> Readable(Split(s, '@'), layered)
    ensures FromString(s, layered).Some? ==> PartsOf(Split(s, '@'), layered, FromString(s, layered).value)
    ensures Join(Split(s, '@'), '@') == s && AllAvoid(Split(s, '@'), '@')
  {
    hide FromParts, Readable, PartsOf, Split, Join;
    PartsRead(Split(s, '@'), layered);
    JoinSplit(s, '@');
    SplitAvoids(s, '@');
  }
}
