/** Cache keys and their string forms. Chunk hashes are integers; tag values are strings. */
module CacheKeys {
  import opened Options
  import opened Whitespace
  import opened Numerals
  import opened Splitting

  // ----- the dtype table -----

  datatype DType =
    | Half | BFloat16 | Float | Double | Int8 | UInt8 | Int16 | Int32 | Int64 | Bool
    | Float8E4M3FN | Float8E4M3FNUZ | Float8E5M2 | Float8E5M2FNUZ

  function DTypeName(d: DType): string {
    match d
    case Half => "half"
    case BFloat16 => "bfloat16"
    case Float => "float"
    case Double => "double"
    case Int8 => "int8"
    case UInt8 => "uint8"
    case Int16 => "int16"
    case Int32 => "int32"
    case Int64 => "int64"
    case Bool => "bool"
    case Float8E4M3FN => "fp8_e4m3"
    case Float8E4M3FNUZ => "fp8_e4m3"
    case Float8E5M2 => "fp8_e5m2"
    case Float8E5M2FNUZ => "fp8_e5m2"
  }

  /** The reversed dictionary: of two dtypes with one name the later entry wins. */
  function DTypeOf(s: string): Option<DType> {
    if s == "half" then Some(Half)
    else if s == "bfloat16" then Some(BFloat16)
    else if s == "float" then Some(Float)
    else if s == "double" then Some(Double)
    else if s == "int8" then Some(Int8)
    else if s == "uint8" then Some(UInt8)
    else if s == "int16" then Some(Int16)
    else if s == "int32" then Some(Int32)
    else if s == "int64" then Some(Int64)
    else if s == "bool" then Some(Bool)
    else if s == "fp8_e4m3" then Some(Float8E4M3FNUZ)
    else if s == "fp8_e5m2" then Some(Float8E5M2FNUZ)
    else None
  }

  /** The dtypes a name leads back to. */
  predicate NamedBack(d: DType) {
    d != Float8E4M3FN && d != Float8E5M2
  }

  lemma DTypeRoundTripIff(d: DType)
    ensures DTypeOf(DTypeName(d)).Some?
    ensures DTypeOf(DTypeName(d)) == Some(d) <==> NamedBack(d)
  {
  }

  // ----- keys -----

  type Tag = (string, string)

  /** A plain key, or with `layer` the key of one layer. `tags` is empty where the source
      has None: it never holds an empty tuple. */
  datatype Key = Key(model: string, worldSize: int, workerId: int, chunkHash: int, dtype: DType,
                     tags: seq<Tag>, layer: Option<int>)

  function TagText(t: Tag): string { t.0 + "%" + t.1 }

  function TagTexts(tags: seq<Tag>): (r: seq<string>)
    ensures |r| == |tags|
  {
    seq(|tags|, i requires 0 <= i < |tags| => TagText(tags[i]))
  }

  function Fields(k: Key): (r: seq<string>)
    ensures |r| == 5 + (if k.layer.Some? then 1 else 0) + |k.tags|
  {
    [k.model, Show(k.worldSize, 10), Show(k.workerId, 10), Show(k.chunkHash, 16), DTypeName(k.dtype)]
    + (if k.layer.Some? then [Show(k.layer.value, 10)] else [])
    + TagTexts(k.tags)
  }

  /** `to_string` of `CacheEngineKey` and, with a layer, of `LayerCacheEngineKey`. */
  function ToString(k: Key): string {
    Join(Fields(k), '@')
  }

  /** One `kv.split("%", 1)`; None when there is no percent sign. */
  function ParseTag(s: string): Option<Tag> {
    var i := IndexOf(s, '%');
    if i == |s| then None else Some((s[..i], s[i + 1..]))
  }

  /** Setting a key of the ordered `request_configs` dictionary. */
  function SetTag(tags: seq<Tag>, t: Tag): seq<Tag> {
    if tags == [] then [t]
    else if tags[0].0 == t.0 then [t] + tags[1..]
    else [tags[0]] + SetTag(tags[1..], t)
  }

  function ParseTags(parts: seq<string>): Option<seq<Tag>> {
    if parts == [] then Some([])
    else
      var n := |parts| - 1;
      var front, last := ParseTags(parts[..n]), ParseTag(parts[n]);
      if front.None? || last.None? then None else Some(SetTag(front.value, last.value))
  }

  /** `from_string`, for plain keys and for layer keys; None stands for its exceptions. */
  function FromString(s: string, layered: bool): Option<Key> {
    FromParts(Split(s, '@'), layered)
  }

  function FromParts(parts: seq<string>, layered: bool): Option<Key> {
    var fixedParts := if layered then 6 else 5;
    if |parts| < fixedParts then None
    else
      var tags := ParseTags(parts[fixedParts..]);
      var worldSize, workerId, chunkHash := ParseInt(parts[1], 10), ParseInt(parts[2], 10), ParseInt(parts[3], 16);
      var dtype := DTypeOf(parts[4]);
      var layer := if layered then ParseInt(parts[5], 10) else None;
      if tags.None? || worldSize.None? || workerId.None? || chunkHash.None? || dtype.None?
         || (layered && layer.None?)
      then None
      else Some(Key(parts[0], worldSize.value, workerId.value, chunkHash.value, dtype.value, tags.value, layer))
  }

  /** The keys that survive their string form. */
  ghost predicate Stringable(k: Key) {
    && Avoids(k.model, '@') && NamedBack(k.dtype)
    && (forall i :: 0 <= i < |k.tags| ==> GoodTag(k.tags[i]))
    && DistinctNames(k.tags)
  }

  predicate GoodTag(t: Tag) {
    Avoids(t.0, '@') && Avoids(t.0, '%') && Avoids(t.1, '@')
  }

  ghost predicate DistinctNames(tags: seq<Tag>) {
    forall i, j :: 0 <= i < j < |tags| ==> tags[i].0 != tags[j].0
  }

  lemma LayerComesLast(k: Key)
    requires k.layer.Some? && k.tags == []
    ensures ToString(k.(layer := None)) < ToString(k)
  {
    hide Join, Show, DTypeName;
    var plain := Fields(k.(layer := None));
    assert Fields(k) == plain + [Show(k.layer.value, 10)];
    JoinAppend(plain, Show(k.layer.value, 10), '@');
  }

  // ----- everything parsed is stringable -----

  lemma {:induction false} SetTagKeeps(tags: seq<Tag>, t: Tag)
    requires DistinctNames(tags)
    ensures DistinctNames(SetTag(tags, t))
    ensures forall x :: x in SetTag(tags, t) ==> x == t || x in tags
    ensures forall i :: 0 <= i < |SetTag(tags, t)| ==>
              SetTag(tags, t)[i].0 == t.0 || exists j :: 0 <= j < |tags| && tags[j].0 == SetTag(tags, t)[i].0
    decreases |tags|
  {
    if tags != [] && tags[0].0 != t.0 {
      var rest := tags[1..];
      SetTagKeeps(rest, t);
      var r := SetTag(rest, t);
      forall i | 0 <= i < |r| ensures r[i].0 != tags[0].0 {
        if r[i].0 != t.0 {
          var j :| 0 <= j < |rest| && rest[j].0 == r[i].0;
          assert tags[j + 1] == rest[j];
        }
      }
    }
  }

  lemma TagIsGood(s: string)
    requires Avoids(s, '@') && ParseTag(s).Some?
    ensures GoodTag(ParseTag(s).value)
  {
  }

  lemma {:induction false} ParsedTagsAreGood(parts: seq<string>)
    requires AllAvoid(parts, '@') && ParseTags(parts).Some?
    ensures DistinctNames(ParseTags(parts).value)
    ensures forall x :: x in ParseTags(parts).value ==> GoodTag(x)
    decreases |parts|
  {
    if parts != [] {
      var n := |parts| - 1;
      assert AllAvoid(parts[..n], '@') by { assert forall i :: 0 <= i < n ==> parts[..n][i] == parts[i]; }
      ParsedTagsAreGood(parts[..n]);
      TagIsGood(parts[n]);
      SetTagKeeps(ParseTags(parts[..n]).value, ParseTag(parts[n]).value);
    }
  }

  lemma ReversedTableNamesBack(s: string)
    ensures DTypeOf(s).Some? ==> NamedBack(DTypeOf(s).value)
  {
  }

  lemma ParsedIsStringable(s: string, layered: bool)
    requires FromString(s, layered).Some?
    ensures Stringable(FromString(s, layered).value)
  {
    hide Split, ParseTags, ParseInt, DTypeOf, GoodTag;
    var parts := Split(s, '@');
    var from := if layered then 6 else 5;
    SplitAvoids(s, '@');
    ReversedTableNamesBack(parts[4]);
    assert AllAvoid(parts[from..], '@') by {
      assert forall i :: 0 <= i < |parts| - from ==> parts[from..][i] == parts[from + i];
    }
    ParsedTagsAreGood(parts[from..]);
  }

  // ----- stringable keys parse back -----

  lemma {:induction false} SetTagNew(tags: seq<Tag>, t: Tag)
    requires forall i :: 0 <= i < |tags| ==> tags[i].0 != t.0
    ensures SetTag(tags, t) == tags + [t]
    decreases |tags|
  {
    if tags != [] { SetTagNew(tags[1..], t); }
  }

  lemma TagRoundTrip(t: Tag)
    requires Avoids(t.0, '%')
    ensures ParseTag(TagText(t)) == Some(t)
  {
    var s := TagText(t);
    assert s == t.0 + ['%'] + t.1;
    IndexOfFirst(t.0, '%', t.1);
    assert s[..|t.0|] == t.0 && s[|t.0| + 1..] == t.1;
  }

  lemma {:induction false} TagsRoundTrip(tags: seq<Tag>)
    requires DistinctNames(tags) && forall i :: 0 <= i < |tags| ==> Avoids(tags[i].0, '%')
    ensures ParseTags(TagTexts(tags)) == Some(tags)
    decreases |tags|
  {
    hide TagText, ParseTag;
    if tags != [] {
      var n := |tags| - 1;
      var front := tags[..n];
      assert forall i :: 0 <= i < n ==> front[i] == tags[i];
      TagsRoundTrip(front);
      assert TagTexts(tags)[..n] == TagTexts(front);
      TagRoundTrip(tags[n]);
      SetTagNew(front, tags[n]);
      assert tags == front + [tags[n]];
    }
  }

  lemma ShowAvoids(n: int, base: nat, c: char)
    requires BaseOk(base) && c != '-' && !IsDigit(c, base)
    ensures Avoids(Show(n, base), c)
  {
    var s := Show(n, base);
    assert forall i :: 0 <= i < |s| ==> s[i] == '-' || IsDigit(s[i], base);
  }

  lemma FieldsAvoid(k: Key)
    requires Avoids(k.model, '@') && forall i :: 0 <= i < |k.tags| ==> Avoids(TagText(k.tags[i]), '@')
    ensures AllAvoid(Fields(k), '@')
  {
    hide Show, DTypeName, TagText;
    FixedFieldsAvoid(k);
    if k.layer.Some? { ShowAvoids(k.layer.value, 10, '@'); }
  }

  lemma FixedFieldsAvoid(k: Key)
    ensures Avoids(Show(k.worldSize, 10), '@') && Avoids(Show(k.workerId, 10), '@')
            && Avoids(Show(k.chunkHash, 16), '@')
    ensures Avoids(DTypeName(k.dtype), '@')
  {
    ShowAvoids(k.worldSize, 10, '@');
    ShowAvoids(k.workerId, 10, '@');
    ShowAvoids(k.chunkHash, 16, '@');
    hide Show;
  }

  /** The string form inverts exactly on the stringable keys, layered or not: a model name
      or tag with the separators in it, a repeated tag name or a dtype that shares its name
      with a later one does not come back. */
  lemma KeyRoundTripIff(k: Key)
    ensures FromString(ToString(k), k.layer.Some?) == Some(k) <==> Stringable(k)
  {
    if Stringable(k) {
      KeyRoundTrip(k);
    } else if FromString(ToString(k), k.layer.Some?) == Some(k) {
      ParsedIsStringable(ToString(k), k.layer.Some?);
    }
  }

  lemma StringFields(k: Key)
    requires Stringable(k)
    ensures Split(ToString(k), '@') == Fields(k)
  {
    hide Show, DTypeName, Split, Join, NamedBack, DistinctNames;
    forall i | 0 <= i < |k.tags| ensures Avoids(TagText(k.tags[i]), '@') {
      assert GoodTag(k.tags[i]);
    }
    FieldsAvoid(k);
    SplitJoin(Fields(k), '@');
  }

  lemma KeyRoundTrip(k: Key)
    requires Stringable(k)
    ensures FromString(ToString(k), k.layer.Some?) == Some(k)
  {
    hide Show, DTypeName, DTypeOf, ParseInt, Split, Join, ParseTags;
    StringFields(k);
    var parts := Fields(k);
    var from := if k.layer.Some? then 6 else 5;
    assert parts[from..] == TagTexts(k.tags);
    TagsRoundTrip(k.tags) by {
      assert forall i :: 0 <= i < |k.tags| ==> GoodTag(k.tags[i]);
    }
    ShowParse(k.worldSize, 10);
    ShowParse(k.workerId, 10);
    ShowParse(k.chunkHash, 16);
    if k.layer.Some? { ShowParse(k.layer.value, 10); }
    DTypeRoundTripIff(k.dtype);
  }

  // ----- parse_cache_key -----

  /** The layer branch is taken when the fifth field is a number. */
  function ParseCacheKey(s: string): Option<Key> {
    var parts := Split(Strip(s), '@');
    if |parts| >= 5 && IsDigits(parts[4]) then FromString(s, true) else FromString(s, false)
  }

  lemma NumbersNameNoDType(b: string, s: string)
    requires IsDigits(b) && b <= s
    ensures DTypeOf(s).None?
  {
    assert '0' <= s[0] <= '9';
  }

  /** No string makes the layer branch succeed, so parsing is plain parsing: behind a number
      in the fifth field there is no dtype. */
  lemma ParsingIsPlain(s: string)
    ensures ParseCacheKey(s) == FromString(s, false)
  {
    hide Strip, Split, DTypeOf, IsDigits, ParseTags, ParseInt;
    var trimmed, parts := Split(Strip(s), '@'), Split(s, '@');
    SplitStripped(s, '@');
    if |trimmed| >= 5 && IsDigits(trimmed[4]) {
      NumbersNameNoDType(trimmed[4], parts[4]);
    }
  }

  /** `parse_cache_key` inverts the string form of plain keys, exactly the stringable ones. */
  lemma ParseInvertsPlainIff(k: Key)
    requires k.layer.None?
    ensures ParseCacheKey(ToString(k)) == Some(k) <==> Stringable(k)
  {
    ParsingIsPlain(ToString(k));
    KeyRoundTripIff(k);
  }

  lemma {:induction false} NoPercentNoTags(parts: seq<string>, i: nat)
    requires i < |parts| && Avoids(parts[i], '%')
    ensures ParseTags(parts) == None
    decreases |parts|
  {
    if i < |parts| - 1 { NoPercentNoTags(parts[..|parts| - 1], i); }
  }

  lemma PlainNeedsPercents(s: string, i: nat)
    requires 5 <= i < |Split(s, '@')| && Avoids(Split(s, '@')[i], '%')
    ensures FromString(s, false) == None
  {
    hide Split, ParseTags, ParseInt, DTypeOf;
    var parts := Split(s, '@');
    assert parts[5..][i - 5] == parts[i];
    NoPercentNoTags(parts[5..], i - 5);
  }

  /** The layer number of a key's string is one of the parts that must be tags for a plain
      parse, whatever the model name is split into. */
  lemma LayerFieldAppears(k: Key) returns (i: nat)
    requires k.layer.Some?
    ensures 5 <= i < |Split(ToString(k), '@')| && Avoids(Split(ToString(k), '@')[i], '%')
  {
    hide Join, Split, Show, DTypeName, TagTexts;
    var f := Fields(k);
    assert f[5] == Show(k.layer.value, 10);
    ShowAvoids(k.layer.value, 10, '@');
    ShowAvoids(k.layer.value, 10, '%');
    i := PartAppears(f, '@', 5);
  }

  /** The string of a layer key is rejected, never turned into a plain key: it is parsed as
      a plain key, one of whose tags would have to be the layer number. */
  lemma LayerKeysAreRejected(k: Key)
    requires k.layer.Some?
    ensures ParseCacheKey(ToString(k)) == None
  {
    hide Split, ToString, FromString, ParseCacheKey;
    var i := LayerFieldAppears(k);
    PlainNeedsPercents(ToString(k), i);
    ParsingIsPlain(ToString(k));
  }

  /** Nor does stripping the string first help. */
  lemma StrippedLayerKeysAreRejected(k: Key)
    requires k.layer.Some?
    ensures ParseCacheKey(Strip(ToString(k))) == None
  {
    hide Split, ToString, FromString, ParseCacheKey, Strip;
    var i := LayerFieldAppears(k);
    SplitStripped(ToString(k), '@');
    PlainNeedsPercents(Strip(ToString(k)), i);
    ParsingIsPlain(Strip(ToString(k)));
  }

  // ----- stripped strings -----

  lemma {:induction false} SetTagSize(tags: seq<Tag>, t: Tag)
    ensures |tags| <= |SetTag(tags, t)| <= |tags| + 1
    ensures |SetTag(tags, t)| == |tags| + 1 ==> SetTag(tags, t) == tags + [t]
    decreases |tags|
  {
    if tags != [] && tags[0].0 != t.0 { SetTagSize(tags[1..], t); }
  }

  lemma ParsedTagText(s: string)
    requires ParseTag(s).Some?
    ensures TagText(ParseTag(s).value) == s
  {
    var i := IndexOf(s, '%');
    assert s == s[..i] + "%" + s[i + 1..];
  }

  /** Parsing merges tags of one name, and otherwise loses nothing. */
  lemma {:induction false} ParsedTagTexts(parts: seq<string>)
    requires ParseTags(parts).Some?
    ensures |ParseTags(parts).value| <= |parts|
    ensures |ParseTags(parts).value| == |parts| ==> TagTexts(ParseTags(parts).value) == parts
    decreases |parts|
  {
    hide ParseTag, TagText, SetTag;
    if parts != [] {
      var n := |parts| - 1;
      var front, last := ParseTags(parts[..n]).value, ParseTag(parts[n]).value;
      ParsedTagTexts(parts[..n]);
      SetTagSize(front, last);
      ParsedTagText(parts[n]);
      if |SetTag(front, last)| == |parts| {
        assert TagTexts(front + [last]) == TagTexts(front) + [TagText(last)];
        assert parts == parts[..n] + [parts[n]];
      }
    }
  }

  lemma OnlyItsNameNamesBack(s: string)
    requires DTypeOf(s).Some?
    ensures DTypeName(DTypeOf(s).value) == s
  {
  }

  /** At most as many parts, which agree in the numbers and parse to the key, are its own. */
  lemma SamePartsFromSameKey(parts: seq<string>, k: Key)
    requires k.layer.None? && FromParts(parts, false) == Some(k) && |parts| <= |Fields(k)|
    requires forall i :: 1 <= i < 4 ==> parts[i] == Fields(k)[i]
    ensures parts == Fields(k)
  {
    hide ParseTags, ParseInt, DTypeOf, DTypeName, Show, TagTexts;
    ParsedTagTexts(parts[5..]);
    OnlyItsNameNamesBack(parts[4]);
    assert parts == parts[..5] + parts[5..];
    assert parts[..5] == [parts[0], parts[1], parts[2], parts[3], parts[4]];
    assert Fields(k)[1] == Show(k.worldSize, 10) && Fields(k)[2] == Show(k.workerId, 10)
        && Fields(k)[3] == Show(k.chunkHash, 16);
  }

  /** No beginning of a plain key's string parses to the key unless stripping it leaves the
      whole string. */
  lemma PrefixIsTheString(t: string, k: Key)
    requires k.layer.None? && Stringable(k) && t <= ToString(k) && FromString(Strip(t), false) == Some(k)
    ensures Strip(t) == ToString(k)
  {
    hide Strip, Split, Join, FromParts, Fields, Show, GoodTag;
    StringFields(k);
    SplitStripped(t, '@');
    SplitPrefix(t, ToString(k), '@');
    EnoughParts(Split(Strip(t), '@'), k);
    SamePartsFromSameKey(Split(Strip(t), '@'), k);
    JoinSplit(Strip(t), '@');
  }

  lemma EnoughParts(parts: seq<string>, k: Key)
    requires FromParts(parts, false) == Some(k)
    ensures |parts| >= 5
  {
  }

  /** A plain key comes back from the stripped beginning of its string exactly when it is
      stringable, the beginning is all of it and the strip takes nothing away. */
  lemma StrippedParsesBackIff(t: string, k: Key)
    requires k.layer.None? && t <= ToString(k)
    ensures ParseCacheKey(Strip(t)) == Some(k) <==> Stringable(k) && t == ToString(k) && Trimmed(t)
  {
    hide Strip, Split, Join, Stringable, Trimmed, FromParts, Fields, ParseCacheKey, DTypeOf;
    TrimmedIsFixed(t);
    ParsingIsPlain(Strip(t));
    KeyRoundTripIff(k);
    if FromString(Strip(t), false) == Some(k) {
      ParsedIsStringable(Strip(t), false);
      PrefixIsTheString(t, k);
      StripShrinks(t);
      assert t == ToString(k)[..|t|];
    }
  }

  lemma NeverLayered(s: string)
    ensures ParseCacheKey(s).Some? ==> ParseCacheKey(s).value.layer.None?
  {
    hide Split, ParseTags, ParseInt, DTypeOf;
    ParsingIsPlain(s);
  }

  // ----- split_layers -----

  /** The keys of the layers 0 .. n - 1. */
  method SplitLayers(k: Key, numLayers: nat) returns (keys: seq<Key>)
    ensures |keys| == numLayers && forall i :: 0 <= i < numLayers ==> keys[i] == k.(layer := Some(i))
  {
    keys := [];
    for layerId := 0 to numLayers
      invariant |keys| == layerId && forall i :: 0 <= i < layerId ==> keys[i] == k.(layer := Some(i))
    {
      keys := keys + [k.(layer := Some(layerId))];
    }
  }

  /** Stringable keys with the same string are the same key, so layers never collide in a
      backend that files them by string, with each other or with a plain key. */
  lemma StringsDistinguish(a: Key, b: Key)
    requires Stringable(a) && Stringable(b) && ToString(a) == ToString(b)
    ensures a == b
  {
    hide FromString, ToString, ParseCacheKey, Stringable;
    KeyRoundTrip(a);
    KeyRoundTrip(b);
    if a.layer.Some? != b.layer.Some? {
      var layered, plain := if a.layer.Some? then a else b, if a.layer.Some? then b else a;
      LayerKeysAreRejected(layered);
      ParsingIsPlain(ToString(plain));
      assert false;
    }
  }
}
