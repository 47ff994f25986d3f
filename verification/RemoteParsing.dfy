/** The binary messages of the remote backends byte by byte: which buffers are read, and as what. */
module RemoteParsing {
  import opened Options
  import opened Bytes
  import opened KeyField
  import opened CacheKeys
  import opened RemoteProtocol

  /** The number on the wire and the dtype it is read as; 1 is an older number of half. */
  predicate DTypeNumber(v: int, d: Option<DType>) {
    match d
    case None => v == 0
    case Some(Half) => v == 1 || v == 2
    case Some(BFloat16) => v == 3
    case Some(Float) => v == 4
    case Some(Double) => v == 5
    case Some(UInt8) => v == 6
    case Some(Float8E4M3FN) => v == 7
    case Some(Float8E5M2) => v == 8
    case Some(_) => false
  }

  predicate LocationNumber(v: int, l: Location) {
    match l case NoLocation => v == 0 case LocalCPU => v == 1 case LocalDisk => v == 2
  }

  /** Dtypes are written under their number, half under 2, and the others not at all. */
  lemma CodesAreNumbers(d: Option<DType>, v: int)
    ensures CodeDType(v) == Some(d) <==> DTypeNumber(v, d)
    ensures DTypeCode(d) == Some(v) <==> DTypeNumber(v, d) && v != 1
  {
  }

  lemma LocationsAreNumbers(l: Location, v: int)
    ensures CodeLocation(v) == Some(l) <==> LocationNumber(v, l)
    ensures LocationCode(l) == v <==> LocationNumber(v, l)
  {
  }

  lemma {:induction false} UnpackedAt(s: seq<Byte>, n: nat, i: nat)
    requires |s| >= 4 * n && i < n
    ensures UnpackAll(s, n)[i] == IntAt(s, 4 * i)
    decreases n
  {
    hide UnpackInt;
    if i == 0 {
      IntRead(s, 0);
    } else {
      UnpackedAt(s[4..], n - 1, i - 1);
      SameInt(s, 4 * (i - 1));
    }
  }

  lemma SameInt(s: seq<Byte>, i: nat)
    requires i + 8 <= |s|
    ensures IntAt(s[4..], i) == IntAt(s, i + 4)
  {
  }

  // ----- the metadata of stored objects -----

  /** Group g takes five integers: its dtype and its four dimensions. */
  ghost predicate GroupAt(s: seq<Byte>, at: nat, shape: Shape, dtype: Option<DType>)
    requires at + 20 <= |s|
  {
    DTypeNumber(IntAt(s, at), dtype)
    && shape == [IntAt(s, at + 4), IntAt(s, at + 8), IntAt(s, at + 12), IntAt(s, at + 16)]
  }

  ghost predicate MetadataAt(s: seq<Byte>, numGroups: nat, formats: set<int>, m: RemoteMetadata) {
    && |s| >= 8 + 20 * numGroups && |m.shapes| == |m.dtypes| == numGroups
    && m.length == IntAt(s, 0) && m.fmt == IntAt(s, 4) && m.fmt in formats
    && forall g :: 0 <= g < numGroups ==> GroupAt(s, 8 + 20 * g, m.shapes[g], m.dtypes[g])
  }

  lemma GroupRead(s: seq<Byte>, n: nat, g: nat, shape: Shape, dtype: Option<DType>)
    requires |s| >= 4 * n && n >= 2 + 5 * (g + 1)
    ensures var v := UnpackAll(s, n);
            (CodeDType(v[2 + 5 * g]) == Some(dtype) && GroupShape(v, 2 + 5 * g) == shape)
            <==> GroupAt(s, 8 + 20 * g, shape, dtype)
  {
    hide UnpackAll, IntAt, CodeDType, DTypeNumber;
    var v, i := UnpackAll(s, n), 2 + 5 * g;
    CodesAreNumbers(dtype, v[i]);
    UnpackedAt(s, n, i);
    UnpackedAt(s, n, i + 1);
    UnpackedAt(s, n, i + 2);
    UnpackedAt(s, n, i + 3);
    UnpackedAt(s, n, i + 4);
    assert GroupShape(v, i) == [v[i + 1], v[i + 2], v[i + 3], v[i + 4]];
  }

  /** Group g of the integers. */
  predicate GroupIs(v: seq<int>, g: nat, shape: Shape, dtype: Option<DType>)
    requires |v| >= 2 + 5 * (g + 1)
  {
    CodeDType(v[2 + 5 * g]) == Some(dtype) && GroupShape(v, 2 + 5 * g) == shape
  }

  lemma SnocIs<T>(front: seq<T>, x: T, s: seq<T>)
    ensures front + [x] == s <==> |s| == |front| + 1 && s[..|front|] == front && s[|front|] == x
  {
    if |s| == |front| + 1 { assert s == s[..|front|] + [s[|front|]]; }
  }

  lemma {:induction false} GroupsRead(v: seq<int>, groups: nat, shapes: seq<Shape>, dtypes: seq<Option<DType>>)
    requires |v| >= 2 + 5 * groups
    ensures ReadShapes(v, groups) == shapes && ReadDTypes(v, groups) == Some(dtypes)
            <==> && |shapes| == |dtypes| == groups
                 && forall g :: 0 <= g < groups ==> GroupIs(v, g, shapes[g], dtypes[g])
    decreases groups
  {
    hide CodeDType, GroupShape;
    if groups > 0 {
      var n := groups - 1;
      var shape, dtype := GroupShape(v, 2 + 5 * n), CodeDType(v[2 + 5 * n]);
      var front, names := ReadShapes(v, n), ReadDTypes(v, n);
      SnocIs(front, shape, shapes);
      if names.Some? && dtype.Some? { SnocIs(names.value, dtype.value, dtypes); }
      if |shapes| == |dtypes| == groups {
        GroupsRead(v, n, shapes[..n], dtypes[..n]);
        hide ReadShapes, ReadDTypes, GroupIs;
        FrontGroups(v, n, shapes, dtypes);
      }
    }
  }

  lemma FrontGroups(v: seq<int>, n: nat, shapes: seq<Shape>, dtypes: seq<Option<DType>>)
    requires |v| >= 2 + 5 * (n + 1) && |shapes| == |dtypes| == n + 1
    ensures (forall g :: 0 <= g <= n ==> GroupIs(v, g, shapes[g], dtypes[g]))
            <==> (forall g :: 0 <= g < n ==> GroupIs(v, g, shapes[..n][g], dtypes[..n][g]))
                 && GroupIs(v, n, shapes[n], dtypes[n])
  {
    hide GroupIs;
    assert forall g :: 0 <= g < n ==> shapes[..n][g] == shapes[g] && dtypes[..n][g] == dtypes[g];
  }

  /** A buffer is read as metadata exactly when it holds, from its beginning on, the length, a known
      memory format, and for each group its dtype and its four dimensions, all in four bytes. */
  lemma MetadataReadIff(s: seq<Byte>, numGroups: nat, formats: set<int>, m: RemoteMetadata)
    ensures Deserialize(s, numGroups, formats) == Some(m) <==> MetadataAt(s, numGroups, formats, m)
  {
    hide UnpackAll, IntAt, ReadShapes, ReadDTypes, GroupAt, GroupIs;
    var n := 2 + 5 * numGroups;
    if |s| >= 4 * n {
      var v := UnpackAll(s, n);
      UnpackedAt(s, n, 0);
      UnpackedAt(s, n, 1);
      GroupsRead(v, numGroups, m.shapes, m.dtypes);
      if |m.shapes| == |m.dtypes| == numGroups {
        forall g | 0 <= g < numGroups
          ensures GroupIs(v, g, m.shapes[g], m.dtypes[g]) <==> GroupAt(s, 8 + 20 * g, m.shapes[g], m.dtypes[g])
        {
          GroupReadBoth(s, n, g, m.shapes[g], m.dtypes[g]);
        }
      }
    }
  }

  lemma GroupReadBoth(s: seq<Byte>, n: nat, g: nat, shape: Shape, dtype: Option<DType>)
    requires |s| >= 4 * n && n >= 2 + 5 * (g + 1)
    ensures GroupIs(UnpackAll(s, n), g, shape, dtype) <==> GroupAt(s, 8 + 20 * g, shape, dtype)
  {
    hide UnpackAll, IntAt, GroupAt;
    GroupRead(s, n, g, shape, dtype);
  }

  /** What is written is laid out like that. */
  lemma MetadataWritten(m: RemoteMetadata, numGroups: nat)
    requires Serialize(m, numGroups).Some?
    ensures MetadataAt(Serialize(m, numGroups).value, numGroups, {m.fmt}, m)
  {
    hide Serialize, Deserialize, MetadataAt;
    MetadataRoundTrip(m, numGroups, {m.fmt}, []);
    var s := Serialize(m, numGroups).value;
    assert s + [] == s;
    MetadataReadIff(s, numGroups, {m.fmt}, m);
  }

  // ----- the messages -----

  /** Shape, dtype and location at their places in the nine integers. */
  ghost predicate FieldsAt(s: seq<Byte>, fmt: int, dtype: Option<DType>, length: int)
    requires |s| >= 36
  {
    length == IntAt(s, 4) && fmt == IntAt(s, 8) && DTypeNumber(IntAt(s, 12), dtype)
  }

  /** The key is what `parse_cache_key` makes of the text in the key field. */
  ghost predicate KeyAt(b: seq<Byte>, key: Key) {
    exists text :: KeyBytes(b, text) && ParseCacheKey(text) == Some(key)
  }

  lemma NineInts(s: seq<Byte>)
    requires |s| >= 36
    ensures forall i :: 0 <= i < 9 ==> UnpackAll(s, 9)[i] == IntAt(s, 4 * i)
  {
    hide UnpackAll, IntAt;
    forall i | 0 <= i < 9 ensures UnpackAll(s, 9)[i] == IntAt(s, 4 * i) { UnpackedAt(s, 9, i); }
  }

  lemma KeyAtIff(b: seq<Byte>, key: Key)
    ensures KeyAt(b, key) <==> ReadKey(b).Some? && ParseCacheKey(ReadKey(b).value) == Some(key)
  {
    hide ReadKey, KeyBytes, ParseCacheKey;
    forall text ensures ReadKey(b) == Some(text) <==> KeyBytes(b, text) { KeyReadIff(b, text); }
  }

  /** A client message is read exactly from 186 bytes: the command, 1 to 5, length, format, dtype,
      location and the four dimensions, and then the key. */
  lemma ClientReadIff(s: seq<Byte>, formats: set<int>, m: ClientMessage)
    ensures DeserializeClient(s, formats) == Some(m) <==>
              && |s| == 186 && 1 <= m.command == IntAt(s, 0) <= 5 && FieldsAt(s, m.fmt, m.dtype, m.length)
              && m.fmt in formats && LocationNumber(IntAt(s, 16), m.location)
              && m.shape == [IntAt(s, 20), IntAt(s, 24), IntAt(s, 28), IntAt(s, 32)] && KeyAt(s[36..], m.key)
  {
    hide UnpackAll, IntAt, CodeDType, DTypeNumber, CodeLocation, LocationNumber, ReadKey, KeyAt, ParseCacheKey;
    if |s| == 186 {
      NineInts(s);
      var v := UnpackAll(s, 9);
      CodesAreNumbers(m.dtype, v[3]);
      LocationsAreNumbers(m.location, v[4]);
      KeyAtIff(s[36..], m.key);
      assert v[5..9] == [IntAt(s, 20), IntAt(s, 24), IntAt(s, 28), IntAt(s, 32)] by {
        assert v[5..9] == [v[5], v[6], v[7], v[8]];
      }
    }
  }

  /** A server message is read exactly from 36 bytes: the code, length, format, dtype, the four
      dimensions and the location. */
  lemma ServerReadIff(s: seq<Byte>, formats: set<int>, m: ServerMessage)
    ensures DeserializeServer(s, formats) == Some(m) <==>
              && |s| == 36 && IntAt(s, 0) == (if m.success then 200 else 400) && FieldsAt(s, m.fmt, m.dtype, m.length)
              && m.fmt in formats && LocationNumber(IntAt(s, 32), m.location)
              && m.shape == [IntAt(s, 16), IntAt(s, 20), IntAt(s, 24), IntAt(s, 28)]
  {
    hide UnpackAll, IntAt, CodeDType, DTypeNumber, CodeLocation, LocationNumber;
    if |s| == 36 {
      NineInts(s);
      var v := UnpackAll(s, 9);
      CodesAreNumbers(m.dtype, v[3]);
      LocationsAreNumbers(m.location, v[8]);
      assert v[4..8] == [IntAt(s, 16), IntAt(s, 20), IntAt(s, 24), IntAt(s, 28)] by {
        assert v[4..8] == [v[4], v[5], v[6], v[7]];
      }
    }
  }
}
