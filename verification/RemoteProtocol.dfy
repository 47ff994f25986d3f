/** The binary metadata of the remote backends: `RemoteMetadata` and the version-1 client
    and server messages. Memory formats are an enumeration of another file; here they
    are their integer values, `formats` being the ones that exist. */
module RemoteProtocol {
  import opened Options
  import opened Whitespace
  import opened Splitting
  import opened Bytes
  import opened Utf8
  import opened KeyField
  import opened CacheKeys

  // ----- dtype and location codes -----

  /** `DTYPE_TO_INT`; None is the KeyError. `torch.half` is `torch.float16`, so the later
      entry's 2 is the code of both. */
  function DTypeCode(d: Option<DType>): Option<int> {
    if d.None? then Some(0)
    else match d.value
      case Half => Some(2)
      case BFloat16 => Some(3)
      case Float => Some(4)
      case Double => Some(5)
      case UInt8 => Some(6)
      case Float8E4M3FN => Some(7)
      case Float8E5M2 => Some(8)
      case _ => None
  }

  /** `INT_TO_DTYPE`; the outer None is the KeyError. */
  function CodeDType(v: int): Option<Option<DType>> {
    if v == 0 then Some(None)
    else if v == 1 || v == 2 then Some(Some(Half))
    else if v == 3 then Some(Some(BFloat16))
    else if v == 4 then Some(Some(Float))
    else if v == 5 then Some(Some(Double))
    else if v == 6 then Some(Some(UInt8))
    else if v == 7 then Some(Some(Float8E4M3FN))
    else if v == 8 then Some(Some(Float8E5M2))
    else None
  }

  lemma DTypeCodeRoundTrip(d: Option<DType>)
    requires DTypeCode(d).Some?
    ensures FitsInt32(DTypeCode(d).value) && CodeDType(DTypeCode(d).value) == Some(d)
  {
  }

  datatype Location = NoLocation | LocalCPU | LocalDisk

  function LocationCode(l: Location): int {
    match l case NoLocation => 0 case LocalCPU => 1 case LocalDisk => 2
  }

  function CodeLocation(v: int): Option<Location> {
    if v == 0 then Some(NoLocation) else if v == 1 then Some(LocalCPU) else if v == 2 then Some(LocalDisk) else None
  }

  // ----- lists of integers -----

  predicate AllFit32(v: seq<int>) {
    forall i :: 0 <= i < |v| ==> FitsInt32(v[i])
  }

  /** struct.pack("i" * n, *v) */
  function PackAll(v: seq<int>): (r: seq<Byte>)
    requires AllFit32(v)
    ensures |r| == 4 * |v|
  {
    if v == [] then [] else PackInt(v[0]) + PackAll(v[1..])
  }

  function UnpackAll(s: seq<Byte>, n: nat): (v: seq<int>)
    requires |s| >= 4 * n
    ensures |v| == n
  {
    if n == 0 then [] else [UnpackInt(s[..4])] + UnpackAll(s[4..], n - 1)
  }

  /** Unpacking the front of a buffer, whatever follows it. */
  lemma {:induction false} PackAllRoundTrip(v: seq<int>, more: seq<Byte>)
    requires AllFit32(v)
    ensures UnpackAll(PackAll(v) + more, |v|) == v
    decreases |v|
  {
    hide PackInt, UnpackInt;
    if v != [] {
      var s := PackAll(v) + more;
      PackedIntRoundTrip(v[0]);
      assert s[..4] == PackInt(v[0]) && s[4..] == PackAll(v[1..]) + more;
      PackAllRoundTrip(v[1..], more);
    }
  }

  // ----- RemoteMetadata -----

  type Shape = seq<int>

  datatype RemoteMetadata = RemoteMetadata(length: int, shapes: seq<Shape>, dtypes: seq<Option<DType>>, fmt: int)

  /** The five integers of one group; None for a wrong dimension or an unknown dtype. */
  function GroupParams(shape: Shape, dtype: Option<DType>): (r: Option<seq<int>>)
    ensures r.Some? ==> |r.value| == 5
  {
    if |shape| != 4 || DTypeCode(dtype).None? then None
    else Some([DTypeCode(dtype).value, shape[0], shape[1], shape[2], shape[3]])
  }

  function GroupsParams(shapes: seq<Shape>, dtypes: seq<Option<DType>>): (r: Option<seq<int>>)
    requires |shapes| == |dtypes|
    ensures r.Some? ==> |r.value| == 5 * |shapes|
  {
    if shapes == [] then Some([])
    else
      var n := |shapes| - 1;
      var front, last := GroupsParams(shapes[..n], dtypes[..n]), GroupParams(shapes[n], dtypes[n]);
      if front.None? || last.None? then None else Some(front.value + last.value)
  }

  /** `_prepare_params`; None for the exceptions it raises. */
  function Params(m: RemoteMetadata): Option<seq<int>> {
    if |m.shapes| != |m.dtypes| then None
    else
      var groups := GroupsParams(m.shapes, m.dtypes);
      if groups.None? then None else Some([m.length, m.fmt] + groups.value)
  }

  /** `serialize` under the format initialised for `numGroups` groups. */
  function Serialize(m: RemoteMetadata, numGroups: nat): Option<seq<Byte>> {
    var params := Params(m);
    if params.None? || |params.value| != 2 + 5 * numGroups || !AllFit32(params.value) then None
    else Some(PackAll(params.value))
  }

  function GroupShape(v: seq<int>, i: nat): Shape requires i + 5 <= |v| { v[i + 1..i + 5] }

  function ReadShapes(v: seq<int>, groups: nat): (r: seq<Shape>)
    requires |v| >= 2 + 5 * groups
    ensures |r| == groups
  {
    if groups == 0 then [] else ReadShapes(v, groups - 1) + [GroupShape(v, 2 + 5 * (groups - 1))]
  }

  function ReadDTypes(v: seq<int>, groups: nat): (r: Option<seq<Option<DType>>>)
    requires |v| >= 2 + 5 * groups
    ensures r.Some? ==> |r.value| == groups
  {
    if groups == 0 then Some([])
    else
      var front, last := ReadDTypes(v, groups - 1), CodeDType(v[2 + 5 * (groups - 1)]);
      if front.None? || last.None? then None else Some(front.value + [last.value])
  }

  /** `deserialize`: `unpack_from` needs at least the format's size. */
  function Deserialize(s: seq<Byte>, numGroups: nat, formats: set<int>): Option<RemoteMetadata> {
    if |s| < 4 * (2 + 5 * numGroups) then None
    else
      var v := UnpackAll(s, 2 + 5 * numGroups);
      var dtypes := ReadDTypes(v, numGroups);
      if v[1] !in formats || dtypes.None? then None
      else Some(RemoteMetadata(v[0], ReadShapes(v, numGroups), dtypes.value, v[1]))
  }

  lemma {:induction false} GroupsReadBack(shapes: seq<Shape>, dtypes: seq<Option<DType>>, v: seq<int>)
    requires |shapes| == |dtypes| && GroupsParams(shapes, dtypes).Some?
    requires |v| >= 2 + 5 * |shapes| && v[2..2 + 5 * |shapes|] == GroupsParams(shapes, dtypes).value
    ensures ReadShapes(v, |shapes|) == shapes && ReadDTypes(v, |shapes|) == Some(dtypes)
    decreases |shapes|
  {
    hide CodeDType, DTypeCode, GroupParams, GroupShape, GroupsParams;
    if shapes != [] {
      var n := |shapes| - 1;
      var at := 2 + 5 * n;
      LastGroup(shapes, dtypes);
      SliceOfSlice(v, at, GroupsParams(shapes[..n], dtypes[..n]).value, GroupParams(shapes[n], dtypes[n]).value);
      GroupsReadBack(shapes[..n], dtypes[..n], v);
      GroupReadsBack(v, at, shapes[n], dtypes[n]);
      assert shapes == shapes[..n] + [shapes[n]] && dtypes == dtypes[..n] + [dtypes[n]];
    }
  }

  lemma LastGroup(shapes: seq<Shape>, dtypes: seq<Option<DType>>)
    requires |shapes| == |dtypes| > 0 && GroupsParams(shapes, dtypes).Some?
    ensures var n := |shapes| - 1;
            var front, last := GroupsParams(shapes[..n], dtypes[..n]), GroupParams(shapes[n], dtypes[n]);
            front.Some? && last.Some? && GroupsParams(shapes, dtypes).value == front.value + last.value
  {
  }

  lemma GroupReadsBack(v: seq<int>, at: nat, shape: Shape, dtype: Option<DType>)
    requires at + 5 <= |v| && GroupParams(shape, dtype).Some? && v[at..at + 5] == GroupParams(shape, dtype).value
    ensures GroupShape(v, at) == shape && CodeDType(v[at]) == Some(dtype)
  {
    hide CodeDType, DTypeCode;
    DTypeCodeRoundTrip(dtype);
    var group := v[at..at + 5];
    assert v[at] == group[0] && v[at + 1..at + 5] == group[1..];
  }

  lemma SliceOfSlice(v: seq<int>, at: nat, front: seq<int>, last: seq<int>)
    requires |front| == at - 2 && |last| == 5 && |v| >= at + 5 && v[2..at + 5] == front + last
    ensures v[2..at] == front && v[at..at + 5] == last
  {
    var all := v[2..at + 5];
    assert v[2..at] == all[..at - 2] && v[at..at + 5] == all[at - 2..];
  }

  /** Whatever serialises comes back unchanged, for any number of groups and whatever
      follows it in the buffer. */
  lemma MetadataRoundTrip(m: RemoteMetadata, numGroups: nat, formats: set<int>, more: seq<Byte>)
    requires Serialize(m, numGroups).Some? && m.fmt in formats
    ensures |Serialize(m, numGroups).value| == 4 * (2 + 5 * numGroups)
    ensures Deserialize(Serialize(m, numGroups).value + more, numGroups, formats) == Some(m)
  {
    hide PackAll, UnpackAll, GroupsParams, ReadShapes, ReadDTypes;
    var v := Params(m).value;
    PackAllRoundTrip(v, more);
    assert v[2..2 + 5 * numGroups] == GroupsParams(m.shapes, m.dtypes).value;
    GroupsReadBack(m.shapes, m.dtypes, v);
  }

  /** Exactly which metadata serialises. */
  lemma SerializesIff(m: RemoteMetadata, numGroups: nat)
    ensures Serialize(m, numGroups).Some? <==>
              && |m.shapes| == |m.dtypes| == numGroups && FitsInt32(m.length) && FitsInt32(m.fmt)
              && forall i :: 0 <= i < numGroups ==>
                 |m.shapes[i]| == 4 && AllFit32(m.shapes[i]) && DTypeCode(m.dtypes[i]).Some?
  {
    if |m.shapes| == |m.dtypes| {
      GroupsParamsIff(m.shapes, m.dtypes);
      var groups := GroupsParams(m.shapes, m.dtypes);
      if groups.Some? {
        var v := [m.length, m.fmt] + groups.value;
        assert AllFit32(v) <==> FitsInt32(m.length) && FitsInt32(m.fmt) && AllFit32(groups.value) by {
          assert v[0] == m.length && v[1] == m.fmt;
          assert forall i :: 0 <= i < |groups.value| ==> v[i + 2] == groups.value[i];
        }
      }
    }
  }

  lemma {:induction false} GroupsParamsIff(shapes: seq<Shape>, dtypes: seq<Option<DType>>)
    requires |shapes| == |dtypes|
    ensures GroupsParams(shapes, dtypes).Some? <==>
              forall i :: 0 <= i < |shapes| ==> |shapes[i]| == 4 && DTypeCode(dtypes[i]).Some?
    ensures GroupsParams(shapes, dtypes).Some? ==>
              (AllFit32(GroupsParams(shapes, dtypes).value) <==> forall i :: 0 <= i < |shapes| ==> AllFit32(shapes[i]))
    decreases |shapes|
  {
    if shapes != [] {
      var n := |shapes| - 1;
      GroupsParamsIff(shapes[..n], dtypes[..n]);
      assert forall i :: 0 <= i < n ==> shapes[..n][i] == shapes[i] && dtypes[..n][i] == dtypes[i];
      if GroupsParams(shapes, dtypes).Some? {
        var front, last := GroupsParams(shapes[..n], dtypes[..n]).value, GroupParams(shapes[n], dtypes[n]).value;
        DTypeCodeRoundTrip(dtypes[n]);
        FitBoth(front, last);
        assert AllFit32(last) <==> AllFit32(shapes[n]) by {
          assert forall i :: 0 <= i < 4 ==> last[i + 1] == shapes[n][i];
        }
      }
    }
  }

  lemma FitBoth(a: seq<int>, b: seq<int>)
    ensures AllFit32(a + b) <==> AllFit32(a) && AllFit32(b)
  {
    if AllFit32(a + b) {
      assert forall i :: 0 <= i < |a| ==> (a + b)[i] == a[i];
      assert forall i :: 0 <= i < |b| ==> (a + b)[|a| + i] == b[i];
    }
  }

  /** The module state and its codec, with the loops of the source. */
  class MetadataFormat {
    var numGroups: Option<nat>

    constructor ()
      ensures numGroups == None
    {
      numGroups := None;
    }

    method Init(groups: nat)
      modifies this
      ensures numGroups == Some(groups)
    {
      numGroups := Some(groups);
    }

    /** The size announced to the connectors is the size every serialisation has. */
    method MetadataBytes() returns (n: nat)
      requires numGroups.Some?
      ensures forall m :: Serialize(m, numGroups.value).Some? ==> |Serialize(m, numGroups.value).value| == n
    {
      n := 4 * (2 + 5 * numGroups.value);
    }

    method SerializeMetadata(m: RemoteMetadata) returns (r: Option<seq<Byte>>)
      requires numGroups.Some?
      ensures r == Serialize(m, numGroups.value)
    {
      if |m.shapes| != |m.dtypes| {
        return None;
      }
      var params := [m.length, m.fmt];
      for i := 0 to |m.shapes|
        invariant GroupsParams(m.shapes[..i], m.dtypes[..i]).Some?
        invariant params == [m.length, m.fmt] + GroupsParams(m.shapes[..i], m.dtypes[..i]).value
      {
        assert m.shapes[..i + 1][..i] == m.shapes[..i] && m.dtypes[..i + 1][..i] == m.dtypes[..i];
        var group := GroupParams(m.shapes[i], m.dtypes[i]);
        if group.None? {
          GroupsParamsIff(m.shapes, m.dtypes);
          return None;
        }
        params := params + group.value;
      }
      assert m.shapes[..|m.shapes|] == m.shapes && m.dtypes[..|m.dtypes|] == m.dtypes;
      if |params| != 2 + 5 * numGroups.value || !AllFit32(params) {
        return None;
      }
      r := Some(PackAll(params));
    }

    method DeserializeMetadata(s: seq<Byte>, formats: set<int>) returns (r: Option<RemoteMetadata>)
      requires numGroups.Some?
      ensures r == Deserialize(s, numGroups.value, formats)
    {
      hide UnpackAll, CodeDType, GroupShape;
      var groups := numGroups.value;
      if |s| < 4 * (2 + 5 * groups) {
        return None;
      }
      var result := UnpackAll(s, 2 + 5 * groups);
      if result[1] !in formats {
        return None;
      }
      var shapes, dtypes := [], [];
      for g := 0 to groups
        invariant shapes == ReadShapes(result, g) && ReadDTypes(result, g) == Some(dtypes)
      {
        var i := 2 + 5 * g;
        var dtype := CodeDType(result[i]);
        if dtype.None? {
          UnknownDType(result, g, groups);
          return None;
        }
        shapes, dtypes := shapes + [GroupShape(result, i)], dtypes + [dtype.value];
      }
      r := Some(RemoteMetadata(result[0], shapes, dtypes, result[1]));
    }
  }

  lemma {:induction false} UnknownDType(v: seq<int>, g: nat, groups: nat)
    requires |v| >= 2 + 5 * groups && g < groups && CodeDType(v[2 + 5 * g]).None?
    ensures ReadDTypes(v, groups).None?
    decreases groups
  {
    if g < groups - 1 { UnknownDType(v, g, groups - 1); }
  }

  // ----- the client message -----

  datatype ClientMessage = ClientMessage(command: int, key: Key, length: int, fmt: int, dtype: Option<DType>,
                                         shape: Shape, location: Location)

  const CLIENT_BYTES: nat := 4 * 9 + MAX_KEY_LENGTH

  /** What `struct.pack` and the assertions accept; commands are the numbers 1 to 5. */
  predicate Sendable(m: ClientMessage) {
    && 1 <= m.command <= 5 && |ToString(m.key)| <= MAX_KEY_LENGTH
    && |m.shape| == 4 && AllFit32(m.shape) && FitsInt32(m.length) && FitsInt32(m.fmt) && DTypeCode(m.dtype).Some?
  }

  function Header(m: ClientMessage): (r: seq<int>)
    requires Sendable(m)
    ensures |r| == 9 && AllFit32(r)
  {
    [m.command, m.length, m.fmt, DTypeCode(m.dtype).value, LocationCode(m.location),
     m.shape[0], m.shape[1], m.shape[2], m.shape[3]]
  }

  function SerializeClient(m: ClientMessage): (r: seq<Byte>)
    requires Sendable(m)
    ensures |r| == CLIENT_BYTES
  {
    PackAll(Header(m)) + PadKey(ToString(m.key))
  }

  function DeserializeClient(s: seq<Byte>, formats: set<int>): Option<ClientMessage> {
    if |s| != CLIENT_BYTES then None
    else
      var v := UnpackAll(s, 9);
      var text := ReadKey(s[36..]);
      if text.None? then None
      else
        var key, dtype, location := ParseCacheKey(text.value), CodeDType(v[3]), CodeLocation(v[4]);
        if !(1 <= v[0] <= 5) || key.None? || v[2] !in formats || dtype.None? || location.None? then None
        else Some(ClientMessage(v[0], key.value, v[1], v[2], dtype.value, v[5..9], location.value))
  }

  /** A message in exactly `packlength` bytes; with a plain key it comes back if and only if
      the key survives its string form and that string has no whitespace at its ends and fits
      the key field in UTF-8, which the length assertion does not look at. */
  lemma ClientMessageRoundTripIff(m: ClientMessage, formats: set<int>)
    requires Sendable(m) && m.fmt in formats && m.key.layer.None?
    ensures |SerializeClient(m)| == CLIENT_BYTES
    ensures DeserializeClient(SerializeClient(m), formats) == Some(m)
       <==> Stringable(m.key) && Trimmed(ToString(m.key)) && Encodable(ToString(m.key))
  {
    hide PackAll, UnpackAll, PadKey, ReadKey, ParseCacheKey;
    hide ToString, Stringable, CodeDType, DTypeCode, SerializeClient;
    hide Strip, Trimmed, AllFit32, Encodable;
    HeaderAndKey(m);
    HeaderReadsBack(m);
    var s := ToString(m.key);
    if Encodable(s) {
      PaddedKeyStrips(s);
      StrippedParsesBackIff(s, m.key);
    } else if ReadKey(PadKey(s)).Some? {
      var t := CutKeyIsPrefix(s);
      StrippedParsesBackIff(t, m.key);
    }
  }

  /** A message with a layer key never comes back as itself; if the string fits it is rejected. */
  lemma LayerMessagesAreRejected(m: ClientMessage, formats: set<int>)
    requires Sendable(m) && m.key.layer.Some?
    ensures DeserializeClient(SerializeClient(m), formats) != Some(m)
    ensures Encodable(ToString(m.key)) ==> DeserializeClient(SerializeClient(m), formats) == None
  {
    hide PackAll, UnpackAll, PadKey, ReadKey, ParseCacheKey, ToString;
    hide CodeDType, DTypeCode, SerializeClient, Strip, AllFit32, Encodable;
    HeaderAndKey(m);
    var s := ToString(m.key);
    if ReadKey(PadKey(s)).Some? { NeverLayered(ReadKey(PadKey(s)).value); }
    if Encodable(s) {
      PaddedKeyStrips(s);
      StrippedLayerKeysAreRejected(m.key);
    }
  }

  /** The other case is real: where the cut falls right before the layer number, the message
      comes back with the plain key instead. */
  lemma CutLayerKeyTurnsPlain(m: ClientMessage, formats: set<int>)
    requires Sendable(m) && m.fmt in formats && m.key.layer.Some? && m.key.tags == []
    requires var plain := m.key.(layer := None);
             |Encode(ToString(plain))| == MAX_KEY_LENGTH && Stringable(plain) && Trimmed(ToString(plain))
    ensures DeserializeClient(SerializeClient(m), formats) == Some(m.(key := m.key.(layer := None)))
  {
    hide PackAll, UnpackAll, ParseCacheKey, ToString, Stringable, CodeDType;
    hide DTypeCode, SerializeClient, Strip, Trimmed, AllFit32;
    hide Encode, PadKey, ReadKey;
    HeaderAndKey(m);
    HeaderReadsBack(m);
    var plain := m.key.(layer := None);
    var s := ToString(plain);
    LayerComesLast(m.key);
    CutKey(s, ToString(m.key));
    StrippedParsesBackIff(s, plain);
  }

  lemma HeaderReadsBack(m: ClientMessage)
    requires Sendable(m)
    ensures var v := Header(m);
            && v[0] == m.command && v[1] == m.length && v[2] == m.fmt && v[5..9] == m.shape
            && CodeDType(v[3]) == Some(m.dtype) && CodeLocation(v[4]) == Some(m.location)
  {
    hide DTypeCode, CodeDType, ToString;
    DTypeCodeRoundTrip(m.dtype);
    var v := Header(m);
    assert v[5..9] == m.shape;
  }

  lemma HeaderAndKey(m: ClientMessage)
    requires Sendable(m)
    ensures UnpackAll(SerializeClient(m), 9) == Header(m)
    ensures SerializeClient(m)[36..] == PadKey(ToString(m.key))
  {
    hide PackAll, UnpackAll, PadKey, ToString;
    PackAllRoundTrip(Header(m), PadKey(ToString(m.key)));
  }

  // ----- the server message -----

  datatype ServerMessage = ServerMessage(success: bool, length: int, fmt: int, dtype: Option<DType>,
                                         shape: Shape, location: Location)

  const SERVER_BYTES: nat := 4 * 9

  predicate Repliable(m: ServerMessage) {
    |m.shape| == 4 && AllFit32(m.shape) && FitsInt32(m.length) && FitsInt32(m.fmt) && DTypeCode(m.dtype).Some?
  }

  function ServerFields(m: ServerMessage): (r: seq<int>)
    requires Repliable(m)
    ensures |r| == 9 && AllFit32(r)
  {
    [if m.success then 200 else 400, m.length, m.fmt, DTypeCode(m.dtype).value,
     m.shape[0], m.shape[1], m.shape[2], m.shape[3], LocationCode(m.location)]
  }

  function SerializeServer(m: ServerMessage): (r: seq<Byte>)
    requires Repliable(m)
    ensures |r| == SERVER_BYTES
  {
    PackAll(ServerFields(m))
  }

  function DeserializeServer(s: seq<Byte>, formats: set<int>): Option<ServerMessage> {
    if |s| != SERVER_BYTES then None
    else
      var v := UnpackAll(s, 9);
      var dtype, location := CodeDType(v[3]), CodeLocation(v[8]);
      if (v[0] != 200 && v[0] != 400) || v[2] !in formats || dtype.None? || location.None? then None
      else Some(ServerMessage(v[0] == 200, v[1], v[2], dtype.value, v[4..8], location.value))
  }

  lemma ServerMessageRoundTrip(m: ServerMessage, formats: set<int>)
    requires Repliable(m) && m.fmt in formats
    ensures DeserializeServer(SerializeServer(m), formats) == Some(m)
  {
    hide PackAll, UnpackAll;
    var v := ServerFields(m);
    PackAllRoundTrip(v, []);
    assert PackAll(v) + [] == PackAll(v);
    DTypeCodeRoundTrip(m.dtype);
    assert v[4..8] == m.shape;
  }
}
