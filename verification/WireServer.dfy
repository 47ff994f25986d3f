/** The framed key-value protocol of the cache server: message codecs, the socket loop,
    and what a connection does as a whole. */
module WireServer {
  import opened Options
  import opened Whitespace
  import opened Splitting
  import opened Bytes
  import opened Utf8
  import opened KeyField

  // ----- messages -----

  datatype Command = Put | Get | Exist | List

  datatype ClientMeta = ClientMeta(command: Command, key: string, length: int)

  datatype Code = Success | Fail

  datatype ServerMeta = ServerMeta(code: Code, length: int)

  const CLIENT_META_BYTES: nat := 4 * 2 + MAX_KEY_LENGTH

  const SERVER_META_BYTES: nat := 8

  function CommandValue(c: Command): int {
    match c case Put => 1 case Get => 2 case Exist => 3 case List => 4
  }

  function CommandOf(v: int): Option<Command> {
    if v == 1 then Some(Put)
    else if v == 2 then Some(Get)
    else if v == 3 then Some(Exist)
    else if v == 4 then Some(List)
    else None
  }

  function CodeValue(c: Code): int {
    match c case Success => 200 case Fail => 400
  }

  function CodeOf(v: int): Option<Code> {
    if v == 200 then Some(Success) else if v == 400 then Some(Fail) else None
  }

  predicate Packable(m: ClientMeta) {
    |m.key| <= MAX_KEY_LENGTH && FitsInt32(m.length)
  }

  function SerializeClient(m: ClientMeta): (r: seq<Byte>)
    requires Packable(m)
    ensures |r| == CLIENT_META_BYTES
  {
    PackInt(CommandValue(m.command)) + PackInt(m.length) + PadKey(m.key)
  }

  /** None stands for the exceptions of `struct.unpack`, `ClientCommand` and `decode`. */
  function DeserializeClient(s: seq<Byte>): (r: Option<ClientMeta>) {
    if |s| != CLIENT_META_BYTES then None
    else
      var command, key := CommandOf(UnpackInt(s[..4])), ReadKey(s[8..]);
      if command.None? || key.None? then None
      else Some(ClientMeta(command.value, key.value, UnpackInt(s[4..8])))
  }

  function SerializeServer(m: ServerMeta): (r: seq<Byte>)
    requires FitsInt32(m.length)
    ensures |r| == SERVER_META_BYTES
  {
    PackInt(CodeValue(m.code)) + PackInt(m.length)
  }

  function DeserializeServer(s: seq<Byte>): (r: Option<ServerMeta>) {
    if |s| != SERVER_META_BYTES then None
    else
      var code := CodeOf(UnpackInt(s[..4]));
      if code.None? then None else Some(ServerMeta(code.value, UnpackInt(s[4..8])))
  }

  /** A client message survives the wire exactly when its key has no surrounding whitespace and
      its UTF-8 form, which the length assertion does not look at, fits as well. */
  lemma ClientRoundTripIff(m: ClientMeta)
    requires Packable(m)
    ensures DeserializeClient(SerializeClient(m)) == Some(m) <==> Encodable(m.key) && Trimmed(m.key)
  {
    hide PadKey, ReadKey, Encodable, Trimmed, PackInt, UnpackInt;
    var s := SerializeClient(m);
    assert s[..4] == PackInt(CommandValue(m.command)) && s[4..8] == PackInt(m.length) && s[8..] == PadKey(m.key);
    PackedIntRoundTrip(CommandValue(m.command));
    PackedIntRoundTrip(m.length);
    KeyFieldRoundTripIff(m.key);
  }

  lemma ServerRoundTrip(m: ServerMeta)
    requires FitsInt32(m.length)
    ensures DeserializeServer(SerializeServer(m)) == Some(m)
  {
    var s := SerializeServer(m);
    assert s[..4] == PackInt(CodeValue(m.code)) && s[4..8] == PackInt(m.length);
    PackedIntRoundTrip(CodeValue(m.code));
    PackedIntRoundTrip(m.length);
  }

  // ----- which headers are read, and as what -----

  /** A client header is read exactly from 158 bytes that hold one of the four command numbers, a
      length, which may be negative, and the UTF-8 bytes of a text; the key is that text without
      its outer whitespace. */
  lemma HeaderReadIff(s: seq<Byte>, m: ClientMeta)
    ensures DeserializeClient(s) == Some(m) <==>
              && |s| == 158 && IntAt(s, 4) == m.length && KeyBytes(s[8..], m.key)
              && IntAt(s, 0) == match m.command case Put => 1 case Get => 2 case Exist => 3 case List => 4
  {
    hide ReadKey, KeyBytes;
    if |s| == 158 {
      KeyReadIff(s[8..], m.key);
      IntRead(s, 0);
      IntRead(s, 4);
    }
  }

  /** A server header is read exactly from eight bytes that hold one of the two codes. */
  lemma ReplyReadIff(s: seq<Byte>, m: ServerMeta)
    ensures DeserializeServer(s) == Some(m) <==>
              |s| == 8 && IntAt(s, 4) == m.length && IntAt(s, 0) == if m.code.Success? then 200 else 400
  {
    if |s| == 8 {
      IntRead(s, 0);
      IntRead(s, 4);
    }
  }

  // ----- the store -----

  /** The backend's dictionary, keys in insertion order. A connection that breaks off
      inside a value stores None under its key. */
  datatype Store = Store(order: seq<string>, data: map<string, Option<seq<Byte>>>) {
    function With(key: string, value: Option<seq<Byte>>): Store {
      Store(if key in data then order else order + [key], data[key := value])
    }

    function Lookup(key: string): Option<seq<Byte>> {
      if key in data then data[key] else None
    }

    /** "\\n".join(keys).encode() */
    function Listing(): (r: Option<seq<Byte>>) {
      var text := Joined(order);
      if FitsInt32(|Encode(text)|) then Some(Encode(text)) else None
    }
  }

  /** "\\n".join(keys), which is empty for no keys. */
  function Joined(keys: seq<string>): string {
    if keys == [] then "" else Join(keys, '\n')
  }

  /** What the dictionary keeps: every key is listed, and once. */
  ghost predicate Tidy(store: Store) {
    && (forall i, j :: 0 <= i < j < |store.order| ==> store.order[i] != store.order[j])
    && (forall k :: k in store.order <==> k in store.data)
  }

  lemma WithStaysTidy(store: Store, key: string, value: Option<seq<Byte>>)
    requires Tidy(store)
    ensures Tidy(store.With(key, value))
  {
  }

  /** A client that splits a listing at the line ends gets the stored keys back exactly when
      there are some and none of them contains a line end. */
  lemma ListingSplitsIff(store: Store)
    requires store.Listing().Some?
    ensures Decode(store.Listing().value) == Some(Joined(store.order))
    ensures Split(Joined(store.order), '\n') == store.order <==> store.order != [] && AllAvoid(store.order, '\n')
  {
    hide Split, Join;
    DecodeEncode(Joined(store.order));
    if store.order != [] && AllAvoid(store.order, '\n') {
      SplitJoin(store.order, '\n');
    } else {
      SplitAvoids(Joined(store.order), '\n');
    }
  }

  // ----- a connection as a function of the bytes that arrive on it -----

  function Reply(code: Code, data: seq<Byte>): (r: Option<seq<Byte>>) {
    if FitsInt32(|data|) then Some(SerializeServer(ServerMeta(code, |data|)) + data) else None
  }

  /** The reply to a GET, EXIST or LIST; None when packing the reply raises. */
  function AnswerTo(command: Command, key: string, store: Store): (r: Option<seq<Byte>>) {
    if command.Get? then
      (if store.Lookup(key).Some? then Reply(Success, store.Lookup(key).value) else Reply(Fail, []))
    else if command.Exist? then Reply(if key in store.data then Success else Fail, [])
    else if store.Listing().Some? then Reply(Success, store.Listing().value)
    else None
  }

  /** Everything sent and the final store, for the byte stream `input` up to its end. An
      error ends the connection. */
  function Serve(input: seq<Byte>, store: Store): (r: (seq<Byte>, Store))
    decreases |input|, 0
  {
    if |input| < CLIENT_META_BYTES then ([], store)
    else
      var meta := DeserializeClient(input[..CLIENT_META_BYTES]);
      var rest := input[CLIENT_META_BYTES..];
      if meta.None? then ([], store)
      else if meta.value.command.Put? then
        var n := meta.value.length;
        if n <= 0 then Serve(rest, store.With(meta.value.key, Some([])))
        else if |rest| < n then ([], store.With(meta.value.key, None))
        else Serve(rest[n..], store.With(meta.value.key, Some(rest[..n])))
      else Continue(AnswerTo(meta.value.command, meta.value.key, store), rest, store)
  }

  function Continue(reply: Option<seq<Byte>>, rest: seq<Byte>, store: Store): (r: (seq<Byte>, Store))
    decreases |rest|, 1
  {
    if reply.None? then ([], store)
    else
      var (out, end) := Serve(rest, store);
      (reply.value + out, end)
  }

  /** The header at the front of the input, if it can be read. */
  ghost predicate HeaderIs(input: seq<Byte>, m: ClientMeta) {
    |input| >= 158 && DeserializeClient(input[..158]) == Some(m)
  }

  /** Input without a readable header ends the connection: nothing is stored or sent. A PUT whose
      value breaks off stores None under its key and ends it; one of no or negative length stores
      the empty value and leaves the following bytes alone. */
  lemma BrokenInput(input: seq<Byte>, m: ClientMeta, store: Store)
    ensures (forall h :: !HeaderIs(input, h)) ==> Serve(input, store) == ([], store)
    ensures HeaderIs(input, m) && m.command == Put && |input| - 158 < m.length ==>
              && Serve(input, store).0 == [] && Serve(input, store).1.data == store.data[m.key := None]
              && Serve(input, store).1.order == if m.key in store.data then store.order else store.order + [m.key]
    ensures HeaderIs(input, m) && m.command == Put && m.length <= 0 ==>
              var next := Store(if m.key in store.data then store.order else store.order + [m.key],
                                store.data[m.key := Some([])]);
              Serve(input, store) == Serve(input[158..], next)
  {
    hide DeserializeClient, AnswerTo;
    if |input| >= 158 {
      var meta := DeserializeClient(input[..158]);
      assert meta.Some? ==> HeaderIs(input, meta.value);
    }
  }

  /** Whatever arrives on a connection, the dictionary still lists every key once. */
  lemma {:induction false} ServeStaysTidy(input: seq<Byte>, store: Store)
    requires Tidy(store)
    ensures Tidy(Serve(input, store).1)
    decreases |input|
  {
    hide DeserializeClient, AnswerTo, Tidy, Store.With;
    if |input| >= CLIENT_META_BYTES {
      var meta := DeserializeClient(input[..CLIENT_META_BYTES]);
      var rest := input[CLIENT_META_BYTES..];
      if meta.Some? {
        var key, n := meta.value.key, meta.value.length;
        if meta.value.command.Put? {
          forall v ensures Tidy(store.With(key, v)) { WithStaysTidy(store, key, v); }
          if n <= 0 {
            ServeStaysTidy(rest, store.With(key, Some([])));
          } else if |rest| >= n {
            ServeStaysTidy(rest[n..], store.With(key, Some(rest[..n])));
          }
        } else {
          ServeStaysTidy(rest, store);
        }
      }
    }
  }

  // ----- the sequential key-value map clients expect -----

  datatype Request =
    | PutRequest(key: string, value: seq<Byte>)
    | GetRequest(key: string)
    | ExistRequest(key: string)
    | ListRequest

  datatype Answer = Silent | Value(data: seq<Byte>) | Missing | Present

  predicate WellFormed(r: Request) {
    match r
    case ListRequest => true
    case PutRequest(key, value) => GoodKey(key) && FitsInt32(|value|)
    case _ => GoodKey(r.key)
  }

  predicate GoodKey(key: string) {
    |key| <= MAX_KEY_LENGTH && Encodable(key) && Trimmed(key)
  }

  function EncodeRequest(r: Request): seq<Byte>
    requires WellFormed(r)
  {
    SerializeClient(MetaOf(r)) + if r.PutRequest? then r.value else []
  }

  function EncodeRequests(rs: seq<Request>): seq<Byte>
    requires forall r <- rs :: WellFormed(r)
  {
    if rs == [] then []
    else
      assert rs[0] in rs;
      EncodeRequest(rs[0]) + EncodeRequests(rs[1..])
  }

  /** What a plain map answers. */
  function Apply(r: Request, store: Store): (Answer, Store) {
    match r
    case PutRequest(key, value) => (Silent, store.With(key, Some(value)))
    case GetRequest(key) => (if store.Lookup(key).Some? then Value(store.Lookup(key).value) else Missing, store)
    case ExistRequest(key) => (if key in store.data then Present else Missing, store)
    case ListRequest => (Value(if store.Listing().Some? then store.Listing().value else []), store)
  }

  function ApplyAll(rs: seq<Request>, store: Store): (r: (seq<Answer>, Store))
    ensures |r.0| == |rs|
    decreases |rs|
  {
    if rs == [] then ([], store)
    else
      var (a, next) := Apply(rs[0], store);
      var (more, end) := ApplyAll(rs[1..], next);
      ([a] + more, end)
  }

  /** How the client reads the answer to a request off the front of the reply stream. */
  function ReadAnswer(r: Request, s: seq<Byte>): Option<(Answer, seq<Byte>)> {
    if r.PutRequest? then Some((Silent, s))
    else if |s| < SERVER_META_BYTES then None
    else
      var meta := DeserializeServer(s[..SERVER_META_BYTES]);
      var rest := s[SERVER_META_BYTES..];
      if meta.None? || meta.value.length < 0 || |rest| < meta.value.length then None
      else if meta.value.code.Fail? then Some((Missing, rest))
      else if r.ExistRequest? then Some((Present, rest))
      else Some((Value(rest[..meta.value.length]), rest[meta.value.length..]))
  }

  function ReadAnswers(rs: seq<Request>, s: seq<Byte>): Option<seq<Answer>> {
    if rs == [] then (if s == [] then Some([]) else None)
    else
      var first := ReadAnswer(rs[0], s);
      if first.None? then None
      else
        var more := ReadAnswers(rs[1..], first.value.1);
        if more.None? then None else Some([first.value.0] + more.value)
  }

  function MetaOf(r: Request): ClientMeta {
    match r
    case PutRequest(key, value) => ClientMeta(Put, key, |value|)
    case GetRequest(key) => ClientMeta(Get, key, 0)
    case ExistRequest(key) => ClientMeta(Exist, key, 0)
    case ListRequest => ClientMeta(List, "", 0)
  }

  /** What the server sends for one request. */
  function ReplyTo(r: Request, store: Store): Option<seq<Byte>> {
    if r.PutRequest? then Some([]) else AnswerTo(MetaOf(r).command, MetaOf(r).key, store)
  }

  /** The server consumes one encoded request, answers it and goes on with the rest. */
  lemma ServeOne(r: Request, rest: seq<Byte>, store: Store)
    requires WellFormed(r) && ReplyTo(r, store).Some?
    ensures var (out, end) := Serve(rest, Apply(r, store).1);
            Serve(EncodeRequest(r) + rest, store) == (ReplyTo(r, store).value + out, end)
  {
    assert Encodable(MetaOf(r).key) && Trimmed(MetaOf(r).key);
    hide SerializeClient, DeserializeClient, PadKey, ReadKey, Encodable, Trimmed, AnswerTo, Store.With, Encode;
    var header := SerializeClient(MetaOf(r));
    ClientRoundTripIff(MetaOf(r));
    var input := EncodeRequest(r) + rest;
    assert input[..CLIENT_META_BYTES] == header;
    if r.PutRequest? {
      var tail := input[CLIENT_META_BYTES..];
      assert tail == r.value + rest;
      PutOne(r, tail, rest, store);
    } else {
      assert input[CLIENT_META_BYTES..] == rest;
    }
  }

  lemma PutOne(r: Request, tail: seq<Byte>, rest: seq<Byte>, store: Store)
    requires r.PutRequest? && tail == r.value + rest
    ensures |r.value| == 0 ==> tail == rest && r.value == []
    ensures |tail| >= |r.value| && tail[..|r.value|] == r.value && tail[|r.value|..] == rest
    ensures [] + Serve(rest, Apply(r, store).1).0 == Serve(rest, Apply(r, store).1).0
  {
  }

  /** The client reads back exactly the map's answer. */
  lemma ReadOne(r: Request, store: Store, more: seq<Byte>)
    requires ReplyTo(r, store).Some?
    ensures ReadAnswer(r, ReplyTo(r, store).value + more) == Some((Apply(r, store).0, more))
  {
    if !r.PutRequest? {
      var code, data := ReplyParts(r, store);
      var s := ReplyTo(r, store).value + more;
      ServerRoundTrip(ServerMeta(code, |data|));
      assert s[..SERVER_META_BYTES] == SerializeServer(ServerMeta(code, |data|));
      assert s[SERVER_META_BYTES..] == data + more;
      assert (data + more)[..|data|] == data && (data + more)[|data|..] == more;
      assert data == [] ==> data + more == more;
    } else {
      assert ReplyTo(r, store).value + more == more;
    }
  }

  lemma ReplyParts(r: Request, store: Store) returns (code: Code, data: seq<Byte>)
    requires ReplyTo(r, store).Some? && !r.PutRequest?
    ensures FitsInt32(|data|) && ReplyTo(r, store).value == SerializeServer(ServerMeta(code, |data|)) + data
    ensures ReplyTo(r, store) == Reply(code, data)
    ensures code.Fail? ==> data == [] && Apply(r, store).0 == Missing
    ensures code.Success? ==>
              if r.ExistRequest? then data == [] && Apply(r, store).0 == Present
              else Apply(r, store).0 == Value(data)
  {
    match r
    case GetRequest(key) =>
      if store.Lookup(key).Some? { code, data := Success, store.Lookup(key).value; } else { code, data := Fail, []; }
    case ExistRequest(key) =>
      code, data := if key in store.data then Success else Fail, [];
    case ListRequest =>
      code, data := Success, store.Listing().value;
  }

  /** Every reply of the run can be packed: its length fits 32 bits. */
  predicate Announceable(rs: seq<Request>, store: Store)
    decreases |rs|
  {
    rs != [] ==> ReplyTo(rs[0], store).Some? && Announceable(rs[1..], Apply(rs[0], store).1)
  }

  /** A reply that cannot be packed ends the connection. */
  lemma ServeRefused(r: Request, rest: seq<Byte>, store: Store)
    requires WellFormed(r) && ReplyTo(r, store).None?
    ensures Serve(EncodeRequest(r) + rest, store) == ([], store)
  {
    hide SerializeClient, DeserializeClient, PadKey;
    var header := SerializeClient(MetaOf(r));
    ClientRoundTripIff(MetaOf(r));
    var input := EncodeRequest(r) + rest;
    assert input[..CLIENT_META_BYTES] == header;
  }

  /** The whole connection: the reply stream decodes to what a sequential map returns, and
      the store ends as that map does, exactly when every reply of the run can be packed. */
  lemma {:induction false} ServerRefinesMapIff(rs: seq<Request>, store: Store)
    requires forall r <- rs :: WellFormed(r)
    ensures ReadAnswers(rs, Serve(EncodeRequests(rs), store).0) == Some(ApplyAll(rs, store).0)
            <==> Announceable(rs, store)
    ensures Announceable(rs, store) ==> Serve(EncodeRequests(rs), store).1 == ApplyAll(rs, store).1
    decreases |rs|
  {
    hide Serve, ReplyTo, EncodeRequest, ReadAnswer, Apply;
    if rs != [] {
      var r, next := rs[0], Apply(rs[0], store).1;
      assert r in rs;
      if ReplyTo(r, store).Some? {
        ServerRefinesMapIff(rs[1..], next);
        ServeOne(r, EncodeRequests(rs[1..]), store);
        var (out, end) := Serve(EncodeRequests(rs[1..]), next);
        ReadOne(r, store, out);
        if ReadAnswers(rs[1..], out).Some? {
          SameTails(Apply(r, store).0, ReadAnswers(rs[1..], out).value, ApplyAll(rs[1..], next).0);
        }
      } else {
        ServeRefused(r, EncodeRequests(rs[1..]), store);
        NothingToRead(r, store);
      }
    } else {
      NothingToServe(store);
    }
  }

  lemma SameTails<T>(x: T, a: seq<T>, b: seq<T>)
    ensures [x] + a == [x] + b <==> a == b
  {
    assert ([x] + a)[1..] == a && ([x] + b)[1..] == b;
  }

  lemma NothingToServe(store: Store)
    ensures Serve([], store) == ([], store)
  {
  }

  lemma NothingToRead(r: Request, store: Store)
    requires ReplyTo(r, store).None?
    ensures ReadAnswer(r, []) == None
  {
  }

  // ----- the answers, from the requests alone -----

  /** The last of the first n requests that puts the key. */
  ghost predicate LastPut(rs: seq<Request>, n: nat, key: string, p: int) {
    && 0 <= p < n <= |rs| && rs[p].PutRequest? && rs[p].key == key
    && forall q :: p < q < n && rs[q].PutRequest? ==> rs[q].key != key
  }

  ghost predicate NeverPut(rs: seq<Request>, n: nat, key: string)
    requires n <= |rs|
  {
    forall q :: 0 <= q < n && rs[q].PutRequest? ==> rs[q].key != key
  }

  /** What is stored after n requests: each key has its last value put, or else the one it had. */
  ghost predicate Holds(rs: seq<Request>, n: nat, was: Store, now: Store)
    requires n <= |rs|
  {
    && (forall key, p :: LastPut(rs, n, key, p) ==> key in now.data && now.data[key] == Some(rs[p].value))
    && (forall key :: NeverPut(rs, n, key) ==> (key in now.data <==> key in was.data))
    && (forall key :: NeverPut(rs, n, key) && key in was.data ==> now.data[key] == was.data[key])
  }

  /** The keys in the order in which they first came. */
  function KeysAfter(keys: seq<string>, rs: seq<Request>): seq<string> {
    if rs == [] then keys
    else
      var before, r := KeysAfter(keys, rs[..|rs| - 1]), rs[|rs| - 1];
      if r.PutRequest? && r.key !in before then before + [r.key] else before
  }

  /** A GET answers with the last value put before it, or else with the one that was stored at
      first; an EXIST says whether the key was put or stored; a LIST joins the keys, if the
      dictionary listed each of its keys once at first. */
  ghost predicate AnswerRight(rs: seq<Request>, n: nat, was: Store, a: Answer)
    requires n < |rs|
  {
    match rs[n]
    case PutRequest(_, _) => a == Silent
    case GetRequest(key) =>
      && (forall p :: LastPut(rs, n, key, p) ==> a == Value(rs[p].value))
      && (NeverPut(rs, n, key) ==>
            a == if key in was.data && was.data[key].Some? then Value(was.data[key].value) else Missing)
    case ExistRequest(key) =>
      a == if !NeverPut(rs, n, key) || key in was.data then Present else Missing
    case ListRequest =>
      var keys := KeysAfter(was.order, rs[..n]);
      Tidy(was) ==> a == Value(if keys == [] then [] else Encode(Join(keys, '\n')))
  }

  lemma {:induction false} FindLastPut(rs: seq<Request>, n: nat, key: string) returns (p: nat)
    requires n <= |rs| && !NeverPut(rs, n, key)
    ensures LastPut(rs, n, key, p)
  {
    if rs[n - 1].PutRequest? && rs[n - 1].key == key { p := n - 1; } else { p := FindLastPut(rs, n - 1, key); }
  }

  lemma {:induction false} ApplyAllSnoc(rs: seq<Request>, r: Request, store: Store)
    ensures ApplyAll(rs + [r], store).1 == Apply(r, ApplyAll(rs, store).1).1
    ensures ApplyAll(rs + [r], store).0 == ApplyAll(rs, store).0 + [Apply(r, ApplyAll(rs, store).1).0]
    decreases |rs|
  {
    hide Apply;
    if rs == [] {
      assert ([] + [r])[1..] == [];
    } else {
      assert (rs + [r])[1..] == rs[1..] + [r];
      ApplyAllSnoc(rs[1..], r, Apply(rs[0], store).1);
    }
  }

  lemma HoldsStep(rs: seq<Request>, n: nat, was: Store, now: Store)
    requires n < |rs| && Holds(rs, n, was, now)
    ensures Holds(rs, n + 1, was, Apply(rs[n], now).1)
  {
    var r, next := rs[n], Apply(rs[n], now).1;
    forall key, p | LastPut(rs, n + 1, key, p) ensures key in next.data && next.data[key] == Some(rs[p].value) {
      if p < n { assert LastPut(rs, n, key, p); }
    }
    forall key | NeverPut(rs, n + 1, key)
      ensures (key in next.data <==> key in was.data) && (key in was.data ==> next.data[key] == was.data[key])
    {
      assert NeverPut(rs, n, key);
    }
  }

  lemma AnswerStep(rs: seq<Request>, n: nat, was: Store, now: Store)
    requires n < |rs| && Holds(rs, n, was, now) && (Tidy(was) ==> now.order == KeysAfter(was.order, rs[..n]))
    requires ReplyTo(rs[n], now).Some?
    ensures AnswerRight(rs, n, was, Apply(rs[n], now).0)
  {
    if (rs[n].GetRequest? || rs[n].ExistRequest?) && !NeverPut(rs, n, rs[n].key) {
      var p := FindLastPut(rs, n, rs[n].key);
    }
  }

  lemma KeysStep(keys: seq<string>, rs: seq<Request>, n: nat, now: Store)
    requires n < |rs| && Tidy(now) && now.order == KeysAfter(keys, rs[..n])
    ensures Apply(rs[n], now).1.order == KeysAfter(keys, rs[..n + 1]) && Tidy(Apply(rs[n], now).1)
  {
    assert rs[..n + 1][..n] == rs[..n];
    if rs[n].PutRequest? { WithStaysTidy(now, rs[n].key, Some(rs[n].value)); }
  }

  /** The sequential map, spelled out: what it holds and answers over the whole run. */
  lemma {:induction false} MapRemembers(rs: seq<Request>, n: nat, store: Store)
    requires n <= |rs| && Announceable(rs, store)
    ensures var now := ApplyAll(rs[..n], store).1;
            && Holds(rs, n, store, now)
            && (Tidy(store) ==> Tidy(now) && now.order == KeysAfter(store.order, rs[..n]))
    ensures forall i :: 0 <= i < n ==> AnswerRight(rs, i, store, ApplyAll(rs[..n], store).0[i])
  {
    hide Apply, Tidy, AnswerRight, Holds, ReplyTo;
    if n == 0 {
      NothingYet(rs, store);
    } else {
      MapRemembers(rs, n - 1, store);
      var now := ApplyAll(rs[..n - 1], store).1;
      assert rs[..n] == rs[..n - 1] + [rs[n - 1]];
      ApplyAllSnoc(rs[..n - 1], rs[n - 1], store);
      AnnounceableAt(rs, n - 1, store);
      HoldsStep(rs, n - 1, store, now);
      AnswerStep(rs, n - 1, store, now);
      if Tidy(store) { KeysStep(store.order, rs, n - 1, now); }
    }
  }

  lemma NothingYet(rs: seq<Request>, store: Store)
    ensures Holds(rs, 0, store, store) && ApplyAll(rs[..0], store) == ([], store)
    ensures KeysAfter(store.order, rs[..0]) == store.order
  {
  }

  lemma {:induction false} AnnounceableAt(rs: seq<Request>, n: nat, store: Store)
    requires n < |rs| && Announceable(rs, store)
    ensures ReplyTo(rs[n], ApplyAll(rs[..n], store).1).Some?
    decreases n
  {
    hide Apply, ReplyTo;
    if n > 0 {
      AnnounceableAt(rs[1..], n - 1, Apply(rs[0], store).1);
      assert rs[..n][1..] == rs[1..][..n - 1];
    }
  }

  /** Over a connection every answer a client reads is the one the requests before it call for,
      and at the end each key has its last value put. */
  lemma ServerRemembers(rs: seq<Request>, store: Store)
    requires (forall r <- rs :: WellFormed(r)) && Announceable(rs, store)
    ensures var answers := ReadAnswers(rs, Serve(EncodeRequests(rs), store).0);
            && answers.Some? && |answers.value| == |rs|
            && forall n :: 0 <= n < |rs| ==> AnswerRight(rs, n, store, answers.value[n])
    ensures var end := Serve(EncodeRequests(rs), store).1;
            Holds(rs, |rs|, store, end) && (Tidy(store) ==> end.order == KeysAfter(store.order, rs))
  {
    hide Serve, ReadAnswers, AnswerRight, Holds, EncodeRequests, Announceable, Tidy;
    ServerRefinesMapIff(rs, store);
    MapRemembers(rs, |rs|, store);
    assert rs[..|rs|] == rs;
  }

  // ----- a bound under which every reply can be packed -----

  /** Keys and values a client could have sent. */
  ghost predicate Modest(store: Store) {
    && (forall i :: 0 <= i < |store.order| ==> Encodable(store.order[i]))
    && (forall k <- store.data :: store.data[k].Some? ==> FitsInt32(|store.data[k].value|))
  }

  lemma {:induction false} JoinedFits(keys: seq<string>)
    requires forall i :: 0 <= i < |keys| ==> Encodable(keys[i])
    ensures |Encode(Joined(keys))| <= (MAX_KEY_LENGTH + 1) * |keys|
    decreases |keys|
  {
    if |keys| > 1 {
      JoinedFits(keys[1..]);
      assert Joined(keys) == keys[0] + ['\n'] + Joined(keys[1..]);
      EncodeConcat(keys[0] + ['\n'], Joined(keys[1..]));
      EncodeConcat(keys[0], ['\n']);
      assert Encode(['\n']) == EncodeChar('\n') + [] && |EncodeChar('\n')| == 1;
    }
  }

  lemma ModestReplies(r: Request, store: Store)
    requires Modest(store) && (MAX_KEY_LENGTH + 1) * |store.order| < 0x8000_0000
    ensures ReplyTo(r, store).Some?
  {
    JoinedFits(store.order);
  }

  lemma StaysModest(r: Request, store: Store)
    requires WellFormed(r) && Modest(store)
    ensures Modest(Apply(r, store).1) && |Apply(r, store).1.order| <= |store.order| + 1
  {
  }

  /** So many requests, with the keys already stored, are never too many: over 14 million
      on an empty store. */
  lemma {:induction false} BoundedRunsAreAnnounceable(rs: seq<Request>, store: Store)
    requires (forall r <- rs :: WellFormed(r)) && Modest(store)
    requires (MAX_KEY_LENGTH + 1) * (|store.order| + |rs|) < 0x8000_0000
    ensures Announceable(rs, store)
    decreases |rs|
  {
    hide ReplyTo, Modest, WellFormed, Apply;
    if rs != [] {
      assert rs[0] in rs;
      ModestReplies(rs[0], store);
      StaysModest(rs[0], store);
      BoundedRunsAreAnnounceable(rs[1..], Apply(rs[0], store).1);
    }
  }

  // ----- the socket and the two loops over it -----

  function Joint(packets: seq<seq<Byte>>): seq<Byte> {
    if packets == [] then [] else packets[0] + Joint(packets[1..])
  }

  /** A connected socket: the packets still to arrive, in whatever sizes the network cut
      them, and everything sent so far. */
  class Socket {
    var packets: seq<seq<Byte>>
    var sent: seq<Byte>
    var closed: bool

    constructor (packets: seq<seq<Byte>>)
      requires forall i :: 0 <= i < |packets| ==> packets[i] != []
      ensures this.packets == packets && sent == [] && !closed && Valid()
    {
      this.packets, sent, closed := packets, [], false;
    }

    ghost predicate Valid()
      reads this
    {
      forall i :: 0 <= i < |packets| ==> packets[i] != []
    }

    ghost function Incoming(): seq<Byte>
      reads this
    {
      Joint(packets)
    }

    /** Up to `limit` bytes of what has arrived; nothing at the end of the stream. */
    method Recv(limit: nat) returns (packet: seq<Byte>)
      requires Valid() && limit > 0
      modifies `packets
      ensures Valid() && |packet| <= limit && old(Incoming()) == packet + Incoming()
      ensures packet == [] <==> old(Incoming()) == []
    {
      if packets == [] {
        return [];
      }
      var head := packets[0];
      if |head| <= limit {
        packet := head;
        packets := packets[1..];
      } else {
        packet := head[..limit];
        ghost var was := packets;
        packets := [head[limit..]] + packets[1..];
        assert packets[1..] == was[1..];
        assert head == packet + head[limit..];
      }
    }

    method SendAll(data: seq<Byte>)
      modifies `sent
      ensures sent == old(sent) + data
    {
      sent := sent + data;
    }

    method Close()
      modifies `closed
      ensures closed
    {
      closed := true;
    }
  }

  /** `receive_all`: exactly n bytes, or None when the stream ends first. */
  method ReceiveAll(socket: Socket, n: int) returns (data: Option<seq<Byte>>)
    requires socket.Valid()
    modifies socket`packets
    ensures socket.Valid()
    ensures var input := old(socket.Incoming());
            if n <= 0 then data == Some([]) && socket.Incoming() == input
            else if |input| < n then data == None && socket.Incoming() == []
            else data == Some(input[..n]) && socket.Incoming() == input[n..]
  {
    var got: seq<Byte> := [];
    ghost var input := socket.Incoming();
    while |got| < n
      invariant socket.Valid() && got + socket.Incoming() == input && (|got| <= n || n <= 0) && (n <= 0 ==> got == [])
      decreases n - |got|
    {
      var packet := socket.Recv(n - |got|);
      if packet == [] {
        return None;
      }
      got := got + packet;
    }
    assert n > 0 ==> input[..n] == got && input[n..] == socket.Incoming();
    data := Some(got);
  }

  class Server {
    var store: Store

    constructor ()
      ensures store == Store([], map[])
    {
      store := Store([], map[]);
    }

    /** `handle_client`: whatever the packets, the bytes sent and the store are those of `Serve`. */
    method HandleClient(socket: Socket)
      requires socket.Valid()
      modifies this, socket
      ensures socket.closed
      ensures socket.sent == old(socket.sent) + Serve(old(socket.Incoming()), old(store)).0
      ensures store == Serve(old(socket.Incoming()), old(store)).1
    {
      hide DeserializeClient, AnswerTo, Joint;
      ghost var goal := Serve(socket.Incoming(), store);
      ghost var start := socket.sent;
      while true
        invariant socket.Valid()
        invariant socket.sent + Serve(socket.Incoming(), store).0 == start + goal.0
        invariant Serve(socket.Incoming(), store).1 == goal.1
        decreases |socket.Incoming()|
      {
        ghost var input := socket.Incoming();
        assert socket.sent + [] == socket.sent;
        var header := ReceiveAll(socket, CLIENT_META_BYTES);
        if header.None? {
          assert Serve(input, store) == ([], store);
          break;
        }
        var meta := DeserializeClient(header.value);
        if meta.None? {
          assert Serve(input, store) == ([], store);
          break;
        }
        if meta.value.command.Put? {
          var s := ReceiveAll(socket, meta.value.length);
          store := store.With(meta.value.key, s);
        } else {
          var reply := AnswerTo(meta.value.command, meta.value.key, store);
          if reply.None? {
            assert Serve(input, store) == ([], store);
            break;
          }
          assert socket.sent + (reply.value + Serve(socket.Incoming(), store).0)
              == (socket.sent + reply.value) + Serve(socket.Incoming(), store).0;
          socket.SendAll(reply.value);
        }
      }
      socket.Close();
    }
  }

  /** Any cut of the requests' bytes into packets gives the same replies. */
  method ServeClient(server: Server, socket: Socket, rs: seq<Request>) returns (answers: seq<Answer>)
    requires socket.Valid() && socket.sent == [] && (forall r <- rs :: WellFormed(r))
    requires socket.Incoming() == EncodeRequests(rs) && Announceable(rs, server.store)
    modifies server, socket
    ensures answers == ApplyAll(rs, old(server.store)).0 && server.store == ApplyAll(rs, old(server.store)).1
    ensures |answers| == |rs| && forall n :: 0 <= n < |rs| ==> AnswerRight(rs, n, old(server.store), answers[n])
    ensures Holds(rs, |rs|, old(server.store), server.store)
    ensures Tidy(old(server.store)) ==> server.store.order == KeysAfter(old(server.store).order, rs)
  {
    ghost var input, start := socket.Incoming(), server.store;
    ServerRefinesMapIff(rs, start);
    ServerRemembers(rs, start);
    hide *;
    ghost var out := Serve(input, start).0;
    server.HandleClient(socket);
    assert [] + out == out;
    assert socket.sent == out;
    answers := ReadAnswers(rs, socket.sent).value;
  }
}
