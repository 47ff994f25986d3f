/** Device memory, the tensor operations the layerwise connectors launch on it,
    and the two CUDA streams those operations wait in.

    A launch only puts an operation at the end of a stream. The device runs the
    streams in any interleaving it likes, and the host may rely on a result only
    after it has synchronised. Everything proved about the connectors is stated
    on `Settled()`, the memory once both streams have drained, and `Launch` asks
    its caller to show that the new operation cannot race with the other stream.
*/
module DeviceStreams {

  /** One token's key row and value row. */
  datatype KV<R> = KV(k: R, v: R)

  datatype Part = KeyPart | ValuePart | BothParts

  /** The numerics of the device: the rotary re-encoding of a key row from an old
      to a new position, and the zero row. Nothing is assumed about them. */
  datatype Numerics<!R> = Numerics(rope: (int, int, R) -> R, zero: R)

  /** Tensors are lists of token rows; `pos` is the connector's table of old positions. */
  datatype Memory<R> = Memory(tensors: seq<seq<KV<R>>>, pos: seq<int>)

  datatype Shape = Shape(rows: seq<nat>, positions: nat)

  datatype Op =
    | Copy(dst: nat, at: nat, src: nat, from: nat, len: nat, part: Part)
    | Gather(dst: nat, src: nat, slots: seq<nat>)
    | Scatter(dst: nat, src: nat, slots: seq<nat>)
    | Rope(dst: nat, newBase: int)
    | ZeroRows(dst: nat, rows: set<nat>)
    | SetPositions(at: nat, values: seq<int>)

  datatype Place = Tensor(id: nat) | Positions

  function Written(op: Op): Place {
    match op
    case SetPositions(_, _) => Positions
    case _ => Tensor(op.dst)
  }

  predicate Reads(op: Op, p: Place) {
    match op
    case Copy(_, _, src, _, _, _) => p == Tensor(src)
    case Gather(_, src, _) => p == Tensor(src)
    case Scatter(_, src, _) => p == Tensor(src)
    case Rope(_, _) => p == Positions
    case _ => false
  }

  predicate Touches(op: Op, p: Place) {
    Written(op) == p || Reads(op, p)
  }

  /** Neither operation writes what the other one touches. */
  predicate Disjoint(a: Op, b: Op) {
    && Written(a) != Written(b)
    && !Reads(a, Written(b))
    && !Reads(b, Written(a))
  }

  /** Both write positions, and the same ones wherever they overlap. */
  predicate SameWrites(a: Op, b: Op) {
    && a.SetPositions? && b.SetPositions?
    && forall i :: 0 <= i < |a.values| && 0 <= a.at + i - b.at < |b.values| ==> a.values[i] == b.values[a.at + i - b.at]
  }

  /** The order of the two makes no difference. */
  predicate Independent(a: Op, b: Op) {
    Disjoint(a, b) || SameWrites(a, b)
  }

  predicate Within(slots: seq<nat>, n: nat) {
    forall i :: 0 <= i < |slots| ==> slots[i] < n
  }

  predicate Fits(op: Op, s: Shape) {
    && (!op.SetPositions? ==> op.dst < |s.rows|)
    && match op
       case Copy(dst, at, src, from, len, _) =>
         src < |s.rows| && src != dst && at + len <= s.rows[dst] && from + len <= s.rows[src]
       case Gather(dst, src, slots) =>
         src < |s.rows| && src != dst && |slots| == s.rows[dst] && Within(slots, s.rows[src])
       case Scatter(dst, src, slots) =>
         src < |s.rows| && src != dst && |slots| == s.rows[src] && Within(slots, s.rows[dst])
       case Rope(dst, _) => s.rows[dst] == s.positions
       case ZeroRows(_, _) => true
       case SetPositions(at, values) => at + |values| <= s.positions
  }

  function ShapeOf<R>(m: Memory<R>): Shape {
    Shape(seq(|m.tensors|, i requires 0 <= i < |m.tensors| => |m.tensors[i]|), |m.pos|)
  }

  // ----- what each operation does to the rows of its destination -----

  function Merge<R>(was: KV<R>, now: KV<R>, part: Part): KV<R> {
    match part
    case KeyPart => KV(now.k, was.v)
    case ValuePart => KV(was.k, now.v)
    case BothParts => now
  }

  function CopyRows<R>(d: seq<KV<R>>, at: nat, s: seq<KV<R>>, from: nat, len: nat, part: Part): (r: seq<KV<R>>)
    requires at + len <= |d| && from + len <= |s|
  {
    seq(|d|, i requires 0 <= i < |d| => if at <= i < at + len then Merge(d[i], s[from + i - at], part) else d[i])
  }

  /** A whole-row copy splices the source rows in. */
  lemma WholeCopy<R>(d: seq<KV<R>>, at: nat, s: seq<KV<R>>)
    requires at + |s| <= |d|
    ensures CopyRows(d, at, s, 0, |s|, BothParts) == d[..at] + s + d[at + |s|..]
  {
  }

  /** Copying the keys of a range and then its values splices the source rows in. */
  lemma KeysThenValues<R>(d: seq<KV<R>>, at: nat, s: seq<KV<R>>)
    requires at + |s| <= |d|
    ensures CopyRows(CopyRows(d, at, s, 0, |s|, KeyPart), at, s, 0, |s|, ValuePart) == d[..at] + s + d[at + |s|..]
  {
  }

  function GatherRows<R>(s: seq<KV<R>>, slots: seq<nat>): (r: seq<KV<R>>)
    requires Within(slots, |s|)
  {
    seq(|slots|, i requires 0 <= i < |slots| => s[slots[i]])
  }

  /** The scatter kernel writes row i to slot i; a later row wins over an earlier one. */
  function ScatterRows<R>(d: seq<KV<R>>, s: seq<KV<R>>, slots: seq<nat>): (r: seq<KV<R>>)
    requires |slots| <= |s| && Within(slots, |d|)
    ensures |r| == |d|
  {
    if slots == [] then d
    else
      var n := |slots| - 1;
      ScatterRows(d, s, slots[..n])[slots[n] := s[n]]
  }

  function RopeRows<R>(num: Numerics<R>, d: seq<KV<R>>, pos: seq<int>, newBase: int): (r: seq<KV<R>>)
    requires |pos| == |d|
  {
    seq(|d|, i requires 0 <= i < |d| => KV(num.rope(pos[i], newBase + i, d[i].k), d[i].v))
  }

  function ZeroedRows<R>(num: Numerics<R>, d: seq<KV<R>>, rows: set<nat>): (r: seq<KV<R>>) {
    seq(|d|, i requires 0 <= i < |d| => if i in rows then KV(num.zero, num.zero) else d[i])
  }

  function SetRange(p: seq<int>, at: nat, values: seq<int>): (r: seq<int>)
    requires at + |values| <= |p|
  {
    p[..at] + values + p[at + |values|..]
  }

  function NewRows<R>(num: Numerics<R>, op: Op, m: Memory<R>): (r: seq<KV<R>>)
    requires Fits(op, ShapeOf(m)) && !op.SetPositions?
    ensures |r| == |m.tensors[op.dst]|
  {
    var d := m.tensors[op.dst];
    match op
    case Copy(_, at, src, from, len, part) => CopyRows(d, at, m.tensors[src], from, len, part)
    case Gather(_, src, slots) => GatherRows(m.tensors[src], slots)
    case Scatter(_, src, slots) => ScatterRows(d, m.tensors[src], slots)
    case Rope(_, newBase) => RopeRows(num, d, m.pos, newBase)
    case ZeroRows(_, rows) => ZeroedRows(num, d, rows)
  }

  /** An operation changes its destination and nothing else. */
  function Exec<R>(num: Numerics<R>, op: Op, m: Memory<R>): (r: Memory<R>)
    requires Fits(op, ShapeOf(m))
    ensures ShapeOf(r) == ShapeOf(m)
  {
    if op.SetPositions? then m.(pos := SetRange(m.pos, op.at, op.values))
    else m.(tensors := m.tensors[op.dst := NewRows(num, op, m)])
  }

  predicate AllFit(ops: seq<Op>, s: Shape) {
    forall op <- ops :: Fits(op, s)
  }

  function ExecAll<R>(num: Numerics<R>, ops: seq<Op>, m: Memory<R>): (r: Memory<R>)
    requires AllFit(ops, ShapeOf(m))
    ensures ShapeOf(r) == ShapeOf(m)
  {
    if ops == [] then m
    else
      assert ops[0] in ops;
      ExecAll(num, ops[1..], Exec(num, ops[0], m))
  }

  lemma ExecAllHead<R>(num: Numerics<R>, ops: seq<Op>, m: Memory<R>)
    requires AllFit(ops, ShapeOf(m)) && ops != []
    ensures ops[0] in ops && AllFit(ops[1..], ShapeOf(m))
    ensures ExecAll(num, ops, m) == ExecAll(num, ops[1..], Exec(num, ops[0], m))
  {
    assert ops[0] in ops;
  }

  lemma {:induction false} ExecAllAppend<R>(num: Numerics<R>, ops: seq<Op>, op: Op, m: Memory<R>)
    requires AllFit(ops, ShapeOf(m)) && Fits(op, ShapeOf(m))
    ensures AllFit(ops + [op], ShapeOf(m))
    ensures ExecAll(num, ops + [op], m) == Exec(num, op, ExecAll(num, ops, m))
  {
    if ops == [] {
      assert (ops + [op])[1..] == [];
    } else {
      assert ops[0] in ops;
      assert (ops + [op])[1..] == ops[1..] + [op];
      ExecAllAppend(num, ops[1..], op, Exec(num, ops[0], m));
    }
  }

  lemma ExecFrame<R>(num: Numerics<R>, op: Op, m: Memory<R>)
    requires Fits(op, ShapeOf(m))
    ensures |Exec(num, op, m).tensors| == |m.tensors|
    ensures forall t :: 0 <= t < |m.tensors| && Written(op) != Tensor(t) ==> Exec(num, op, m).tensors[t] == m.tensors[t]
  {
  }

  /** A tensor no operation writes keeps its rows. */
  lemma {:induction false} UnwrittenTensor<R>(num: Numerics<R>, ops: seq<Op>, m: Memory<R>, t: nat)
    requires AllFit(ops, ShapeOf(m)) && t < |m.tensors| && forall op <- ops :: Written(op) != Tensor(t)
    ensures t < |ExecAll(num, ops, m).tensors| && ExecAll(num, ops, m).tensors[t] == m.tensors[t]
  {
    if ops != [] {
      ExecAllHead(num, ops, m);
      UnwrittenTensor(num, ops[1..], Exec(num, ops[0], m), t);
    }
  }

  // ----- independence makes order irrelevant -----

  lemma RangesCommute(p: seq<int>, a: Op, b: Op)
    requires SameWrites(a, b) && a.at + |a.values| <= |p| && b.at + |b.values| <= |p|
    ensures SetRange(SetRange(p, b.at, b.values), a.at, a.values)
            == SetRange(SetRange(p, a.at, a.values), b.at, b.values)
  {
    var x := SetRange(SetRange(p, b.at, b.values), a.at, a.values);
    var y := SetRange(SetRange(p, a.at, a.values), b.at, b.values);
    forall i | 0 <= i < |p| ensures x[i] == y[i] {
      if a.at <= i < a.at + |a.values| && b.at <= i < b.at + |b.values| {
        assert a.values[i - a.at] == b.values[a.at + (i - a.at) - b.at];
      }
    }
  }

  lemma DisjointCommute<R>(num: Numerics<R>, a: Op, b: Op, m: Memory<R>)
    requires Fits(a, ShapeOf(m)) && Fits(b, ShapeOf(m)) && Disjoint(a, b)
    ensures Exec(num, a, Exec(num, b, m)) == Exec(num, b, Exec(num, a, m))
  {
    var mb, ma := Exec(num, b, m), Exec(num, a, m);
    if !a.SetPositions? { assert NewRows(num, a, mb) == NewRows(num, a, m); }
    if !b.SetPositions? { assert NewRows(num, b, ma) == NewRows(num, b, m); }
  }

  lemma Commute<R>(num: Numerics<R>, a: Op, b: Op, m: Memory<R>)
    requires Fits(a, ShapeOf(m)) && Fits(b, ShapeOf(m)) && Independent(a, b)
    ensures Exec(num, a, Exec(num, b, m)) == Exec(num, b, Exec(num, a, m))
  {
    hide SetRange, NewRows, Disjoint, ShapeOf;
    if SameWrites(a, b) {
      assert |m.pos| == ShapeOf(m).positions by { PositionCount(m); }
      RangesCommute(m.pos, a, b);
    } else {
      DisjointCommute(num, a, b, m);
    }
  }

  lemma PositionCount<R>(m: Memory<R>)
    ensures ShapeOf(m).positions == |m.pos|
  {
  }

  predicate ClearOf(x: Op, ops: seq<Op>) {
    forall y <- ops :: Independent(x, y)
  }

  predicate RaceFree(a: seq<Op>, b: seq<Op>) {
    forall x <- a, y <- b :: Independent(x, y)
  }

  /** One operation may be moved in front of everything it is independent of. */
  lemma {:induction false} CommuteAll<R>(num: Numerics<R>, x: Op, ops: seq<Op>, m: Memory<R>)
    requires Fits(x, ShapeOf(m)) && AllFit(ops, ShapeOf(m))
    requires ClearOf(x, ops)
    ensures ExecAll(num, ops, Exec(num, x, m)) == Exec(num, x, ExecAll(num, ops, m))
  {
    if ops != [] {
      assert ops[0] in ops;
      Commute(num, ops[0], x, m);
      CommuteAll(num, x, ops[1..], Exec(num, ops[0], m));
    }
  }

  /** `s` is some order-preserving merge of the two streams. */
  ghost predicate Interleaving(s: seq<Op>, a: seq<Op>, b: seq<Op>) {
    if s == [] then a == [] && b == []
    else
      || (a != [] && s[0] == a[0] && Interleaving(s[1..], a[1..], b))
      || (b != [] && s[0] == b[0] && Interleaving(s[1..], a, b[1..]))
  }

  /** Race-free streams have one outcome, whatever order the device picks. */
  lemma {:induction false} AnyInterleavingSameMemory<R>(num: Numerics<R>, s: seq<Op>, a: seq<Op>, b: seq<Op>,
                                                        m: Memory<R>)
    requires AllFit(a, ShapeOf(m)) && AllFit(b, ShapeOf(m)) && RaceFree(a, b) && Interleaving(s, a, b)
    ensures AllFit(s, ShapeOf(m))
    ensures ExecAll(num, s, m) == ExecAll(num, b, ExecAll(num, a, m))
  {
    hide Fits, Exec;
    if s == [] {
    } else if a != [] && s[0] == a[0] && Interleaving(s[1..], a[1..], b) {
      assert a[0] in a;
      AnyInterleavingSameMemory(num, s[1..], a[1..], b, Exec(num, a[0], m));
    } else {
      assert b[0] in b;
      AnyInterleavingSameMemory(num, s[1..], a, b[1..], Exec(num, b[0], m));
      CommuteAll(num, b[0], a, m);
    }
  }

  /** The paged caches among the tensors, by layer. */
  ghost function PagedLayers<R>(m: Memory<R>, kv: seq<nat>): (r: seq<seq<KV<R>>>)
    requires forall l :: 0 <= l < |kv| ==> kv[l] < |m.tensors|
  {
    seq(|kv|, l requires 0 <= l < |kv| => m.tensors[kv[l]])
  }

  datatype StreamId = Main | Side

  /** The GPU as the connectors use it: tensors, the old-position table, and the
      two streams (`main` is the current stream, `side` the load or store stream). A `lazy`
      device runs nothing until the host waits for it: the slowest of the behaviours any
      device may show, kept apart to say what can still be waiting at some point. */
  class Device<R(0)> {
    const num: Numerics<R>
    const tensors: seq<array<KV<R>>>
    const pos: array<int>
    const lazy: bool
    var main: seq<Op>
    var side: seq<Op>

    ghost function Arrays(): set<object> {
      (set t | t in tensors) + {pos as object}
    }

    ghost function Contents(): (m: Memory<R>)
      reads Arrays()
      ensures ShapeOf(m) == Shp()
    {
      Memory(seq(|tensors|, i requires 0 <= i < |tensors| reads Arrays() => tensors[i][..]), pos[..])
    }

    ghost function Shp(): Shape {
      Shape(seq(|tensors|, i requires 0 <= i < |tensors| => tensors[i].Length), pos.Length)
    }

    ghost predicate Distinct() {
      && (forall i, j :: 0 <= i < j < |tensors| ==> tensors[i] != tensors[j])
      && (forall i :: 0 <= i < |tensors| ==> tensors[i] as object != pos)
    }

    ghost predicate Valid()
      reads this, Arrays()
    {
      && Distinct()
      && AllFit(main, Shp()) && AllFit(side, Shp())
      && RaceFree(main, side)
    }

    /** The memory once both streams have drained. */
    ghost function Settled(): (m: Memory<R>)
      requires Valid()
      reads this, Arrays()
      ensures ShapeOf(m) == Shp()
    {
      ExecAll(num, side, ExecAll(num, main, Contents()))
    }

    constructor (num: Numerics<R>, tensors: seq<array<KV<R>>>, pos: array<int>, lazy: bool)
      requires forall i, j :: 0 <= i < j < |tensors| ==> tensors[i] != tensors[j]
      requires forall i :: 0 <= i < |tensors| ==> tensors[i] as object != pos
      ensures this.num == num && this.tensors == tensors && this.pos == pos && this.lazy == lazy
      ensures Valid() && main == [] && side == []
      ensures Settled() == Contents()
    {
      this.num, this.tensors, this.pos, this.lazy := num, tensors, pos, lazy;
      main, side := [], [];
    }

    /** Only one tensor changes, so the memory is the old one with that tensor replaced. */
    twostate lemma OneTensorChanged(dst: nat)
      requires dst < |tensors| && Distinct()
      requires forall i :: 0 <= i < |tensors| && i != dst ==> tensors[i][..] == old(tensors[i][..])
      requires pos[..] == old(pos[..])
      ensures Contents() == old(Contents()).(tensors := old(Contents()).tensors[dst := tensors[dst][..]])
    {
    }

    /** One kernel, run in place on the arrays. */
    method Run(op: Op)
      requires Distinct() && Fits(op, Shp())
      modifies Arrays()
      ensures Contents() == Exec(num, op, old(Contents()))
    {
      if op.SetPositions? {
        forall i | 0 <= i < |op.values| { pos[op.at + i] := op.values[i]; }
        assert pos[..] == SetRange(old(pos[..]), op.at, op.values);
        assert forall i :: 0 <= i < |tensors| ==> tensors[i][..] == old(tensors[i][..]);
        return;
      }
      var d := tensors[op.dst];
      match op {
        case Copy(_, at, src, from, len, part) => RunCopy(d, at, tensors[src], from, len, part);
        case Gather(_, src, slots) => RunGather(d, tensors[src], slots);
        case Scatter(_, src, slots) => RunScatter(d, tensors[src], slots);
        case Rope(_, newBase) => RunRope(d, newBase);
        case ZeroRows(_, rows) => RunZero(d, rows);
      }
      assert d[..] == NewRows(num, op, old(Contents()));
      OneTensorChanged(op.dst);
    }

    method RunCopy(d: array<KV<R>>, at: nat, s: array<KV<R>>, from: nat, len: nat, part: Part)
      requires d != s && at + len <= d.Length && from + len <= s.Length
      modifies d
      ensures d[..] == CopyRows(old(d[..]), at, s[..], from, len, part)
    {
      forall i | 0 <= i < len { d[at + i] := Merge(d[at + i], s[from + i], part); }
    }

    method RunGather(d: array<KV<R>>, s: array<KV<R>>, slots: seq<nat>)
      requires d != s && |slots| == d.Length && Within(slots, s.Length)
      modifies d
      ensures d[..] == GatherRows(s[..], slots)
    {
      forall i | 0 <= i < |slots| { d[i] := s[slots[i]]; }
    }

    method RunScatter(d: array<KV<R>>, s: array<KV<R>>, slots: seq<nat>)
      requires d != s && |slots| == s.Length && Within(slots, d.Length)
      modifies d
      ensures d[..] == ScatterRows(old(d[..]), s[..], slots)
    {
      for i := 0 to |slots|
        invariant d[..] == ScatterRows(old(d[..]), s[..], slots[..i])
      {
        assert slots[..i + 1][..i] == slots[..i];
        d[slots[i]] := s[i];
      }
      assert slots[..|slots|] == slots;
    }

    method RunRope(d: array<KV<R>>, newBase: int)
      requires d.Length == pos.Length && d as object != pos
      modifies d
      ensures d[..] == RopeRows(num, old(d[..]), pos[..], newBase)
    {
      forall i | 0 <= i < d.Length { d[i] := KV(num.rope(pos[i], newBase + i, d[i].k), d[i].v); }
    }

    method RunZero(d: array<KV<R>>, rows: set<nat>)
      modifies d
      ensures d[..] == ZeroedRows(num, old(d[..]), rows)
    {
      forall i | 0 <= i < d.Length && i in rows { d[i] := KV(num.zero, num.zero); }
    }

    /** The device runs as many queued operations as it likes, in any interleaving. */
    method Progress()
      requires Valid()
      modifies this, Arrays()
      ensures Valid() && Settled() == old(Settled())
      ensures Left(main, old(main), lazy) && Left(side, old(side), lazy)
    {
      if lazy {
        return;
      }
      var budget: nat := *;
      while budget > 0 && (main != [] || side != [])
        invariant Valid() && Settled() == old(Settled())
        invariant Left(main, old(main), lazy) && Left(side, old(side), lazy)
      {
        var pick: StreamId := *;
        if main != [] && (side == [] || pick.Main?) {
          StepMain();
        } else {
          StepSide();
        }
        budget := budget - 1;
      }
    }

    method StepMain()
      requires Valid() && main != []
      modifies `main, Arrays()
      ensures Valid() && Settled() == old(Settled()) && main == old(main)[1..]
    {
      hide Exec, Fits;
      ghost var before, todo := Contents(), main;
      ExecAllHead(num, main, before);
      Run(main[0]);
      main := main[1..];
      assert Contents() == Exec(num, todo[0], before);
    }

    method StepSide()
      requires Valid() && side != []
      modifies `side, Arrays()
      ensures Valid() && Settled() == old(Settled()) && side == old(side)[1..]
    {
      hide Exec, Fits;
      ghost var before, todo := Contents(), side;
      ExecAllHead(num, side, ExecAll(num, main, before));
      assert ClearOf(side[0], main);
      CommuteAll(num, side[0], main, before);
      Run(side[0]);
      side := side[1..];
      assert Contents() == Exec(num, todo[0], before);
    }

    method EnqueueMain(op: Op)
      requires Valid() && Fits(op, Shp()) && ClearOf(op, side)
      modifies `main
      ensures Valid() && Settled() == Exec(num, op, old(Settled())) && main == old(main) + [op]
    {
      ghost var c, q := Contents(), main;
      ExecAllAppend(num, q, op, c);
      CommuteAll(num, op, side, ExecAll(num, q, c));
      main := main + [op];
      assert Contents() == c;
      assert Settled() == ExecAll(num, side, ExecAll(num, q + [op], c));
    }

    method EnqueueSide(op: Op)
      requires Valid() && Fits(op, Shp()) && ClearOf(op, main)
      modifies `side
      ensures Valid() && Settled() == Exec(num, op, old(Settled())) && side == old(side) + [op]
    {
      ghost var c, q := Contents(), side;
      ExecAllAppend(num, q, op, ExecAll(num, main, c));
      side := side + [op];
      assert Contents() == c;
    }

    /** Put `op` at the end of a stream. The caller shows that nothing waiting in
        the other stream touches what `op` writes, or writes what it touches. */
    method Issue(s: StreamId, op: Op)
      requires Valid() && Fits(op, Shp())
      requires s.Main? ==> ClearOf(op, side)
      requires s.Side? ==> ClearOf(op, main)
      modifies this, Arrays()
      ensures Valid() && Settled() == Exec(num, op, old(Settled()))
      ensures s.Main? ==> Left(side, old(side), lazy) && Left(main, old(main) + [op], lazy)
      ensures s.Side? ==> Left(main, old(main), lazy) && Left(side, old(side) + [op], lazy)
    {
      if s.Main? { EnqueueMain(op); } else { EnqueueSide(op); }
      Progress();
    }

    /** `Issue`, for callers to whom only the kind of work that may wait matters. */
    method Launch(s: StreamId, op: Op)
      requires Valid() && Fits(op, Shp())
      requires s.Main? ==> ClearOf(op, side)
      requires s.Side? ==> ClearOf(op, main)
      modifies this, Arrays()
      ensures Valid() && Settled() == Exec(num, op, old(Settled()))
      ensures s.Main? ==> Among(side, old(side)) && Among(main, old(main) + [op])
      ensures s.Side? ==> Among(main, old(main)) && Among(side, old(side) + [op])
    {
      hide Device.Valid, Device.Settled, Exec, Fits;
      ghost var m, w := main, side;
      Issue(s, op);
      LeftAmong(main, if s.Main? then m + [op] else m, lazy);
      LeftAmong(side, if s.Main? then w else w + [op], lazy);
    }

    /** `stream.synchronize()`: the host waits until that stream is empty. */
    method Drain(s: StreamId)
      requires Valid()
      modifies this, Arrays()
      ensures Valid() && Settled() == old(Settled())
      ensures if s.Main? then main == [] && Among(side, old(side)) else side == [] && Among(main, old(main))
    {
      ghost var m, w := main, side;
      Progress();
      LeftAmong(main, m, lazy);
      LeftAmong(side, w, lazy);
      if s.Main? {
        while main != []
          invariant Valid() && Settled() == old(Settled()) && Among(side, old(side))
        {
          StepMain();
        }
      } else {
        while side != []
          invariant Valid() && Settled() == old(Settled()) && Among(main, old(main))
        {
          StepSide();
        }
      }
    }

    /** `torch.cuda.synchronize()`: the host waits for the whole device. */
    method Synchronize()
      requires Valid()
      modifies this, Arrays()
      ensures Valid() && main == [] && side == []
      ensures Contents() == Settled() == old(Settled())
    {
      Drain(Main);
      Drain(Side);
    }
  }

  /** Everything in `s` was already in `whole`. */
  predicate Among<T(==)>(s: seq<T>, whole: seq<T>) {
    |s| <= |whole| && forall x <- s :: x in whole
  }

  /** A queue only loses work by running it, oldest first; a lazy device has run none. */
  predicate Left<T(==)>(s: seq<T>, whole: seq<T>, lazy: bool) {
    |s| <= |whole| && s == whole[|whole| - |s|..] && (lazy ==> s == whole)
  }

  lemma LeftAmong<T>(s: seq<T>, whole: seq<T>, lazy: bool)
    requires Left(s, whole, lazy)
    ensures Among(s, whole)
  {
  }

  lemma NoneLeft<T>(s: seq<T>, lazy: bool)
    requires Left(s, [], lazy)
    ensures s == []
  {
  }

  lemma OnlyOne<T>(s: seq<T>, x: T, lazy: bool)
    requires Left(s, [] + [x], lazy)
    ensures Left(s, [x], lazy) && forall y <- s :: y == x
  {
    assert [] + [x] == [x];
  }

  lemma AllOrNone<T>(s: seq<T>, x: T, lazy: bool)
    requires Left(s, [x], lazy)
    ensures s == (if s != [] then [x] else []) && (lazy ==> s != [])
  {
  }

  /** Running some work, issuing more and running some again. */
  lemma LeftOnwards<T>(s: seq<T>, middle: seq<T>, issued: seq<T>, whole: seq<T>, lazy: bool)
    requires Left(middle, whole, lazy) && Left(s, middle + issued, lazy)
    ensures Left(s, whole + issued, lazy)
  {
    var all := whole + issued;
    assert middle + issued == all[|whole| - |middle|..];
  }
}
