/** Host memory pinned chunk by chunk behind a growing address space. */
module LazyAllocator {
  import opened Options

  // ----- Python's bit operators -----

  /** `x & y` on unbounded two's complement integers. */
  function And(x: int, y: int): int
    decreases (if x < 0 then -x else x) + if y < 0 then -y else y
  {
    if x == 0 || y == 0 then 0
    else if x == -1 then y
    else if y == -1 then x
    else 2 * And(x / 2, y / 2) + (x % 2) * (y % 2)
  }

  /** `~x` */
  function Not(x: int): int {
    -x - 1
  }

  function Pow2(k: nat): (r: nat)
    ensures r > 0
  {
    if k == 0 then 1 else 2 * Pow2(k - 1)
  }

  ghost predicate PowerOfTwo(a: nat) {
    exists k: nat :: a == Pow2(k)
  }

  lemma AllOnes(x: int)
    ensures And(x, -1) == And(-1, x) == x && And(x, 0) == And(0, x) == 0
  {
  }

  /** `And` works bit by bit, lowest bit last. */
  lemma AndStep(x: int, y: int)
    ensures And(x, y) == 2 * And(x / 2, y / 2) + (x % 2) * (y % 2)
  {
    if x == 0 || y == 0 || x == -1 || y == -1 {
      hide And;
      AllOnes(x);
      AllOnes(y);
      AllOnes(x / 2);
      AllOnes(y / 2);
      assert x == 2 * (x / 2) + x % 2 && y == 2 * (y / 2) + y % 2;
    }
  }

  /** Masking with the complement of 2^k - 1 clears the low k bits. */
  lemma {:induction false} ClearLow(x: int, k: nat)
    ensures And(x, 0 - Pow2(k)) == x - x % Pow2(k)
    decreases k
  {
    hide And;
    if k == 0 {
      AllOnes(x);
    } else {
      var p: int := Pow2(k - 1);
      AndStep(x, 0 - 2 * p);
      assert (0 - 2 * p) / 2 == 0 - p && (0 - 2 * p) % 2 == 0;
      ClearLow(x / 2, k - 1);
      Halve(x, p);
    }
  }

  /** Masking with 2^k - 1 keeps the low k bits. */
  lemma {:induction false} KeepLow(x: int, k: nat)
    ensures And(x, Pow2(k) - 1) == x % Pow2(k)
    decreases k
  {
    hide And;
    if k == 0 {
      AllOnes(x);
    } else {
      var p := Pow2(k - 1);
      AndStep(x, 2 * p - 1);
      assert (2 * p - 1) / 2 == p - 1 && (2 * p - 1) % 2 == 1;
      KeepLow(x / 2, k - 1);
      Halve(x, p);
    }
  }

  lemma Halve(x: int, m: nat)
    requires m > 0
    ensures x % (2 * m) == 2 * ((x / 2) % m) + x % 2
  {
    var q, r := (x / 2) / m, (x / 2) % m;
    assert x == 2 * (q * m + r) + x % 2;
    assert x == (2 * m) * q + (2 * r + x % 2);
    Remainder(x, 2 * m, q, 2 * r + x % 2);
  }

  lemma Remainder(x: int, d: nat, q: int, r: nat)
    requires x == d * q + r && r < d
    ensures x % d == r
  {
    var q', r' := x / d, x % d;
    assert x == d * q' + r';
    assert d * (q - q') == d * q - d * q';
    SmallMultiple(d, q - q');
  }

  lemma SmallMultiple(d: nat, e: int)
    requires 0 - d < d * e < d
    ensures e == 0
  {
    Monotone(d, 1, e);
    Monotone(d, e, -1);
  }

  lemma Monotone(d: nat, a: int, b: int)
    ensures a <= b ==> d * a <= d * b
  {
    if a <= b { assert d * b == d * a + d * (b - a); }
  }

  /** Nothing is in both a number and its complement. */
  lemma {:induction false} AndNot(x: int)
    ensures And(x, Not(x)) == 0
    decreases if x < 0 then -x else x
  {
    if x != 0 && x != -1 {
      assert Not(x) / 2 == Not(x / 2);
      AndNot(x / 2);
    }
  }

  /** A positive number equals its lowest set bit only when it is a power of two. */
  lemma {:induction false} LowestBit(a: nat)
    requires a > 0 && And(a, 0 - a) == a
    ensures PowerOfTwo(a)
    decreases a
  {
    if a == 1 {
      assert a == Pow2(0);
    } else if a % 2 == 1 {
      assert (0 - a) / 2 == Not(a / 2);
      AndNot(a / 2);
    } else {
      assert (0 - a) / 2 == 0 - a / 2;
      LowestBit(a / 2);
      var k: nat :| a / 2 == Pow2(k);
      assert a == Pow2(k + 1);
    }
  }

  /** `align_to` */
  function AlignTo(size: int, align: int): int {
    And(size + align - 1, Not(align - 1))
  }

  ghost predicate LeastMultiple(r: int, size: int, align: nat)
    requires align > 0
  {
    && r % align == 0 && size <= r
    && forall m :: m % align == 0 && size <= m ==> r <= m
  }

  lemma AlignToPower(size: int, align: nat)
    requires PowerOfTwo(align)
    ensures align > 0 && AlignTo(size, align) == size + align - 1 - (size + align - 1) % align
    ensures LeastMultiple(AlignTo(size, align), size, align)
  {
    var k: nat :| align == Pow2(k);
    var x := size + align - 1;
    ClearLow(x, k);
    RoundUp(size, x, align);
  }

  lemma RoundUp(size: int, x: int, align: nat)
    requires align > 0 && x == size + align - 1
    ensures LeastMultiple(x - x % align, size, align)
  {
    Divides(x / align, align);
    assert x - x % align == align * (x / align);
    forall m | m % align == 0 && size <= m ensures x - x % align <= m {
      Below(align, m / align, x / align, m, x);
    }
  }

  lemma Below(d: nat, a: int, b: int, m: int, x: int)
    requires d > 0 && m == d * a && m + d > x >= d * b
    ensures d * b <= m
  {
    Monotone(d, a, b - 1);
    assert d * (b - 1) == d * b - d;
    Monotone(d, b, a);
  }

  lemma Divides(q: int, d: nat)
    requires d > 0
    ensures (d * q) % d == 0
  {
    Remainder(d * q, d, q, 0);
  }

  /** The documented demand is exact: aligning works on every size just for powers of two. */
  lemma AlignsIffPowerOfTwo(align: nat)
    requires align > 0
    ensures (forall size: int :: LeastMultiple(AlignTo(size, align), size, align)) <==> PowerOfTwo(align)
  {
    if PowerOfTwo(align) {
      forall size: int ensures LeastMultiple(AlignTo(size, align), size, align) {
        AlignToPower(size, align);
      }
    } else if forall size: int :: LeastMultiple(AlignTo(size, align), size, align) {
      var r := AlignTo(1, align);
      assert LeastMultiple(r, 1, align);
      Divides(1, align);
      assert align % align == 0 && r <= align;
      assert r == align by {
        if r < align { Remainder(r, align, 0, r); }
      }
      LowestBit(align);
    }
  }

  // ----- the pin records -----

  const PIN_CHUNK_SIZE: nat := 0x400_0000
  const COMMIT_SIZE: nat := 0x4000_0000

  lemma ChunkIsPower()
    ensures PowerOfTwo(PIN_CHUNK_SIZE) && PIN_CHUNK_SIZE == Pow2(26)
  {
    assert Pow2(8) == 0x100;
    assert Pow2(16) == 0x1_0000;
    assert Pow2(24) == 0x100_0000;
    assert Pow2(26) == 0x400_0000;
  }

  datatype Pin = Pin(ptr: nat, size: nat)

  /** The records cover [base, base + end) one after the other. */
  ghost predicate Tile(pins: seq<Pin>, base: nat, end: nat) {
    && pins != [] && pins[0].ptr == base
    && (forall i :: 0 <= i < |pins| - 1 ==> pins[i + 1].ptr == pins[i].ptr + pins[i].size)
    && pins[|pins| - 1].ptr + pins[|pins| - 1].size == base + end
  }

  ghost predicate Holds(p: Pin, address: nat) {
    p.ptr <= address < p.ptr + p.size
  }

  ghost predicate Pinned(pins: seq<Pin>, address: nat) {
    exists i :: 0 <= i < |pins| && Holds(pins[i], address)
  }

  lemma {:induction false} TilesAscend(pins: seq<Pin>, base: nat, end: nat, i: nat, j: nat)
    requires Tile(pins, base, end) && i <= j < |pins|
    ensures i < j ==> pins[i].ptr + pins[i].size <= pins[j].ptr
    ensures pins[j].ptr + pins[j].size <= base + end
    decreases |pins| - i
  {
    if i < j {
      TilesAscend(pins, base, end, i + 1, j);
    } else if i < |pins| - 1 {
      TilesAscend(pins, base, end, i + 1, i + 1);
    }
  }

  /** Every address of the prefix is pinned by exactly one record, and no other address is. */
  lemma PinnedExactlyOnceIff(pins: seq<Pin>, base: nat, end: nat, address: nat)
    requires Tile(pins, base, end)
    ensures base <= address < base + end <==> Pinned(pins, address)
    ensures forall i, j :: 0 <= i < j < |pins| ==> !(Holds(pins[i], address) && Holds(pins[j], address))
  {
    forall i, j | 0 <= i < j < |pins| ensures !(Holds(pins[i], address) && Holds(pins[j], address)) {
      TilesAscend(pins, base, end, i, j);
    }
    if Pinned(pins, address) {
      var i :| 0 <= i < |pins| && Holds(pins[i], address);
      TilesAscend(pins, base, end, i, i);
      TilesAscend(pins, base, end, 0, i);
    }
    if base <= address < base + end {
      var i := FindPin(pins, base, end, address, |pins|);
    }
  }

  lemma {:induction false} FindPin(pins: seq<Pin>, base: nat, end: nat, address: nat, n: nat) returns (i: nat)
    requires Tile(pins, base, end) && 0 < n <= |pins|
    requires base <= address < pins[n - 1].ptr + pins[n - 1].size
    ensures i < |pins| && Holds(pins[i], address)
  {
    if pins[n - 1].ptr <= address {
      i := n - 1;
    } else {
      assert pins[n - 2 + 1].ptr == pins[n - 2].ptr + pins[n - 2].size;
      i := FindPin(pins, base, end, address, n - 1);
    }
  }

  // ----- the allocator -----

  /** What another thread can see between two updates; `pinned` is the length pinned so far. */
  datatype Moment = Moment(pins: seq<Pin>, pinned: nat, curr: nat, space: nat)

  /** The exposed address space lies inside the pinned prefix, and that inside the buffer. */
  ghost predicate Safe(m: Moment, base: nat, finalSize: nat) {
    Tile(m.pins, base, m.pinned) && m.space <= m.curr <= m.pinned <= finalSize
  }

  ghost function Sum(s: seq<nat>): nat {
    if s == [] then 0 else Sum(s[..|s| - 1]) + s[|s| - 1]
  }

  /** The history grew by two moments per chunk pinned and one per commit. */
  ghost predicate Recorded(before: nat, after: nat, from: nat, to: nat, commits: nat) {
    (after - before - commits) * PIN_CHUNK_SIZE == 2 * (to - from)
  }

  lemma AppendSum(s: seq<nat>, x: nat)
    ensures Sum(s + [x]) == Sum(s) + x
  {
    assert (s + [x])[..|s|] == s;
  }

  /** `space` is the address manager's size, `breaks` the sizes its `sbrk` was given, and
      `history` the moments since construction. */
  class Allocator {
    const base: nat
    const initSize: nat
    const finalSize: nat
    var curr: nat
    var pins: seq<Pin>
    var space: nat
    ghost var breaks: seq<nat>
    ghost var history: seq<Moment>

    ghost predicate Consistent()
      reads this
    {
      && finalSize % PIN_CHUNK_SIZE == 0 && curr % PIN_CHUNK_SIZE == 0
      && space <= curr <= finalSize
      && initSize + Sum(breaks) == space
      && (forall i :: 0 <= i < |breaks| ==> 0 < breaks[i] <= COMMIT_SIZE && breaks[i] % PIN_CHUNK_SIZE == 0)
      && (forall i :: 0 <= i < |history| ==> Safe(history[i], base, finalSize))
      && (forall i :: 1 <= i < |pins| ==> pins[i].size == PIN_CHUNK_SIZE)
    }

    /** What holds between calls; `Consistent` alone holds between pinning and advancing. */
    ghost predicate Valid()
      reads this
    {
      Consistent() && Tile(pins, base, curr)
    }

    /** The fields before the first chunk is pinned. */
    constructor Fields(base: nat, initSize: nat, finalSize: nat)
      ensures this.base == base && this.finalSize == AlignTo(finalSize, PIN_CHUNK_SIZE)
      ensures this.initSize == curr == AlignTo(initSize, PIN_CHUNK_SIZE)
      ensures pins == [] && space == 0 && breaks == [] && history == []
    {
      ChunkIsPower();
      AlignToPower(initSize, PIN_CHUNK_SIZE);
      AlignToPower(finalSize, PIN_CHUNK_SIZE);
      this.base := base;
      this.initSize, this.curr := AlignTo(initSize, PIN_CHUNK_SIZE), AlignTo(initSize, PIN_CHUNK_SIZE);
      this.finalSize := AlignTo(finalSize, PIN_CHUNK_SIZE);
      this.pins, this.space, this.breaks, this.history := [], 0, [], [];
    }

    /** `__init__`; None when the assertion on the first pin fails, which is exactly when
        the rounded initial size exceeds the rounded final one. */
    static method Create(base: nat, initSize: nat, finalSize: nat) returns (r: Option<Allocator>)
      ensures r.None? <==> AlignTo(initSize, PIN_CHUNK_SIZE) > AlignTo(finalSize, PIN_CHUNK_SIZE)
      ensures r.Some? ==>
                && fresh(r.value) && r.value.Valid() && r.value.base == base
                && r.value.finalSize == AlignTo(finalSize, PIN_CHUNK_SIZE)
                && r.value.curr == r.value.space == r.value.initSize == AlignTo(initSize, PIN_CHUNK_SIZE)
    {
      ChunkIsPower();
      AlignToPower(initSize, PIN_CHUNK_SIZE);
      AlignToPower(finalSize, PIN_CHUNK_SIZE);
      var a := new Allocator.Fields(base, initSize, finalSize);
      var ok := a.PinMemoryChunk(0, a.curr);
      if !ok {
        return None;
      }
      a.space := a.curr;
      r := Some(a);
    }

    /** `_pin_memory_chunk`; false is a failed assertion. */
    method PinMemoryChunk(offset: nat, size: nat) returns (ok: bool)
      modifies `pins, `history
      ensures ok <==> offset % PIN_CHUNK_SIZE == 0 && size % PIN_CHUNK_SIZE == 0 && offset + size <= finalSize
      ensures pins == old(pins) + if ok then [Pin(base + offset, size)] else []
      ensures history == old(history) + if ok then [Moment(pins, offset + size, curr, space)] else []
    {
      ChunkIsPower();
      KeepLow(offset, 26);
      KeepLow(size, 26);
      if And(offset, PIN_CHUNK_SIZE - 1) != 0 || And(size, PIN_CHUNK_SIZE - 1) != 0 || offset + size > finalSize {
        return false;
      }
      pins := pins + [Pin(base + offset, size)];
      history := history + [Moment(pins, offset + size, curr, space)];
      ok := true;
    }

    /** One turn of the inner loop; the assertions of the pinning never fail. */
    method ExpandChunk()
      requires Valid() && curr < finalSize
      modifies this
      ensures Valid() && curr == old(curr) + PIN_CHUNK_SIZE && space == old(space) && breaks == old(breaks)
      ensures |history| == |old(history)| + 2 && old(history) <= history
    {
      var ok := PinMemoryChunk(curr, PIN_CHUNK_SIZE);
      assert ok;
      curr := curr + PIN_CHUNK_SIZE;
      history := history + [Moment(pins, curr, curr, space)];
    }

    /** `_commit_expansion`: the address manager's `sbrk`. */
    method CommitExpansion(size: nat)
      requires Valid() && 0 < size <= COMMIT_SIZE && size % PIN_CHUNK_SIZE == 0 && space + size <= curr
      modifies `space, `breaks, `history
      ensures Valid() && space == old(space) + size && breaks == old(breaks) + [size]
      ensures history == old(history) + [Moment(pins, curr, curr, space)]
    {
      hide Tile;
      AppendSum(breaks, size);
      space := space + size;
      breaks := breaks + [size];
      history := history + [Moment(pins, curr, curr, space)];
    }

    /** `_expand_worker`. `stop(n)` is what the n-th look at the stop event sees; the event is
        looked at once per commit, so exactly `turns` commits happen. */
    method ExpandWorker(stop: nat -> bool) returns (turns: nat)
      requires Valid() && space == curr
      modifies this
      ensures Valid() && space == curr && initSize + Sum(breaks) == curr
      ensures curr == Min(finalSize, old(curr) + turns * COMMIT_SIZE)
      ensures |breaks| == |old(breaks)| + turns
      ensures forall n :: 0 <= n < turns ==> !stop(n)
      ensures curr < finalSize ==> stop(turns)
      ensures old(history) <= history && Recorded(|old(history)|, |history|, old(curr), curr, turns)
    {
      hide Tile, Safe, Sum;
      turns := 0;
      var lastCommitSize := curr;
      while curr < finalSize && !stop(turns)
        invariant Valid() && space == curr == lastCommitSize
        invariant curr == Min(finalSize, old(curr) + turns * COMMIT_SIZE)
        invariant |breaks| == |old(breaks)| + turns
        invariant forall n :: 0 <= n < turns ==> !stop(n)
        invariant old(history) <= history && Recorded(|old(history)|, |history|, old(curr), curr, turns)
        decreases finalSize - curr
      {
        ExpandTurn();
        CommitExpansion(curr - lastCommitSize);
        lastCommitSize := curr;
        turns := turns + 1;
      }
    }

    /** The inner loop: one commit's worth of chunks, fewer at the end. */
    method ExpandTurn()
      requires Valid() && curr < finalSize
      modifies this
      ensures Valid() && space == old(space) && breaks == old(breaks)
      ensures curr == Min(finalSize, old(curr) + COMMIT_SIZE) > old(curr)
      ensures old(history) <= history && Recorded(|old(history)|, |history|, old(curr), curr, 0)
    {
      for i := 0 to COMMIT_SIZE / PIN_CHUNK_SIZE
        invariant Valid() && space == old(space) && breaks == old(breaks)
        invariant curr == old(curr) + i * PIN_CHUNK_SIZE
        invariant old(history) <= history && |history| == |old(history)| + 2 * i
      {
        if curr >= finalSize {
          break;
        }
        ExpandChunk();
      }
    }

    /** `close`, once the worker has stopped: what is unregistered. */
    method Close() returns (unregistered: seq<nat>)
      requires Valid()
      modifies `pins
      ensures pins == [] && |unregistered| == |old(pins)|
      ensures forall i :: 0 <= i < |unregistered| ==> unregistered[i] == old(pins[i]).ptr
      ensures (forall i, j :: 0 <= i < j < |unregistered| ==> unregistered[i] != unregistered[j])
         <==> (|old(pins)| == 1 || old(pins[0]).size > 0)
    {
      unregistered := [];
      for i := 0 to |pins|
        invariant |unregistered| == i
        invariant forall k :: 0 <= k < i ==> unregistered[k] == pins[k].ptr
      {
        unregistered := unregistered + [pins[i].ptr];
      }
      if |pins| > 1 && pins[0].size == 0 {
        assert pins[0 + 1].ptr == pins[0].ptr;
        assert unregistered[0] == unregistered[1];
      }
      forall i, j | 0 <= i < j < |pins| && pins[0].size > 0 ensures unregistered[i] != unregistered[j] {
        TilesAscend(pins, base, curr, i, j);
      }
      pins := [];
    }
  }

  function Min(x: nat, y: nat): nat {
    if x < y then x else y
  }

  /** An unstopped run pins and exposes the whole buffer, each byte under exactly one record. */
  method ExpandFully(a: Allocator) returns (turns: nat)
    requires a.Valid() && a.space == a.curr
    modifies a
    ensures a.curr == a.space == a.finalSize && a.initSize + Sum(a.breaks) == a.finalSize
    ensures forall address: nat :: a.base <= address < a.base + a.finalSize <==> Pinned(a.pins, address)
    ensures forall i :: 0 <= i < |a.history| ==> Safe(a.history[i], a.base, a.finalSize)
    ensures Recorded(|old(a.history)|, |a.history|, old(a.curr), a.curr, turns)
  {
    turns := a.ExpandWorker(_ => false);
    forall address: nat ensures a.base <= address < a.base + a.finalSize <==> Pinned(a.pins, address) {
      PinnedExactlyOnceIff(a.pins, a.base, a.finalSize, address);
    }
  }
}
