/** How the connectors place the chunks of a request in one contiguous GPU buffer,
    next to the concatenation of the chunks' slot mappings. */
module BufferLayout {

  predicate Chunked(starts: seq<nat>, ends: seq<nat>, slots: seq<nat>) {
    && |starts| == |ends|
    && forall j :: 0 <= j < |starts| ==> starts[j] <= ends[j] <= |slots|
  }

  /** Tokens in the first k chunks. */
  function Offset(starts: seq<nat>, ends: seq<nat>, k: nat): (n: nat)
    requires k <= |starts| == |ends| && forall j :: 0 <= j < |starts| ==> starts[j] <= ends[j]
  {
    if k == 0 then 0 else Offset(starts, ends, k - 1) + ends[k - 1] - starts[k - 1]
  }

  /** The slots of the first k chunks, one chunk after the other. */
  function ConcatSlots(starts: seq<nat>, ends: seq<nat>, slots: seq<nat>, k: nat): (w: seq<nat>)
    requires Chunked(starts, ends, slots) && k <= |starts|
    ensures |w| == Offset(starts, ends, k)
  {
    if k == 0 then [] else ConcatSlots(starts, ends, slots, k - 1) + slots[starts[k - 1]..ends[k - 1]]
  }

  /** `buf_starts_ends`: each chunk right behind the one before it. */
  function RunningRanges(starts: seq<nat>, ends: seq<nat>): (r: seq<(int, int)>)
    requires |starts| == |ends| && forall j :: 0 <= j < |starts| ==> starts[j] <= ends[j]
    ensures |r| == |starts|
  {
    seq(|starts|, j requires 0 <= j < |starts| => (Offset(starts, ends, j), Offset(starts, ends, j + 1)))
  }

  /** `start - offset .. end - offset` with the first start as offset. */
  function OffsetRanges(starts: seq<nat>, ends: seq<nat>): (r: seq<(int, int)>)
    requires |starts| == |ends| > 0
  {
    seq(|starts|, j requires 0 <= j < |starts| => (starts[j] as int - starts[0], ends[j] as int - starts[0]))
  }

  ghost predicate Contiguous(starts: seq<nat>, ends: seq<nat>)
    requires |starts| == |ends|
  {
    forall j :: 0 < j < |starts| ==> starts[j] == ends[j - 1]
  }

  /** The running layout is right for every chunk list: the slots that go with a
      chunk's buffer range are that chunk's slots. */
  lemma {:induction false} RunningLayoutMatches(starts: seq<nat>, ends: seq<nat>, slots: seq<nat>, k: nat, j: nat)
    requires Chunked(starts, ends, slots) && j < k <= |starts|
    ensures var (lo, hi) := RunningRanges(starts, ends)[j];
            && 0 <= lo <= hi <= Offset(starts, ends, k)
            && ConcatSlots(starts, ends, slots, k)[lo..hi] == slots[starts[j]..ends[j]]
  {
    var (lo, hi) := RunningRanges(starts, ends)[j];
    if j < k - 1 {
      RunningLayoutMatches(starts, ends, slots, k - 1, j);
      assert ConcatSlots(starts, ends, slots, k)[lo..hi] == ConcatSlots(starts, ends, slots, k - 1)[lo..hi];
    }
  }

  /** The `start - offset` layout is that same layout exactly when each chunk starts
      where the one before it ends. */
  lemma {:induction false} LayoutsAgreeIffContiguous(starts: seq<nat>, ends: seq<nat>)
    requires |starts| == |ends| > 0 && forall j :: 0 <= j < |starts| ==> starts[j] <= ends[j]
    ensures OffsetRanges(starts, ends) == RunningRanges(starts, ends) <==> Contiguous(starts, ends)
  {
    hide Offset;
    var off, run := OffsetRanges(starts, ends), RunningRanges(starts, ends);
    if off == run {
      forall j | 0 < j < |starts| ensures starts[j] == ends[j - 1] {
        assert off[j] == run[j] && off[j - 1] == run[j - 1];
      }
    }
    if Contiguous(starts, ends) {
      SameRanges(starts, ends);
    }
  }

  lemma SameRanges(starts: seq<nat>, ends: seq<nat>)
    requires |starts| == |ends| > 0 && forall j :: 0 <= j < |starts| ==> starts[j] <= ends[j]
    requires Contiguous(starts, ends)
    ensures OffsetRanges(starts, ends) == RunningRanges(starts, ends)
  {
    hide Offset;
    forall j | 0 <= j < |starts| ensures OffsetRanges(starts, ends)[j] == RunningRanges(starts, ends)[j] {
      ContiguousOffset(starts, ends, j);
      ContiguousOffset(starts, ends, j + 1);
    }
  }

  lemma {:induction false} ContiguousOffset(starts: seq<nat>, ends: seq<nat>, k: nat)
    requires k <= |starts| == |ends| && |starts| > 0 && forall j :: 0 <= j < |starts| ==> starts[j] <= ends[j]
    requires Contiguous(starts, ends)
    ensures Offset(starts, ends, k) == if k == 0 then 0 else ends[k - 1] as int - starts[0]
  {
    if k > 0 { ContiguousOffset(starts, ends, k - 1); }
  }

  /** `old_positions_chunks`: one list of positions per chunk, none without position caching. */
  function PositionChunks(starts: seq<nat>, ends: seq<nat>, cachePositions: bool): (r: seq<seq<nat>>)
    requires |starts| == |ends| && forall j :: 0 <= j < |starts| ==> starts[j] <= ends[j]
    ensures |r| == if cachePositions then |starts| else 0
  {
    if cachePositions then
      seq(|starts|, j requires 0 <= j < |starts| =>
        seq(ends[j] - starts[j], i requires 0 <= i < ends[j] - starts[j] => starts[j] + i))
    else []
  }

  /** The ranges begin at 0, follow one another and are as long as their chunks. */
  ghost predicate RangesFollow(starts: seq<nat>, ends: seq<nat>, ranges: seq<(int, int)>)
    requires |starts| == |ends|
  {
    && |ranges| == |starts| && (ranges != [] ==> ranges[0].0 == 0)
    && (forall j :: 0 < j < |starts| ==> ranges[j].0 == ranges[j - 1].1)
    && (forall j :: 0 <= j < |starts| ==> ranges[j].1 == ranges[j].0 + ends[j] - starts[j])
  }

  predicate RangeHolds(full: seq<nat>, range: (int, int), chunk: seq<nat>) {
    0 <= range.0 <= range.1 <= |full| && full[range.0..range.1] == chunk
  }

  /** And each range of the joined slots holds the slots of its chunk. */
  ghost predicate LaidOut(starts: seq<nat>, ends: seq<nat>, slots: seq<nat>, ranges: seq<(int, int)>, full: seq<nat>)
    requires Chunked(starts, ends, slots)
  {
    && RangesFollow(starts, ends, ranges)
    && |full| == (if ranges == [] then 0 else ranges[|ranges| - 1].1)
    && forall j :: 0 <= j < |starts| ==> RangeHolds(full, ranges[j], slots[starts[j]..ends[j]])
  }

  /** Entry i of chunk j is token `starts[j] + i`. */
  ghost predicate PositionsOf(starts: seq<nat>, ends: seq<nat>, positions: seq<seq<nat>>)
    requires |starts| == |ends| && forall j :: 0 <= j < |starts| ==> starts[j] <= ends[j]
  {
    && |positions| == |starts|
    && forall j :: 0 <= j < |starts| ==>
         && |positions[j]| == ends[j] - starts[j]
         && forall i :: 0 <= i < |positions[j]| ==> positions[j][i] == starts[j] + i
  }

  lemma PositionChunksAt(starts: seq<nat>, ends: seq<nat>)
    requires |starts| == |ends| && forall j :: 0 <= j < |starts| ==> starts[j] <= ends[j]
    ensures PositionsOf(starts, ends, PositionChunks(starts, ends, true))
  {
  }

  lemma LayoutRight(starts: seq<nat>, ends: seq<nat>, slots: seq<nat>)
    requires Chunked(starts, ends, slots)
    ensures LaidOut(starts, ends, slots, RunningRanges(starts, ends), ConcatSlots(starts, ends, slots, |starts|))
  {
    hide ConcatSlots, RangeHolds, RangesFollow;
    var full, ranges := ConcatSlots(starts, ends, slots, |starts|), RunningRanges(starts, ends);
    RangesRight(starts, ends);
    forall j | 0 <= j < |starts| ensures RangeHolds(full, ranges[j], slots[starts[j]..ends[j]]) {
      HoldsChunk(starts, ends, slots, j);
    }
  }

  lemma RangesRight(starts: seq<nat>, ends: seq<nat>)
    requires |starts| == |ends| && forall j :: 0 <= j < |starts| ==> starts[j] <= ends[j]
    ensures RangesFollow(starts, ends, RunningRanges(starts, ends))
  {
  }

  lemma HoldsChunk(starts: seq<nat>, ends: seq<nat>, slots: seq<nat>, j: nat)
    requires Chunked(starts, ends, slots) && j < |starts|
    ensures RangeHolds(ConcatSlots(starts, ends, slots, |starts|), RunningRanges(starts, ends)[j],
                       slots[starts[j]..ends[j]])
  {
    hide ConcatSlots, Offset;
    RunningLayoutMatches(starts, ends, slots, |starts|, j);
  }

  lemma OneMoreChunk(starts: seq<nat>, ends: seq<nat>, j: nat)
    requires |starts| == |ends| && j < |starts| && forall j :: 0 <= j < |starts| ==> starts[j] <= ends[j]
    ensures Offset(starts, ends, j + 1) == Offset(starts, ends, j) + ends[j] - starts[j]
    ensures RunningRanges(starts, ends)[..j + 1]
         == RunningRanges(starts, ends)[..j] + [(Offset(starts, ends, j), Offset(starts, ends, j + 1))]
    ensures var all := PositionChunks(starts, ends, true);
            all[..j + 1] == all[..j]
                + [seq(ends[j] - starts[j], i requires 0 <= i < ends[j] - starts[j] => starts[j] + i)]
  {
  }

  /** The loop that lays the chunks out before a store. */
  method LayOut(starts: seq<nat>, ends: seq<nat>, slots: seq<nat>, cachePositions: bool)
    returns (ranges: seq<(int, int)>, full: seq<nat>, positions: seq<seq<nat>>)
    requires Chunked(starts, ends, slots)
    ensures ranges == RunningRanges(starts, ends)
    ensures full == ConcatSlots(starts, ends, slots, |starts|)
    ensures positions == PositionChunks(starts, ends, cachePositions)
    ensures LaidOut(starts, ends, slots, ranges, full) && (cachePositions ==> PositionsOf(starts, ends, positions))
  {
    hide LaidOut, PositionsOf, RunningRanges, PositionChunks;
    LayoutRight(starts, ends, slots);
    PositionChunksAt(starts, ends);
    var bufStart := 0;
    ranges, full, positions := [], [], [];
    for j := 0 to |starts|
      invariant bufStart == Offset(starts, ends, j)
      invariant ranges == RunningRanges(starts, ends)[..j]
      invariant full == ConcatSlots(starts, ends, slots, j)
      invariant positions == if cachePositions then PositionChunks(starts, ends, true)[..j] else []
    {
      OneMoreChunk(starts, ends, j);
      var bufEnd := bufStart + ends[j] - starts[j];
      ranges := ranges + [(bufStart, bufEnd)];
      full := full + slots[starts[j]..ends[j]];
      bufStart := bufEnd;
      if cachePositions {
        positions := positions + [seq(ends[j] - starts[j], i requires 0 <= i < ends[j] - starts[j] => starts[j] + i)];
      }
    }
  }

  /** The copy loop of a store: it zips ranges, objects and positions, and stops at the
      shortest; `copied` are the objects that receive their chunk. */
  method CopiedObjects(ranges: seq<(int, int)>, objs: seq<nat>, positions: seq<seq<nat>>) returns (copied: seq<nat>)
    ensures copied <= objs
    ensures |copied| == |ranges| || |copied| == |objs| || |copied| == |positions|
    ensures |copied| <= |ranges| && |copied| <= |objs| && |copied| <= |positions|
  {
    copied := [];
    while |copied| < |ranges| && |copied| < |objs| && |copied| < |positions|
      invariant |copied| <= |ranges| && |copied| <= |objs| && |copied| <= |positions|
      invariant copied <= objs
    {
      copied := copied + [objs[|copied|]];
    }
  }

  /** A buffered store fills every object of a layer exactly when positions are cached:
      without them the list zipped in is empty and nothing is copied. */
  method StoredObjects(starts: seq<nat>, ends: seq<nat>, slots: seq<nat>, cachePositions: bool, objs: seq<nat>)
    returns (copied: seq<nat>)
    requires Chunked(starts, ends, slots) && |objs| == |starts|
    ensures copied == if cachePositions then objs else []
  {
    var ranges, _, positions := LayOut(starts, ends, slots, cachePositions);
    copied := CopiedObjects(ranges, objs, positions);
  }
}
